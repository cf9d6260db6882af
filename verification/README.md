# Formula input: a Dafny model

This project models the core of a small formula editor. The user builds a formula out of
tags: operators, numbers and named variables. Beside the tag list, a store keeps a
`formula` string. The editor's handlers turn key presses, typed text, autocomplete picks and
menu choices into store updates. An autocomplete hook suggests names from a fixed list.

The modules follow the source files:

- `Seqs` (`seqs.dfy`) holds the list operations the source uses: `filter` as `Filter`,
  `map(...).join('')` as `MapJoin`, and the order-preserving subsequence relation
  `IsSubsequence` used to state what a filter keeps.
- `FormulaStore` (`formula_store.dfy`) models `src/store/formulaStore.ts`:
  - the `Tag` record;
  - the per-tag rendering rule and `Render`, the rendering of a whole tag list;
  - the expression `calculate` builds before it calls `eval`;
  - the store as a class `Store` with the two fields `formula` and `tags`.

  `formula` is a real field. `SetFormula` and `SetState` can make it disagree with the
  tags, so `formula == Render(tags)` (the ghost predicate `Synced`) is not an object
  invariant. Each mutator states when `Synced` holds afterwards: `AddTag` preserves it,
  while `RemoveLastTag` and `RemoveTagById` re-establish it.
- `Autocomplete` (`autocomplete.dfy`) models `src/hooks/useAutocomplete.ts`: a
  case-insensitive substring filter (`FilterByQuery`) applied to the fixed suggestion list
  (`FetchSuggestions`). A query is fetched only when it is non-empty (`Suggestions`). The
  filter's properties are proved for any list, so they hold of the fixed one.
- `FormulaInput` (`formula_input.dfy`) models `src/components/FormulaInput.tsx`:
  - the class `Editor` holds the input text, the tag picked in the tag menu, and a
    reference to the store;
  - each handler is a method on `Editor`;
  - the autocomplete query (the text after the last operator character) is `CurrentWord`,
    built, like the source, from a split and taking the last piece.

What the code does, and the model with it:
- `formula` is stored in a field of its own, not derived from the tags;
- removing by id removes every tag with that id, not only the first;
- appending a tag never fails: there is no length cap;
- the repository has no evaluator of its own; it hands the expression string to `eval`;
- the braces in the rendering do not make it reversible (`RenderIsNotInjective`).

## Model

| member | source | states |
|---|---|---|
| `Seqs.Filter` | src/store/formulaStore.ts:36 | the result is no longer than the input; every element kept satisfies the predicate and comes from the input; every input element that satisfies it is kept |
| `Seqs.FilterIsSubsequence` | src/store/formulaStore.ts:36 | a filter's result is an order-preserving subsequence of its input |
| `Seqs.MapJoinConcat` | src/store/formulaStore.ts:31 | `map(...).join('')` of a concatenation is the concatenation of the two joins |
| `FormulaStore.RenderTag` | src/store/formulaStore.ts:26 | definition, no contract: an operand's raw value, otherwise `{value}`; its properties are in `RenderAppend` |
| `FormulaStore.Render` | src/store/formulaStore.ts:31 | definition, no contract: `map(renderTag).join('')`; its properties are in `RenderAppend`, `OperandsRenderAsExpression` and `RenderIsNotInjective` |
| `FormulaStore.Without` | src/store/formulaStore.ts:36 | definition, no contract: the filter by id; its properties are in `WithoutKeepsOthers`, `WithoutCounts`, `WithoutKeepsOrder` and `WithoutAbsentId` |
| `FormulaStore.RenderAppend` | src/store/formulaStore.ts:23-27 | rendering `tags + [t]` is rendering `tags` followed by `t`'s raw value for an operand and `{value}` otherwise, so `addTag`'s in-place extension of `formula` agrees with re-rendering |
| `FormulaStore.DropLast` | src/store/formulaStore.ts:30 | `slice(0, -1)` gives the empty list for the empty list, and otherwise the list that, with the last tag put back, is the input |
| `FormulaStore.WithoutKeepsOthers` | src/store/formulaStore.ts:36 | the filter by id keeps a tag iff it was in the list and its id differs |
| `FormulaStore.WithoutCounts` | src/store/formulaStore.ts:36 | each tag with another id survives as many times as it occurred, and every tag with the id is removed, not just the first |
| `FormulaStore.WithoutKeepsOrder` | src/store/formulaStore.ts:36 | the surviving tags keep their original relative order |
| `FormulaStore.WithoutAbsentId` | src/store/formulaStore.ts:36 | when no tag has the id, the list is unchanged |
| `FormulaStore.Lookup` | src/store/formulaStore.ts:44-51 | definition, no contract: `dummyValues[name] || 0` over the own keys `x`, `y`, `z`; its effect is stated in `ExpressionAppend` |
| `FormulaStore.DigitsValue` | src/store/formulaStore.ts:51 | definition, no contract: the number a digit string denotes, used to state `DecimalString` |
| `FormulaStore.DecimalString` | src/store/formulaStore.ts:51 | the text appended for a variable's number is a non-empty string of decimal digits that denotes that number, with no leading zero |
| `FormulaStore.ExpressionPiece` | src/store/formulaStore.ts:46-52 | definition, no contract: one `forEach` step's contribution; its properties are in `ExpressionAppend` |
| `FormulaStore.Expression` | src/store/formulaStore.ts:43-53 | definition, no contract: the whole expression string; its properties are in `ExpressionAppend`, `CalculateExample` and `Store.Calculate` |
| `FormulaStore.ExpressionAppend` | src/store/formulaStore.ts:43-53 | each tag adds one piece to the expression: the raw value for operand and number tags; `10`, `5`, `2` for variables `x`, `y`, `z`; `0` for any other variable |
| `FormulaStore.OperandsRenderAsExpression` | src/store/formulaStore.ts:26 | on a list of operands only, the displayed formula and the evaluated expression are the same text |
| `FormulaStore.CalculateExample` | src/store/formulaStore.ts:40-53 | tags `x`, `+`, `y` render as `{x}+{y}` and give the expression `10+5` |
| `FormulaStore.RenderIsNotInjective` | src/store/formulaStore.ts:31 | two different tag lists can render to the same `formula` text |
| `FormulaStore.Store.constructor` | src/store/formulaStore.ts:19-21 | the store starts with an empty formula and no tags, so it is in sync |
| `FormulaStore.Store.SetState` | src/components/FormulaInput.tsx:53 | a direct `setState` replaces both fields with the given values |
| `FormulaStore.Store.SetFormula` | src/store/formulaStore.ts:22 | `setFormula` sets `formula` to the value and leaves the tags unchanged (it may write only `formula`) |
| `FormulaStore.Store.AddTag` | src/store/formulaStore.ts:23-27 | the new tag goes last with all earlier tags unchanged; `formula` grows by exactly the tag's rendering; a synced store stays synced |
| `FormulaStore.Store.RemoveLastTag` | src/store/formulaStore.ts:28-33 | drops exactly the last tag (the empty list stays empty), re-renders `formula` from the remaining tags, and leaves `formula` empty when no tags remain |
| `FormulaStore.Store.RemoveTagById` | src/store/formulaStore.ts:34-39 | the tags become the filter by id of the old tags (see `WithoutKeepsOthers`) and `formula` is always recomputed from them |
| `FormulaStore.Store.Calculate` | src/store/formulaStore.ts:40-53 | the `forEach` loop builds exactly `Expression(tags)` (see `ExpressionAppend`); the method may change neither field |
| `FormulaStore.AddThenRemoveLast` | src/store/formulaStore.ts:23-33 | `addTag(t)` then `removeLastTag()` restores the old tags and leaves `formula` as their rendering, whatever `formula` held before |
| `Autocomplete.Lower` | src/hooks/useAutocomplete.ts:13 | definition, no contract: `toLowerCase`, ASCII letters only; its use is stated in `FilterByQueryIgnoresCase` |
| `Autocomplete.Matches` | src/hooks/useAutocomplete.ts:13 | definition, no contract: the filter's test, the lower-cased entry includes the lower-cased query; its properties are in the `FilterByQuery` lemmas |
| `Autocomplete.FilterByQuery` | src/hooks/useAutocomplete.ts:13 | every result is a list entry that contains the query ignoring case, and every such entry is a result |
| `Autocomplete.FilterByQueryCounts` | src/hooks/useAutocomplete.ts:13 | each matching entry is kept as many times as it occurs in the list, and no other entry is kept |
| `Autocomplete.FetchSuggestions` | src/hooks/useAutocomplete.ts:11-14 | definition, no contract: `FilterByQuery` applied to the fixed list; its properties are in the `FilterByQuery` lemmas and `Suggestions` |
| `Autocomplete.FilterByQueryInOrder` | src/hooks/useAutocomplete.ts:13 | the results are an order-preserving subsequence of the list |
| `Autocomplete.FilterByQueryIgnoresCase` | src/hooks/useAutocomplete.ts:13 | queries that differ only in letter case give identical results |
| `Autocomplete.FilterByQueryMonotone` | src/hooks/useAutocomplete.ts:13 | when `q1` occurs in `q2`, the results for `q2` are among those for `q1`, in the same order |
| `Autocomplete.EmptyQueryMatchesAll` | src/hooks/useAutocomplete.ts:13 | the filter with the empty query returns the whole list |
| `Autocomplete.Suggestions` | src/hooks/useAutocomplete.ts:11-22 | the empty query fetches nothing and yields no suggestions (`enabled: !!query`). For a non-empty query, the result is exactly the entries of the fixed list that match it, in list order |
| `FormulaInput.IsOperatorKey` | src/components/FormulaInput.tsx:66 | definition, no contract: the key is one of `+ - * ( ) ^ /`; used by `Editor.HandleKeyDown` |
| `FormulaInput.Separators` | src/components/FormulaInput.tsx:17 | definition, no contract: the operator characters of the input, in order; used to state `Split` |
| `FormulaInput.Interleave` | src/components/FormulaInput.tsx:17 | definition, no contract: pieces rejoined with separators between them; used to state `Split` |
| `FormulaInput.Split` | src/components/FormulaInput.tsx:17 | the split cuts the input at its operator characters: it yields one more piece than there are operators, no piece holds an operator, and putting the operators back between the pieces (`Interleave`) gives the input again |
| `FormulaInput.CurrentWord` | src/components/FormulaInput.tsx:17 | definition, no contract: the last piece of the split; its properties are in `CurrentWordIsTrailingWord` and `OperatorKeyEmptiesQuery` |
| `FormulaInput.CurrentWordIsTrailingWord` | src/components/FormulaInput.tsx:17 | the query is a suffix of the input with no operator character; it is either the whole input or preceded by an operator; an input with no operator is its own query |
| `FormulaInput.OperatorKeyEmptiesQuery` | src/components/FormulaInput.tsx:17 | once an operator key has been added to the input, the query is empty and no suggestions are shown |
| `FormulaInput.Editor.constructor` | src/components/FormulaInput.tsx:8-14 | the input starts empty, no tag is selected, and the editor drives the given store |
| `FormulaInput.Editor.Query` | src/components/FormulaInput.tsx:17 | definition, no contract: the query of the current input; its properties are in `CurrentWordIsTrailingWord` |
| `FormulaInput.Editor.Suggestions` | src/components/FormulaInput.tsx:17 | no suggestions while the query is empty, and every suggestion shown matches the query |
| `FormulaInput.Editor.HandleClear` | src/components/FormulaInput.tsx:52-55 | tags empty, `formula` and the input both `""`, the store in sync, and no suggestions shown |
| `FormulaInput.Editor.HandleInputChange` | src/components/FormulaInput.tsx:57-61 | the typed text becomes both the input and `formula`; the tags are unchanged |
| `FormulaInput.Editor.HandleKeyDown` | src/components/FormulaInput.tsx:63-72 | Backspace on an empty input with tags drops exactly the last tag and re-syncs. An operator key appends one operand tag with that key, extends the input by the key, and then sets `formula` to the new input. Every other key leaves the store and the input unchanged |
| `FormulaInput.Editor.HandleAutocompleteSelect` | src/components/FormulaInput.tsx:74-84 | a non-empty selection appends one tag with that value: a number tag when `isNumeric` holds of it, else a variable tag. It also clears the input, so no suggestions are shown, and keeps a synced store synced. A missing or empty selection changes nothing |
| `FormulaInput.Editor.HandleOptionSelect` | src/components/FormulaInput.tsx:120-125 | appends one variable tag with the option text; `formula` grows by `{option}` |
| `FormulaInput.Editor.HandleTagMenuOpen` | src/components/FormulaInput.tsx:86-89 | remembers the tag whose menu was opened |
| `FormulaInput.Editor.HandleTagMenuClose` | src/components/FormulaInput.tsx:91-94 | forgets the selected tag |
| `FormulaInput.Editor.HandleDeleteTag` | src/components/FormulaInput.tsx:127-132 | with a non-empty tag id selected, removes every tag with that id, re-syncs and clears the selection; otherwise changes nothing |
| `FormulaInput.OperatorKeyOverridesFormula` | src/components/FormulaInput.tsx:66-70 | after picking variable `x` from a menu and typing `+`, the tags render as `{x}+` while `formula` is just `+` |

## Left out

- `eval(expression)`, its floating-point result and the `'Error'` returned from the `catch` (src/store/formulaStore.ts:54-57): `Calculate` returns the expression string and stops there. No parser or evaluator is invented.
- `Lookup`: `dummyValues[name] || 0` also finds inherited object members such as `constructor`; the model looks up only the three own keys `x`, `y`, `z`.
- `Editor.HandleAutocompleteSelect`: the number test `isNaN(Number(value))` depends on JavaScript's numeric-string grammar; the model takes it as the parameter `isNumeric`.
- Tag ids come from `Math.random()`; the model takes them as parameters and assumes nothing about their uniqueness.
- `Autocomplete.Lower`: `toLowerCase` is restricted to ASCII letters.
- `useQuery` caching, query keys, the loading state and the 300 ms delay: `Suggestions` is the settled result for a query.
- The JSX, `renderFormula`, the three option lists' menus and their anchor state, the open/close handlers of the first, second and third menus, and the MUI `Autocomplete`'s own `onInputChange` that sets the input text alone. The browser's sequencing of `keydown` and `change` events is left out too: each handler is modelled as one atomic step on the current state.
- React's batching of state updates and the handlers' captured render-time values: the model reads the current state.
- src/App.tsx is not part of this model (provider and DOM wiring only).
