/** The edit controller of src/components/FormulaInput.tsx: the text in the input box,
    the tag picked in the tag menu, and the handlers that drive the formula store. */
module FormulaInput {
  import opened FormulaStore
  import Autocomplete

  datatype Option<T> = None | Some(value: T)

  /** The characters that both split the query and count as operator keys. */
  const OperatorChars: set<char> := {'+', '-', '*', '(', ')', '^', '/'}

  /** `['+', '-', '*', '(', ')', '^', '/'].includes(key)`. */
  predicate IsOperatorKey(key: string)
  {
    |key| == 1 && key[0] in OperatorChars
  }

  /** No operator character occurs in `s`. */
  predicate OperatorFree(s: string)
  {
    forall i :: 0 <= i < |s| ==> s[i] !in OperatorChars
  }

  /** The operator characters of `s`, in order: the separators `split` cuts at. */
  function Separators(s: string): seq<char>
  {
    if s == [] then []
    else Separators(s[..|s| - 1]) + (if s[|s| - 1] in OperatorChars then [s[|s| - 1]] else [])
  }

  /** Puts the pieces back together with the separators between them. */
  function Interleave(parts: seq<string>, seps: seq<char>): string
    requires |parts| == |seps| + 1
  {
    if seps == [] then parts[0]
    else Interleave(parts[..|parts| - 1], seps[..|seps| - 1]) + [seps[|seps| - 1]] + parts[|parts| - 1]
  }

  /** Extending the last piece extends the reassembled text by the same characters. */
  lemma InterleaveExtendLast(parts: seq<string>, seps: seq<char>, x: string)
    requires |parts| == |seps| + 1
    ensures Interleave(parts[..|parts| - 1] + [parts[|parts| - 1] + x], seps) == Interleave(parts, seps) + x
  {
  }

  /** `s.split(/[+\-*()^\/]/)`: the input cut at each operator character. There is one
      more piece than there are operators, no piece holds an operator, and putting the
      operators back between the pieces gives the input again. */
  function Split(s: string): (parts: seq<string>)
    ensures |parts| == |Separators(s)| + 1
    ensures forall k :: 0 <= k < |parts| ==> OperatorFree(parts[k])
    ensures Interleave(parts, Separators(s)) == s
  {
    if s == [] then [""]
    else
      var prefix := s[..|s| - 1];
      var init := Split(prefix);
      var c := s[|s| - 1];
      assert s == prefix + [c];
      if c in OperatorChars then
        assert (init + [""])[..|init|] == init;
        init + [""]
      else
        assert Separators(s) == Separators(prefix);
        InterleaveExtendLast(init, Separators(prefix), [c]);
        var parts := init[..|init| - 1] + [init[|init| - 1] + [c]];
        parts
  }

  /** `s.split(...).pop() || ''`: the last piece (`pop` always finds one, so the
      `|| ''` never changes the result). */
  function CurrentWord(s: string): string
  {
    var parts := Split(s);
    parts[|parts| - 1]
  }

  /** The autocomplete query is the longest operator-free suffix of the input:
      a suffix, free of operators, and either the whole input or preceded by an operator. */
  lemma {:induction false} CurrentWordIsTrailingWord(s: string)
    ensures var w := CurrentWord(s);
      |w| <= |s| && w == s[|s| - |w|..] && OperatorFree(w) &&
      (|w| < |s| ==> s[|s| - |w| - 1] in OperatorChars)
    ensures OperatorFree(s) ==> CurrentWord(s) == s
  {
    if s != [] {
      var prefix := s[..|s| - 1];
      CurrentWordIsTrailingWord(prefix);
      var c := s[|s| - 1];
      if c !in OperatorChars {
        var w0 := CurrentWord(prefix);
        assert CurrentWord(s) == w0 + [c];
        assert s == prefix + [c];
      }
    }
  }

  /** After an operator key the input ends in that operator, so the query is empty and
      no suggestions are shown. */
  lemma OperatorKeyEmptiesQuery(s: string, key: string)
    requires IsOperatorKey(key)
    ensures CurrentWord(s + key) == "" && Autocomplete.Suggestions(CurrentWord(s + key)) == []
  {
  }

  /** The state the component keeps beside the store. */
  class Editor {
    var inputValue: string
    var selectedTagId: Option<string>
    const store: Store

    constructor (store: Store)
      ensures this.store == store && inputValue == "" && selectedTagId == None
    {
      this.store := store;
      inputValue := "";
      selectedTagId := None;
    }

    /** The query handed to the autocomplete hook. */
    function Query(): string
      reads this
    {
      CurrentWord(inputValue)
    }

    /** The suggestions shown for the current input: none while the query is empty,
        otherwise every entry of the fixed list that matches the query. */
    function Suggestions(): (r: seq<string>)
      reads this
      ensures Query() == "" ==> r == []
      ensures forall i :: 0 <= i < |r| ==> Autocomplete.Matches(r[i], Query())
    {
      Autocomplete.Suggestions(Query())
    }

    /** `handleClear`: empties the store directly and clears the input. */
    method HandleClear()
      modifies this, store
      ensures store.tags == [] && store.formula == "" && store.Synced()
      ensures inputValue == "" && Suggestions() == [] && selectedTagId == old(selectedTagId)
    {
      store.SetState("", []);
      inputValue := "";
    }

    /** `handleInputChange`: the typed text becomes both the input and the formula;
        the tags are untouched. */
    method HandleInputChange(value: string)
      modifies this, store
      ensures inputValue == value && store.formula == value
      ensures store.tags == old(store.tags) && selectedTagId == old(selectedTagId)
    {
      inputValue := value;
      store.SetFormula(value);
    }

    /** `handleKeyDown`: Backspace on an empty input drops the last tag; an operator
        key appends an operand tag and then overwrites the formula with the input
        text; every other key changes nothing. `id` stands for the random id. */
    method HandleKeyDown(key: string, id: string)
      modifies this, store
      ensures selectedTagId == old(selectedTagId)
      ensures key == "Backspace" && old(inputValue) == "" && |old(store.tags)| > 0 ==>
        store.tags == old(store.tags)[..|old(store.tags)| - 1] && store.Synced() &&
        inputValue == old(inputValue)
      ensures !(key == "Backspace" && old(inputValue) == "" && |old(store.tags)| > 0) && IsOperatorKey(key) ==>
        inputValue == old(inputValue) + key &&
        store.tags == old(store.tags) + [Tag(id, key, Operand)] &&
        store.formula == inputValue
      ensures !(key == "Backspace" && old(inputValue) == "" && |old(store.tags)| > 0) && !IsOperatorKey(key) ==>
        inputValue == old(inputValue) && store.tags == old(store.tags) && store.formula == old(store.formula)
    {
      if key == "Backspace" && inputValue == "" && |store.tags| > 0 {
        store.RemoveLastTag();
      } else if IsOperatorKey(key) {
        var newInputValue := inputValue + key;
        inputValue := newInputValue;
        store.AddTag(Tag(id, key, Operand));
        store.SetFormula(newInputValue);
      }
    }

    /** `handleAutocompleteSelect`: a non-empty selection becomes one more tag, a number
        tag when `isNumeric` accepts it and a variable tag otherwise, and the input is
        cleared; a missing or empty selection changes nothing. `isNumeric` stands for
        `!isNaN(Number(value))`. */
    method HandleAutocompleteSelect(value: Option<string>, id: string, isNumeric: string -> bool)
      modifies this, store
      ensures selectedTagId == old(selectedTagId)
      ensures value.Some? && value.value != "" ==>
        store.tags == old(store.tags) + [Tag(id, value.value, if isNumeric(value.value) then Number else Variable)] &&
        store.formula == old(store.formula) + "{" + value.value + "}" &&
        (old(store.Synced()) ==> store.Synced()) &&
        inputValue == "" && Suggestions() == []
      ensures !(value.Some? && value.value != "") ==>
        store.tags == old(store.tags) && store.formula == old(store.formula) && inputValue == old(inputValue)
    {
      if value.Some? && value.value != "" {
        var v := value.value;
        var newTag := Tag(id, v, if isNumeric(v) then Number else Variable);
        store.AddTag(newTag);
        inputValue := "";
      }
    }

    /** `handleOptionSelect`: a menu option becomes one more variable tag. */
    method HandleOptionSelect(option: string, id: string)
      modifies store
      ensures store.tags == old(store.tags) + [Tag(id, option, Variable)]
      ensures store.formula == old(store.formula) + "{" + option + "}"
      ensures old(store.Synced()) ==> store.Synced()
    {
      store.AddTag(Tag(id, option, Variable));
    }

    /** The part of `handleTagMenuOpen` that remembers which tag the menu is for. */
    method HandleTagMenuOpen(tagId: string)
      modifies this`selectedTagId
      ensures selectedTagId == Some(tagId)
    {
      selectedTagId := Some(tagId);
    }

    /** The part of `handleTagMenuClose` that forgets the selected tag. */
    method HandleTagMenuClose()
      modifies this`selectedTagId
      ensures selectedTagId == None
    {
      selectedTagId := None;
    }

    /** `handleDeleteTag`: with a (non-empty) tag id selected, removes every tag with
        that id and closes the menu; otherwise changes nothing. */
    method HandleDeleteTag()
      modifies this`selectedTagId, store
      ensures old(selectedTagId).Some? && old(selectedTagId).value != "" ==>
        store.tags == Without(old(store.tags), old(selectedTagId).value) &&
        store.Synced() && selectedTagId == None
      ensures !(old(selectedTagId).Some? && old(selectedTagId).value != "") ==>
        store.tags == old(store.tags) && store.formula == old(store.formula) &&
        selectedTagId == old(selectedTagId)
    {
      if selectedTagId.Some? && selectedTagId.value != "" {
        store.RemoveTagById(selectedTagId.value);
        HandleTagMenuClose();
      }
    }
  }

  /** Picking the variable `x` from a menu and then typing `+` leaves tags that render
      as `{x}+`, while `formula` holds only the typed text `+`. */
  method OperatorKeyOverridesFormula() returns (formula: string, rendered: string)
    ensures formula == "+" && rendered == "{x}+"
  {
    var store := new Store();
    var editor := new Editor(store);
    editor.HandleOptionSelect("x", "1");
    editor.HandleKeyDown("+", "2");
    RenderAppend([Tag("1", "x", Variable)], Tag("2", "+", Operand));
    formula := store.formula;
    rendered := Render(store.tags);
  }
}
