/** The formula store (src/store/formulaStore.ts): an ordered list of tags and a
    `formula` string kept beside it. The tag mutators keep `formula` equal to the
    rendering of the tags; `setFormula` (and a direct `setState`) can break that. */
module FormulaStore {
  import opened Seqs

  /** The three kinds of tag. */
  datatype TagType = Operand | Number | Variable

  /** One token of the formula. Ids are opaque and need not be unique. */
  datatype Tag = Tag(id: string, value: string, kind: TagType)

  /** What one tag contributes to `formula`: an operand its raw value, any other tag `{value}`. */
  function RenderTag(t: Tag): string
  {
    if t.kind == Operand then t.value else "{" + t.value + "}"
  }

  /** `tags.map(renderTag).join('')`. */
  function Render(tags: seq<Tag>): string
  {
    MapJoin(tags, RenderTag)
  }

  /** The stand-in values `calculate` substitutes for variables; any other name reads as 0. */
  const DummyValues: map<string, nat> := map["x" := 10, "y" := 5, "z" := 2]

  /** `dummyValues[name] || 0`, with the lookup restricted to the three own keys. */
  function Lookup(name: string): nat
  {
    if name in DummyValues then DummyValues[name] else 0
  }

  /** The number a string of decimal digits denotes. */
  function DigitsValue(s: string): nat
    requires forall i :: 0 <= i < |s| ==> '0' <= s[i] <= '9'
  {
    if s == [] then 0 else DigitsValue(s[..|s| - 1]) * 10 + (s[|s| - 1] as int - '0' as int)
  }

  /** The decimal text JavaScript produces when a non-negative integer is appended to a
      string: digits that denote `n`, with no leading zero. */
  function DecimalString(n: nat): (r: string)
    ensures |r| >= 1
    ensures forall i :: 0 <= i < |r| ==> '0' <= r[i] <= '9'
    ensures DigitsValue(r) == n
    ensures n > 0 ==> r[0] != '0'
  {
    var d := ['0' + (n % 10) as char];
    if n < 10 then d else DecimalString(n / 10) + d
  }

  /** What one tag contributes to the expression `calculate` hands to `eval`. */
  function ExpressionPiece(t: Tag): string
  {
    match t.kind
    case Operand => t.value
    case Number => t.value
    case Variable => DecimalString(Lookup(t.value))
  }

  /** The expression string `calculate` builds from the tags. */
  function Expression(tags: seq<Tag>): string
  {
    MapJoin(tags, ExpressionPiece)
  }

  /** `tags.slice(0, -1)`: everything but the last tag; the empty list stays empty. */
  function DropLast(tags: seq<Tag>): (r: seq<Tag>)
    ensures tags == [] ==> r == []
    ensures tags != [] ==> r + [tags[|tags| - 1]] == tags
  {
    if tags == [] then [] else tags[..|tags| - 1]
  }

  /** `tags.filter(tag => tag.id !== id)`. */
  function Without(tags: seq<Tag>, id: string): seq<Tag>
  {
    Filter(tags, (t: Tag) => t.id != id)
  }

  /** Rendering distributes over appending one tag, so `addTag` may extend `formula` in place. */
  lemma RenderAppend(tags: seq<Tag>, t: Tag)
    ensures Render(tags + [t]) == Render(tags) + (if t.kind == Operand then t.value else "{" + t.value + "}")
  {
    MapJoinConcat(tags, [t], RenderTag);
  }

  /** The expression grows by one piece per tag: operand and number values verbatim,
      x, y and z as 10, 5 and 2, every other variable as 0. */
  lemma ExpressionAppend(tags: seq<Tag>, t: Tag)
    ensures Expression(tags + [t]) == Expression(tags) +
      (if t.kind != Variable then t.value
       else if t.value == "x" then "10"
       else if t.value == "y" then "5"
       else if t.value == "z" then "2"
       else "0")
  {
    MapJoinConcat(tags, [t], ExpressionPiece);
    if t.kind == Variable {
      assert DecimalString(10) == DecimalString(1) + ['0'];
    }
  }

  /** For a formula made of operands only, the displayed formula and the evaluated
      expression are the same text: the concatenation of the operand values. */
  lemma {:induction false} OperandsRenderAsExpression(tags: seq<Tag>)
    requires forall i :: 0 <= i < |tags| ==> tags[i].kind == Operand
    ensures Render(tags) == Expression(tags)
  {
    if tags != [] {
      OperandsRenderAsExpression(tags[1..]);
    }
  }

  /** `removeTagById` keeps a tag exactly when its id differs. */
  lemma WithoutKeepsOthers(tags: seq<Tag>, id: string)
    ensures forall t :: t in Without(tags, id) <==> t in tags && t.id != id
  {
  }

  /** Every tag with another id survives as often as it occurred; every tag with the id is gone. */
  lemma WithoutCounts(tags: seq<Tag>, id: string, t: Tag)
    ensures multiset(Without(tags, id))[t] == if t.id == id then 0 else multiset(tags)[t]
  {
    FilterCount(tags, (t: Tag) => t.id != id, t);
  }

  /** The survivors keep their original relative order. */
  lemma WithoutKeepsOrder(tags: seq<Tag>, id: string)
    ensures IsSubsequence(Without(tags, id), tags)
  {
    FilterIsSubsequence(tags, (t: Tag) => t.id != id);
  }

  /** When no tag carries the id, nothing changes. */
  lemma WithoutAbsentId(tags: seq<Tag>, id: string)
    requires forall i :: 0 <= i < |tags| ==> tags[i].id != id
    ensures Without(tags, id) == tags
  {
    FilterKeepsAll(tags, (t: Tag) => t.id != id);
  }

  /** A worked case: `x + y` shows as `{x}+{y}` and is handed to `eval` as `10+5`. */
  lemma CalculateExample()
    ensures var tags := [Tag("1", "x", Variable), Tag("2", "+", Operand), Tag("3", "y", Variable)];
      Render(tags) == "{x}+{y}" && Expression(tags) == "10+5"
  {
  }

  /** The braces do not make the rendering reversible: a value may itself hold braces,
      so one variable `a}{b` and the two variables `a`, `b` render alike. */
  lemma RenderIsNotInjective()
    ensures Render([Tag("1", "a}{b", Variable)]) == Render([Tag("1", "a", Variable), Tag("2", "b", Variable)])
  {
  }

  /** The store: `formula` is a field of its own, not a view of `tags`. */
  class Store {
    var formula: string
    var tags: seq<Tag>

    /** `formula` shows the tags; true along every path that avoids `setFormula`. */
    ghost predicate Synced()
      reads this
    {
      formula == Render(tags)
    }

    /** The store starts empty. */
    constructor ()
      ensures formula == "" && tags == [] && Synced()
    {
      formula := "";
      tags := [];
    }

    /** zustand's `setState({ formula, tags })`: both fields replaced outright. */
    method SetState(newFormula: string, newTags: seq<Tag>)
      modifies this
      ensures formula == newFormula && tags == newTags
    {
      formula := newFormula;
      tags := newTags;
    }

    /** `setFormula`: overwrites `formula` and never touches the tags. */
    method SetFormula(value: string)
      modifies this`formula
      ensures formula == value && tags == old(tags)
    {
      formula := value;
    }

    /** `addTag`: the tag goes last, earlier tags are unchanged, and `formula`
        grows by exactly the tag's rendering. */
    method AddTag(tag: Tag)
      modifies this
      ensures tags == old(tags) + [tag]
      ensures formula == old(formula) + RenderTag(tag)
      ensures old(Synced()) ==> Synced()
    {
      RenderAppend(tags, tag);
      tags := tags + [tag];
      formula := formula + RenderTag(tag);
    }

    /** `removeLastTag`: drops the last tag (none on an empty list) and re-renders. */
    method RemoveLastTag()
      modifies this
      ensures tags == DropLast(old(tags))
      ensures Synced()
      ensures |old(tags)| <= 1 ==> formula == ""
    {
      var newTags := DropLast(tags);
      tags := newTags;
      formula := Render(newTags);
    }

    /** `removeTagById`: keeps the tags with another id and re-renders. */
    method RemoveTagById(id: string)
      modifies this
      ensures tags == Without(old(tags), id)
      ensures Synced()
    {
      var newTags := Without(tags, id);
      tags := newTags;
      formula := Render(newTags);
    }

    /** The expression-building loop of `calculate`, up to but not including `eval`.
        It reads the store and changes neither field. */
    method Calculate() returns (expression: string)
      ensures expression == Expression(tags)
    {
      expression := "";
      var i := 0;
      while i < |tags|
        invariant 0 <= i <= |tags|
        invariant expression == Expression(tags[..i])
      {
        var tag := tags[i];
        ExpressionAppend(tags[..i], tag);
        assert tags[..i + 1] == tags[..i] + [tag];
        if tag.kind == Operand {
          expression := expression + tag.value;
        } else if tag.kind == Number {
          expression := expression + tag.value;
        } else {
          expression := expression + DecimalString(Lookup(tag.value));
        }
        i := i + 1;
      }
      assert tags[..i] == tags;
    }
  }

  /** `addTag(t)` then `removeLastTag()` restores the tags and leaves `formula` showing them,
      whatever `formula` held before. */
  method AddThenRemoveLast(store: Store, t: Tag)
    modifies store
    ensures store.tags == old(store.tags)
    ensures store.formula == Render(old(store.tags))
  {
    store.AddTag(t);
    store.RemoveLastTag();
  }
}
