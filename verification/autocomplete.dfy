/** The suggestion filter of src/hooks/useAutocomplete.ts: a case-insensitive
    substring filter over a fixed list, run only for a non-empty query. */
module Autocomplete {
  import opened Seqs

  /** The fixed list the simulated fetch filters, in its declared order. */
  const MockSuggestions: seq<string> := [
    "x", "y", "z", "revenue", "cost", "profit",
    "sales cycle", "sales assumptions", "sign change(array)", "spread(array1, array2)",
    "sqrt(number)", "stdev(array)",
    "churn rate", "churn ARR", "chisk(k)", "chauchy(beta,scale)", "outbound message sent",
    "month (dividen, devisor)", "month", "month_from_date(date)", "contact length (month)",
    "sales cycle month", "demos", "meeting ->demos"
  ]

  /** `toLowerCase` on one character, restricted to ASCII. */
  function LowerChar(c: char): char
  {
    if 'A' <= c <= 'Z' then (c as int + 32) as char else c
  }

  /** `toLowerCase` on a string, restricted to ASCII. */
  function Lower(s: string): string
  {
    seq(|s|, i requires 0 <= i < |s| => LowerChar(s[i]))
  }

  /** `q` occurs in `s` starting at index `i`. */
  predicate OccursAt(s: string, q: string, i: int)
  {
    0 <= i <= |s| - |q| && q == s[i..i + |q|]
  }

  /** `s.includes(q)`: `q` occurs in `s` at some position (the empty string occurs everywhere). */
  predicate Contains(s: string, q: string)
  {
    exists i :: 0 <= i <= |s| - |q| && OccursAt(s, q, i)
  }

  /** The filter's test: the suggestion contains the query, ignoring case. */
  predicate Matches(suggestion: string, query: string)
  {
    Contains(Lower(suggestion), Lower(query))
  }

  /** `list.filter(s => s.toLowerCase().includes(query.toLowerCase()))`. */
  function FilterByQuery(list: seq<string>, query: string): (r: seq<string>)
    ensures forall i :: 0 <= i < |r| ==> r[i] in list && Matches(r[i], query)
    ensures forall i :: 0 <= i < |list| && Matches(list[i], query) ==> list[i] in r
  {
    Filter(list, (s: string) => Matches(s, query))
  }

  /** `fetchSuggestions(query)` without its delay: the matching suggestions in list order. */
  function FetchSuggestions(query: string): seq<string>
  {
    FilterByQuery(MockSuggestions, query)
  }

  /** The suggestions the input sees: the query is fetched only when non-empty
      (`enabled: !!query`), and no data reads as the empty list. */
  function Suggestions(query: string): (r: seq<string>)
    ensures query == "" ==> r == []
    ensures forall i :: 0 <= i < |r| ==> r[i] in MockSuggestions && Matches(r[i], query)
    ensures query != "" ==> forall i :: 0 <= i < |MockSuggestions| && Matches(MockSuggestions[i], query) ==>
      MockSuggestions[i] in r
    ensures IsSubsequence(r, MockSuggestions)
  {
    if query == "" then []
    else
      FilterByQueryInOrder(MockSuggestions, query);
      FetchSuggestions(query)
  }

  /** The results keep the list's order. */
  lemma FilterByQueryInOrder(list: seq<string>, query: string)
    ensures IsSubsequence(FilterByQuery(list, query), list)
  {
    FilterIsSubsequence(list, (s: string) => Matches(s, query));
  }

  /** Each matching entry is kept as often as it occurs in the list; no other entry is kept. */
  lemma FilterByQueryCounts(list: seq<string>, query: string, s: string)
    ensures multiset(FilterByQuery(list, query))[s] == if Matches(s, query) then multiset(list)[s] else 0
  {
    FilterCount(list, (s: string) => Matches(s, query), s);
  }

  /** Queries that differ only in letter case give identical results. */
  lemma FilterByQueryIgnoresCase(list: seq<string>, q1: string, q2: string)
    requires Lower(q1) == Lower(q2)
    ensures FilterByQuery(list, q1) == FilterByQuery(list, q2)
  {
    FilterCongruent(list, (s: string) => Matches(s, q1), (s: string) => Matches(s, q2));
  }

  /** Containment is transitive. */
  lemma ContainsTransitive(a: string, b: string, c: string)
    requires Contains(a, b) && Contains(b, c)
    ensures Contains(a, c)
  {
    var i :| 0 <= i <= |a| - |b| && OccursAt(a, b, i);
    var j :| 0 <= j <= |b| - |c| && OccursAt(b, c, j);
    assert b == a[i..i + |b|] && c == b[j..j + |c|];
    forall k | 0 <= k < |c| ensures c[k] == a[i + j + k] {
      assert c[k] == b[j + k] && b[j + k] == a[i + j + k];
    }
    assert c == a[i + j..i + j + |c|];
    assert OccursAt(a, c, i + j);
  }

  /** Lower-casing both sides keeps an occurrence. */
  lemma LowerKeepsContains(s: string, q: string)
    requires Contains(s, q)
    ensures Contains(Lower(s), Lower(q))
  {
    var i :| 0 <= i <= |s| - |q| && OccursAt(s, q, i);
    assert q == s[i..i + |q|];
    assert |Lower(s)| == |s| && |Lower(q)| == |q|;
    assert Lower(q) == Lower(s)[i..i + |q|];
    assert OccursAt(Lower(s), Lower(q), i);
  }

  /** A longer query narrows the results: when `q1` occurs in `q2`, every result for `q2`
      is a result for `q1`, in the same order. */
  lemma FilterByQueryMonotone(list: seq<string>, q1: string, q2: string)
    requires Contains(q2, q1)
    ensures IsSubsequence(FilterByQuery(list, q2), FilterByQuery(list, q1))
    ensures forall s :: s in FilterByQuery(list, q2) ==> s in FilterByQuery(list, q1)
  {
    LowerKeepsContains(q2, q1);
    forall s | Matches(s, q2) ensures Matches(s, q1) {
      ContainsTransitive(Lower(s), Lower(q2), Lower(q1));
    }
    FilterMonotone(list, (s: string) => Matches(s, q2), (s: string) => Matches(s, q1));
  }

  /** The empty query matches every suggestion. */
  lemma EmptyQueryMatchesAll(list: seq<string>)
    ensures FilterByQuery(list, "") == list
  {
    forall i | 0 <= i < |list| ensures Matches(list[i], "") {
      assert OccursAt(Lower(list[i]), Lower(""), 0);
    }
    FilterKeepsAll(list, (s: string) => Matches(s, ""));
  }
}
