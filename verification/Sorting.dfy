/** Sorting of text, byte by byte: what the listing relies on sort.Strings for. */
module Sorting {

  predicate LexLeq(a: string, b: string) {
    a == "" || (b != "" && (a[0] < b[0] || (a[0] == b[0] && LexLeq(a[1..], b[1..]))))
  }

  lemma {:induction false} LexTotal(a: string, b: string)
    ensures LexLeq(a, b) || LexLeq(b, a)
  {
    if a != "" && b != "" { LexTotal(a[1..], b[1..]); }
  }

  lemma {:induction false} LexTransitive(a: string, b: string, c: string)
    requires LexLeq(a, b) && LexLeq(b, c)
    ensures LexLeq(a, c)
  {
    if a != "" && b != "" && c != "" && a[0] == b[0] == c[0] { LexTransitive(a[1..], b[1..], c[1..]); }
  }

  function Insert(x: string, s: seq<string>): seq<string> {
    if s == [] || LexLeq(x, s[0]) then [x] + s else [s[0]] + Insert(x, s[1..])
  }

  function Sort(s: seq<string>): seq<string> {
    if s == [] then [] else Insert(s[0], Sort(s[1..]))
  }

  predicate Sorted(s: seq<string>) {
    forall i, j | 0 <= i < j < |s| :: LexLeq(s[i], s[j])
  }

  predicate Distinct(s: seq<string>) {
    forall i, j | 0 <= i < j < |s| :: s[i] != s[j]
  }

  lemma {:induction false} InsertSorts(x: string, s: seq<string>)
    requires Sorted(s)
    ensures Sorted(Insert(x, s)) && multiset(Insert(x, s)) == multiset(s) + multiset{x}
  {
    if s == [] {
    } else if LexLeq(x, s[0]) {
      forall j | 0 < j < |s| ensures LexLeq(x, s[j]) { LexTransitive(x, s[0], s[j]); }
    } else {
      var rest := s[1..];
      assert s == [s[0]] + rest;
      InsertSorts(x, rest);
      LexTotal(x, s[0]);
      var inserted := Insert(x, rest);
      forall j | 0 <= j < |inserted| ensures LexLeq(s[0], inserted[j]) {
        assert inserted[j] in multiset(rest) + multiset{x};
        if inserted[j] != x {
          assert inserted[j] in rest;
        }
      }
    }
  }

  lemma {:induction false} SortSorts(s: seq<string>)
    ensures Sorted(Sort(s)) && multiset(Sort(s)) == multiset(s)
  {
    if s != [] {
      SortSorts(s[1..]);
      InsertSorts(s[0], Sort(s[1..]));
      assert s == [s[0]] + s[1..];
    }
  }

  /** Sorting keeps the members and their distinctness. */
  lemma SortKeeps(s: seq<string>)
    ensures Sorted(Sort(s)) && (forall x :: x in Sort(s) <==> x in s)
    ensures Distinct(s) ==> Distinct(Sort(s))
  {
    SortSorts(s);
    forall x ensures x in Sort(s) <==> x in s {
      assert x in Sort(s) <==> x in multiset(Sort(s));
      assert x in s <==> x in multiset(s);
    }
    if Distinct(s) {
      forall x ensures multiset(s)[x] <= 1 { DistinctCounts(s, x); }
      CountsDistinct(Sort(s));
    }
  }

  lemma {:induction false} DistinctCounts(s: seq<string>, x: string)
    requires Distinct(s)
    ensures multiset(s)[x] <= 1
  {
    if s != [] {
      assert s == [s[0]] + s[1..];
      DistinctCounts(s[1..], x);
      if s[0] == x {
        assert x !in s[1..];
        assert multiset(s[1..])[x] == 0;
      }
    }
  }

  lemma CountsDistinct(s: seq<string>)
    requires forall x :: multiset(s)[x] <= 1
    ensures Distinct(s)
  {
    forall i, j | 0 <= i < j < |s| ensures s[i] != s[j] {
      assert s == s[..j] + s[j..];
      assert multiset(s)[s[i]] == multiset(s[..j])[s[i]] + multiset(s[j..])[s[i]];
      assert s[i] in s[..j];
      assert s[j] in s[j..];
    }
  }
}
