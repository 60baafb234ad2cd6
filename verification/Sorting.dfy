// sorted() on a set of names.
module Sorting {
  import opened Prelude

  ghost predicate Ascending(s: seq<string>)
  {
    forall i, j :: 0 <= i < j < |s| ==> StringLess(s[i], s[j])
  }

  // A name in its place among ascending ones.
  function Insert(x: string, s: seq<string>): seq<string>
  {
    if s == [] || StringLess(x, s[0]) then [x] + s else [s[0]] + Insert(x, s[1..])
  }

  lemma {:induction false} InsertSpec(x: string, s: seq<string>)
    requires Ascending(s) && x !in s
    ensures Ascending(Insert(x, s)) && forall y :: y in Insert(x, s) <==> y == x || y in s
  {
    if s == [] {
    } else if StringLess(x, s[0]) {
      forall j | 0 <= j < |s| ensures StringLess(x, s[j]) {
        if j > 0 { StringLessTransitive(x, s[0], s[j]); }
      }
    } else {
      InsertSpec(x, s[1..]);
      StringLessTotal(x, s[0]);
      var r := Insert(x, s);
      assert r[1..] == Insert(x, s[1..]);
      forall j | 0 < j < |r| ensures StringLess(s[0], r[j]) {
        assert r[1..][j - 1] == r[j];
        if r[j] != x {
          assert r[j] in Insert(x, s[1..]);
          var k :| 0 <= k < |s[1..]| && s[1..][k] == r[j];
          assert StringLess(s[0], s[k + 1]);
        }
      }
      forall i, j | 0 <= i < j < |r| ensures StringLess(r[i], r[j]) {
        if i > 0 { assert StringLess(r[1..][i - 1], r[1..][j - 1]); }
      }
    }
  }

  method Sorted(names: set<string>) returns (out: seq<string>)
    ensures Ascending(out) && forall x :: x in out <==> x in names
  {
    out := [];
    var rest := names;
    while rest != {}
      invariant Ascending(out) && rest <= names
      invariant forall x :: x in out <==> x in names && x !in rest
      decreases |rest|
    {
      var x :| x in rest;
      InsertSpec(x, out);
      out := Insert(x, out);
      rest := rest - {x};
    }
  }
}
