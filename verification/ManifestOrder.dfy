// ManifestApi::ordered: the apply order, by kind, depth, segment and key.
module ManifestOrder {
  import opened Prelude
  import opened ManifestTypes
  import opened ManifestCycle

  // The length of the same-kind dependency chain above e, cut off after `guard` links.
  function Chain(m: Manifest, e: Entity, guard: nat): nat
    decreases guard
  {
    var parent := Parent(m, e);
    if guard == 0 || parent.None? || parent.value.kind != e.kind then 0
    else 1 + Chain(m, parent.value, guard - 1)
  }

  // The guard of the source lets the loop body run |m| + 1 times.
  function Depth(m: Manifest, e: Entity): nat { Chain(m, e, |m| + 1) }

  method DepthOf(m: Manifest, e: Entity) returns (depth: nat)
    ensures depth == Depth(m, e)
  {
    depth := 0;
    var at := e;
    var guard := 0;
    while at.dependsOn.Some? && guard <= |m|
      invariant guard <= |m| + 1
      invariant depth + Chain(m, at, |m| + 1 - guard) == Depth(m, e)
      decreases |m| + 1 - guard
    {
      guard := guard + 1;
      var parent := FindKey(m, at.dependsOn.value);
      if parent.None? || parent.value.kind != at.kind { break; }
      depth := depth + 1;
      at := parent.value;
    }
  }

  lemma {:induction false} ChainIsWalk(m: Manifest, e: Entity, guard: nat, k: nat)
    requires k <= Chain(m, e, guard)
    ensures Walk(m, e, k).Some?
    decreases guard
  {
    if k > 0 {
      var parent := Parent(m, e).value;
      ChainIsWalk(m, parent, guard - 1, k - 1);
      assert Walk(m, e, 1) == Some(parent);
      WalkAdd(m, e, 1, k - 1);
    }
  }

  // In an acyclic manifest a chain is shorter than the manifest.
  lemma ChainShort(m: Manifest, e: Entity, guard: nat)
    requires e in m && !HasCycle(m)
    ensures Chain(m, e, guard) < |m|
  {
    if Chain(m, e, guard) >= |m| {
      ChainIsWalk(m, e, guard, |m|);
      LongWalkIsCycle(m, e);
    }
  }

  // A chain that stopped below its guard stops there whatever the guard.
  lemma {:induction false} ChainStable(m: Manifest, e: Entity, guard: nat, larger: nat)
    requires Chain(m, e, guard) < guard <= larger
    ensures Chain(m, e, larger) == Chain(m, e, guard)
    decreases guard
  {
    var parent := Parent(m, e);
    if parent.Some? && parent.value.kind == e.kind {
      ChainStable(m, parent.value, guard - 1, larger - 1);
    }
  }

  // The guard never cuts a walk short: any guard of at least |m| gives the same depth.
  lemma GuardNeverCuts(m: Manifest, e: Entity, guard: nat)
    requires e in m && !HasCycle(m) && |m| <= guard
    ensures Chain(m, e, guard) == Depth(m, e)
  {
    ChainShort(m, e, |m|);
    ChainStable(m, e, |m|, guard);
    ChainStable(m, e, |m|, |m| + 1);
  }

  // A same-kind parent has strictly smaller depth.
  lemma ParentDepth(m: Manifest, e: Entity)
    requires e in m && !HasCycle(m)
    requires Parent(m, e).Some? && Parent(m, e).value.kind == e.kind
    ensures Depth(m, e) == 1 + Depth(m, Parent(m, e).value)
  {
    GuardNeverCuts(m, Parent(m, e).value, |m|);
  }

  // ---- the comparison ----

  predicate Less(m: Manifest, a: Entity, b: Entity)
  {
    if a.kind != b.kind then Rank(a.kind) < Rank(b.kind)
    else if Depth(m, a) != Depth(m, b) then Depth(m, a) < Depth(m, b)
    else if a.kind.NetworkProfile? && a.profile.Some? && b.profile.Some?
         && a.profile.value.segment != b.profile.value.segment
    then StringLess(a.profile.value.segment, b.profile.value.segment)
    else StringLess(a.key, b.key)
  }

  // Entities on which the comparison is a strict total order.
  predicate Comparable(e: Entity) { e.kind.NetworkProfile? ==> e.profile.Some? }

  lemma LessAsymmetric(m: Manifest, a: Entity, b: Entity)
    requires Less(m, a, b)
    ensures !Less(m, b, a)
  {
    if Less(m, b, a) {
      var (x, y) := if a.kind.NetworkProfile? && a.profile.Some? && b.profile.Some?
                     && a.profile.value.segment != b.profile.value.segment
                  then (a.profile.value.segment, b.profile.value.segment) else (a.key, b.key);
      StringLessTransitive(x, y, x);
      StringLessIrreflexive(x);
    }
  }

  lemma LessTransitive(m: Manifest, a: Entity, b: Entity, c: Entity)
    requires Comparable(a) && Comparable(b) && Comparable(c)
    requires Less(m, a, b) && Less(m, b, c)
    ensures Less(m, a, c)
  {
    if a.kind == b.kind == c.kind && Depth(m, a) == Depth(m, b) == Depth(m, c) {
      if a.kind.NetworkProfile? {
        var x, y, z := a.profile.value.segment, b.profile.value.segment, c.profile.value.segment;
        if x != y && y != z {
          StringLessTransitive(x, y, z);
          StringLessIrreflexive(x);
        } else if x == y == z {
          StringLessTransitive(a.key, b.key, c.key);
        }
      } else {
        StringLessTransitive(a.key, b.key, c.key);
      }
    }
  }

  lemma LessTotal(m: Manifest, a: Entity, b: Entity)
    requires Compatible(a, b)
    ensures Less(m, a, b) || Less(m, b, a)
  {
    if a.kind == b.kind && Depth(m, a) == Depth(m, b) {
      StringLessTotal(a.key, b.key);
      if a.kind.NetworkProfile? && a.profile.Some? && b.profile.Some? {
        StringLessTotal(a.profile.value.segment, b.profile.value.segment);
      }
    }
  }

  // ---- the sort ----

  function InsertEntity(m: Manifest, e: Entity, sorted: seq<Entity>): seq<Entity>
  {
    if sorted == [] || Less(m, e, sorted[0]) then [e] + sorted
    else [sorted[0]] + InsertEntity(m, e, sorted[1..])
  }

  // A stable sort of s by the comparison over m.
  function SortEntities(m: Manifest, s: seq<Entity>): seq<Entity>
  {
    if s == [] then [] else InsertEntity(m, s[|s| - 1], SortEntities(m, s[..|s| - 1]))
  }

  function Ordered(m: Manifest): seq<Entity> { SortEntities(m, m) }

  ghost predicate Sorted(m: Manifest, s: seq<Entity>)
  {
    forall i, j :: 0 <= i < j < |s| ==> Less(m, s[i], s[j])
  }

  lemma {:induction false} InsertPermutes(m: Manifest, e: Entity, s: seq<Entity>)
    ensures multiset(InsertEntity(m, e, s)) == multiset(s) + multiset{e}
  {
    if !(s == [] || Less(m, e, s[0])) {
      InsertPermutes(m, e, s[1..]);
      assert s == [s[0]] + s[1..];
    }
  }

  lemma {:induction false} SortPermutes(m: Manifest, s: seq<Entity>)
    ensures multiset(SortEntities(m, s)) == multiset(s)
  {
    if s != [] {
      SortPermutes(m, s[..|s| - 1]);
      InsertPermutes(m, s[|s| - 1], SortEntities(m, s[..|s| - 1]));
      assert s == s[..|s| - 1] + [s[|s| - 1]];
    }
  }

  lemma SameElements(s: seq<Entity>, t: seq<Entity>)
    requires multiset(s) == multiset(t)
    ensures forall x :: x in s <==> x in t
  {
    forall x ensures x in s <==> x in t {
      assert x in s <==> x in multiset(s);
      assert x in t <==> x in multiset(t);
    }
  }

  lemma {:induction false} InsertSorts(m: Manifest, e: Entity, s: seq<Entity>)
    requires Sorted(m, s) && Comparable(e)
    requires forall x :: x in s ==> Comparable(x) && (Less(m, e, x) || Less(m, x, e))
    ensures Sorted(m, InsertEntity(m, e, s))
  {
    var r := InsertEntity(m, e, s);
    if s == [] {
    } else if Less(m, e, s[0]) {
      forall j | 0 <= j < |s| ensures Less(m, e, s[j]) {
        if j > 0 { LessTransitive(m, e, s[0], s[j]); }
      }
    } else {
      assert Less(m, s[0], e);
      InsertSorts(m, e, s[1..]);
      InsertPermutes(m, e, s[1..]);
      SameElements(InsertEntity(m, e, s[1..]), s[1..] + [e]);
      forall j | 0 < j < |r| ensures Less(m, s[0], r[j]) {
        assert r[j] in InsertEntity(m, e, s[1..]);
        assert r[j] in s[1..] + [e];
      }
    }
  }

  ghost predicate Sortable(s: seq<Entity>)
  {
    && (forall x :: x in s ==> Comparable(x))
    && (forall i, j :: 0 <= i < j < |s| ==> Compatible(s[i], s[j]))
  }

  lemma {:induction false} SortSorts(m: Manifest, s: seq<Entity>)
    requires Sortable(s)
    ensures Sorted(m, SortEntities(m, s))
  {
    if s != [] {
      var rest, e := s[..|s| - 1], s[|s| - 1];
      SortSorts(m, rest);
      SortPermutes(m, rest);
      SameElements(SortEntities(m, rest), rest);
      forall x | x in SortEntities(m, rest) ensures Comparable(x) && (Less(m, e, x) || Less(m, x, e)) {
        var i :| 0 <= i < |rest| && rest[i] == x;
        assert Compatible(s[i], s[|s| - 1]);
        LessTotal(m, x, e);
      }
      InsertSorts(m, e, SortEntities(m, rest));
    }
  }

  lemma TailElements(s: seq<Entity>)
    requires s != []
    ensures multiset(s[1..]) == multiset(s) - multiset{s[0]}
  {
    assert s == [s[0]] + s[1..];
  }

  // A strictly sorted arrangement of given elements is unique.
  lemma {:induction false} SortedUnique(m: Manifest, s: seq<Entity>, t: seq<Entity>)
    requires Sorted(m, s) && Sorted(m, t) && multiset(s) == multiset(t)
    ensures s == t
  {
    assert |multiset(s)| == |s| && |multiset(t)| == |t|;
    if s != [] {
      SameElements(s, t);
      assert s[0] in t && t[0] in s;
      if s[0] != t[0] {
        var i :| 0 <= i < |s| && s[i] == t[0];
        var j :| 0 <= j < |t| && t[j] == s[0];
        assert Less(m, s[0], t[0]) && Less(m, t[0], s[0]);
        LessAsymmetric(m, s[0], t[0]);
      }
      TailElements(s);
      TailElements(t);
      SortedUnique(m, s[1..], t[1..]);
    }
  }

  lemma CoherentSortable(m: Manifest)
    requires Coherent(m)
    ensures Sortable(m)
  {
    forall x | x in m ensures Comparable(x) {
      assert EntityOk(m, x);
    }
  }

  // The apply order of a coherent manifest: its entities, each once, strictly increasing.
  lemma OrderedSpec(m: Manifest)
    requires Coherent(m)
    ensures multiset(Ordered(m)) == multiset(m) && Sorted(m, Ordered(m)) && NoDuplicates(Ordered(m))
    ensures |Ordered(m)| == |m|
    ensures forall e :: e in Ordered(m) <==> e in m
  {
    CoherentSortable(m);
    SortSorts(m, m);
    SortPermutes(m, m);
    CoherentNoDuplicates(m);
    PermutationNoDuplicates(m, Ordered(m));
  }

  // Keys that name one entity across all kinds.
  ghost predicate DistinctKeys(m: Manifest)
  {
    forall a, b :: a in m && b in m && a.key == b.key ==> a == b
  }

  lemma FindKeyPermuted(m: Manifest, n: Manifest, key: string)
    requires DistinctKeys(m) && multiset(m) == multiset(n)
    ensures FindKey(m, key) == FindKey(n, key)
  {
    SameElements(m, n);
  }

  lemma {:induction false} WalkPermuted(m: Manifest, n: Manifest, e: Entity, k: nat)
    requires DistinctKeys(m) && multiset(m) == multiset(n)
    ensures Walk(m, e, k) == Walk(n, e, k)
    decreases k
  {
    if k > 0 {
      WalkPermuted(m, n, e, k - 1);
      var at := Walk(m, e, k - 1);
      if at.Some? && at.value.dependsOn.Some? {
        FindKeyPermuted(m, n, at.value.dependsOn.value);
      }
    }
  }

  lemma {:induction false} ChainPermuted(m: Manifest, n: Manifest, e: Entity, guard: nat)
    requires DistinctKeys(m) && multiset(m) == multiset(n)
    ensures Chain(m, e, guard) == Chain(n, e, guard)
    decreases guard
  {
    if e.dependsOn.Some? {
      FindKeyPermuted(m, n, e.dependsOn.value);
    }
    if guard > 0 && Parent(m, e).Some? {
      ChainPermuted(m, n, Parent(m, e).value, guard - 1);
    }
  }

  lemma LessPermuted(m: Manifest, n: Manifest, a: Entity, b: Entity)
    requires DistinctKeys(m) && multiset(m) == multiset(n)
    ensures Less(m, a, b) == Less(n, a, b)
  {
    assert |multiset(m)| == |m| && |multiset(n)| == |n|;
    ChainPermuted(m, n, a, |m| + 1);
    ChainPermuted(m, n, b, |m| + 1);
  }

  lemma SortablePermuted(m: Manifest, n: Manifest)
    requires Coherent(m) && multiset(m) == multiset(n)
    ensures Sortable(n)
  {
    CoherentSortable(m);
    CoherentNoDuplicates(m);
    PermutationNoDuplicates(m, n);
    forall i, j | 0 <= i < j < |n| ensures Compatible(n[i], n[j]) {
      CoherentPair(m, n[i], n[j]);
    }
  }

  // The order declarations are written in carries no meaning.
  lemma OrderedPermutationInvariant(m: Manifest, n: Manifest)
    requires Coherent(m) && DistinctKeys(m) && multiset(m) == multiset(n)
    ensures Ordered(n) == Ordered(m)
  {
    OrderedSpec(m);
    SortablePermuted(m, n);
    SortSorts(n, n);
    SortPermutes(n, n);
    var s := Ordered(n);
    forall i, j | 0 <= i < j < |s| ensures Less(m, s[i], s[j]) {
      LessPermuted(m, n, s[i], s[j]);
    }
    SortedUnique(m, Ordered(m), Ordered(n));
  }

  // validate accepts a permutation too, so ordered() really returns for it.
  lemma CoherentPermuted(m: Manifest, n: Manifest)
    requires Coherent(m) && DistinctKeys(m) && multiset(m) == multiset(n)
    ensures Coherent(n)
  {
    SameElements(m, n);
    SortablePermuted(m, n);
    forall e | e in n ensures EntityOk(n, e) {
      EntityOkPermuted(m, n, e);
    }
    if HasCycle(n) {
      var e, k :| e in n && 0 < k && Walk(n, e, k) == Some(e);
      WalkPermuted(m, n, e, k);
    }
  }

  lemma FindKeyOfKindPermuted(m: Manifest, n: Manifest, key: string, kind: Kind)
    requires DistinctKeys(m) && multiset(m) == multiset(n)
    ensures FindKeyOfKind(m, key, kind) == FindKeyOfKind(n, key, kind)
  {
    SameElements(m, n);
  }

  lemma EntityOkPermuted(m: Manifest, n: Manifest, e: Entity)
    requires DistinctKeys(m) && multiset(m) == multiset(n) && EntityOk(m, e)
    ensures EntityOk(n, e)
  {
    if e.dependsOn.Some? { FindKeyPermuted(m, n, e.dependsOn.value); }
    if e.kind.NetworkProfile? { FindKeyOfKindPermuted(m, n, e.profile.value.segment, NetworkSegment); }
    if IsSubject(e.kind) {
      forall i | 0 <= i < |e.roles| ensures BindingOk(n, e.roles[i]) {
        var b := e.roles[i];
        assert BindingOk(m, b);
        FindKeyOfKindPermuted(m, n, b.role, Role);
        if b.resource.Some? { FindKeyOfKindPermuted(m, n, b.resource.value, Resource); }
      }
    }
  }

  // ---- what precedes what ----

  lemma Precedes(m: Manifest, a: Entity, b: Entity) returns (i: nat, j: nat)
    requires Coherent(m) && a in m && b in m && Less(m, a, b)
    ensures i < j < |Ordered(m)| && Ordered(m)[i] == a && Ordered(m)[j] == b
  {
    OrderedSpec(m);
    var s := Ordered(m);
    i :| 0 <= i < |s| && s[i] == a;
    j :| 0 <= j < |s| && s[j] == b;
    LessAsymmetric(m, a, b);
  }

  // A resource comes after the resource it depends on, when the two lookups agree on it.
  lemma ParentPrecedes(m: Manifest, e: Entity)
    requires Coherent(m) && DistinctKeys(m) && e in m && e.dependsOn.Some?
    requires FindKeyOfKind(m, e.dependsOn.value, e.kind).Some?
    ensures Less(m, FindKeyOfKind(m, e.dependsOn.value, e.kind).value, e)
  {
    var p := FindKeyOfKind(m, e.dependsOn.value, e.kind).value;
    assert FindKey(m, e.dependsOn.value) == Some(p);
    ParentDepth(m, e);
  }
}
