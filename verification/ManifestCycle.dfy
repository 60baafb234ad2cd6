// The dependency graph of a manifest: every entity has at most one parent, so a walk longer
// than the manifest must repeat an entity, and a repeated entity is a cycle.
module ManifestCycle {
  import opened Prelude
  import opened ManifestTypes

  lemma {:induction false} WalkAdd(m: Manifest, e: Entity, a: nat, b: nat)
    requires Walk(m, e, a).Some?
    ensures Walk(m, e, a + b) == Walk(m, Walk(m, e, a).value, b)
  {
    if b > 0 {
      WalkAdd(m, e, a, b - 1);
      assert a + b - 1 == a + (b - 1);
    }
  }

  // A walk that gets to step k passed through every earlier step.
  lemma {:induction false} WalkDefined(m: Manifest, e: Entity, j: nat, k: nat)
    requires j <= k && Walk(m, e, k).Some?
    ensures Walk(m, e, j).Some?
  {
    if j < k {
      WalkDefined(m, e, j, k - 1);
    }
  }

  // Going round a cycle any number of times never leaves it.
  lemma {:induction false} CycleForever(m: Manifest, e: Entity, k: nat, n: nat)
    requires 0 < k && Walk(m, e, k) == Some(e)
    ensures Walk(m, e, n).Some?
  {
    if n <= k {
      WalkDefined(m, e, n, k);
    } else {
      CycleForever(m, e, k, n - k);
      WalkAdd(m, e, k, n - k);
    }
  }

  // The entities a walk of k steps passes through.
  ghost function Trail(m: Manifest, e: Entity, k: nat): (s: seq<Entity>)
    requires Walk(m, e, k).Some?
    ensures |s| == k + 1
    ensures forall i :: 0 <= i <= k ==> Walk(m, e, i) == Some(s[i])
    decreases k
  {
    if k == 0 then [e] else Trail(m, e, k - 1) + [Walk(m, e, k).value]
  }

  // Pigeonhole: |m| dependency steps that all lead somewhere close a cycle.
  lemma TrailInside(m: Manifest, e: Entity, k: nat)
    requires e in m && Walk(m, e, k).Some?
    ensures forall x :: x in Trail(m, e, k) ==> x in Elements(m)
  {
    var trail := Trail(m, e, k);
    forall x | x in trail ensures x in Elements(m) {
      var i :| 0 <= i <= k && trail[i] == x;
      assert Walk(m, e, i) == Some(x);
    }
  }

  // A walk longer than the manifest visits some entity twice.
  lemma TrailRepeats(m: Manifest, e: Entity, k: nat) returns (i: nat, j: nat, x: Entity)
    requires e in m && |m| <= k && Walk(m, e, k).Some?
    ensures i < j && x in m && Walk(m, e, i) == Walk(m, e, j) == Some(x)
  {
    var trail := Trail(m, e, k);
    TrailInside(m, e, k);
    ElementsBound(m);
    i, j := Repeat(trail, Elements(m));
    x := trail[i];
  }

  lemma LongWalkIsCycle(m: Manifest, e: Entity)
    requires e in m && Walk(m, e, |m|).Some?
    ensures HasCycle(m)
  {
    var i, j, x := TrailRepeats(m, e, |m|);
    WalkAdd(m, e, i, j - i);
    assert Walk(m, x, j - i) == Some(x);
  }

  lemma Repeat(s: seq<Entity>, pool: set<Entity>) returns (i: nat, j: nat)
    requires (forall x :: x in s ==> x in pool) && |s| > |pool|
    ensures i < j < |s| && s[i] == s[j] && s[i] in pool
  {
    if NoDuplicates(s) {
      Pigeonhole(s, pool);
      assert false;
    }
    i, j :| 0 <= i < j < |s| && s[i] == s[j];
    assert s[i] in s;
  }

  // The counting check is exact: some start can take |m| steps iff the manifest has a cycle.
  lemma CountingCheckExact(m: Manifest)
    ensures (exists e :: e in m && Walk(m, e, |m|).Some?) <==> HasCycle(m)
  {
    if e :| e in m && Walk(m, e, |m|).Some? {
      LongWalkIsCycle(m, e);
    }
    if HasCycle(m) {
      var e, k :| e in m && 0 < k && Walk(m, e, k) == Some(e);
      CycleForever(m, e, k, |m|);
      assert e in m && Walk(m, e, |m|).Some?;
    }
  }
}
