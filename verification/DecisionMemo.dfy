// The client-side decision memo: a map of entries and a queue of keys, against the history of
// what was put and cleared.
module DecisionMemo {
  import opened Prelude

  const MAX_TTL := 5000
  const MAX_ENTRIES := 1024

  datatype Decision = Decision(allowed: bool, reason: Option<string>, reasonCode: Option<string>)

  datatype Entry = Entry(decision: Decision, storedAt: int)

  datatype Memo = Memo(entries: map<string, Entry>, order: seq<string>)

  const EMPTY_MEMO := Memo(map[], [])

  // A requested TTL above the ceiling is lowered to it; zero or less is "off".
  function ClampTtl(requested: int): (ttl: int)
    ensures 0 <= ttl <= MAX_TTL && (ttl == 0 <==> requested <= 0)
    ensures 0 < requested <= MAX_TTL ==> ttl == requested
    ensures requested > MAX_TTL ==> ttl == MAX_TTL
  {
    if requested <= 0 then 0 else if requested < MAX_TTL then requested else MAX_TTL
  }

  // ---- the operations on values ----

  // The queue without the first occurrence of a key.
  function Without(order: seq<string>, k: string): seq<string>
  {
    if order == [] then []
    else if order[0] == k then order[1..]
    else [order[0]] + Without(order[1..], k)
  }

  function Erase(m: Memo, k: string): Memo
  {
    if k in m.entries then Memo(m.entries - {k}, Without(m.order, k)) else m
  }

  // The oldest entries go until the cap is met.
  function Evict(m: Memo): Memo
    decreases |m.order|
  {
    if |m.order| <= MAX_ENTRIES then m
    else Evict(Memo(m.entries - {m.order[0]}, m.order[1..]))
  }

  function Put(m: Memo, ttl: int, k: string, d: Decision, now: int): Memo
  {
    if ttl <= 0 then m
    else
      var kept := Erase(m, k);
      Evict(Memo(kept.entries[k := Entry(d, now)], kept.order + [k]))
  }

  function Get(m: Memo, ttl: int, k: string, now: int): (Memo, Option<Decision>)
  {
    if ttl <= 0 || k !in m.entries then (m, None)
    else if now - m.entries[k].storedAt >= ttl then (Erase(m, k), None)
    else (m, Some(m.entries[k].decision))
  }

  // ---- the class ----

  class DecisionMemo {
    const ttl: int
    var entries: map<string, Entry>
    var order: seq<string>

    ghost function Contents(): Memo
      reads this
    {
      Memo(entries, order)
    }

    constructor (requestedTtl: int)
      ensures ttl == ClampTtl(requestedTtl) && Contents() == EMPTY_MEMO
    {
      ttl := if requestedTtl <= 0 then 0 else if requestedTtl < MAX_TTL then requestedTtl else MAX_TTL;
      entries, order := map[], [];
    }

    method EraseLocked(k: string)
      modifies this
      ensures Contents() == Erase(old(Contents()), k)
    {
      if k !in entries { return; }
      entries := entries - {k};
      var i := 0;
      while i < |order|
        invariant i <= |order|
        invariant order == old(order)
        invariant Without(order, k) == order[..i] + Without(order[i..], k)
      {
        if order[i] == k {
          assert order[i..][0] == k && order[i..][1..] == order[i + 1..];
          order := order[..i] + order[i + 1..];
          return;
        }
        assert order[i..][0] == order[i] && order[i..][1..] == order[i + 1..];
        assert order[..i] + ([order[i]] + Without(order[i + 1..], k)) == order[..i + 1] + Without(order[i + 1..], k);
        i := i + 1;
      }
      assert order[..i] + [] == order;
    }

    method GetDecision(k: string, now: int) returns (r: Option<Decision>)
      modifies this
      ensures (Contents(), r) == Get(old(Contents()), ttl, k, now)
    {
      if ttl <= 0 || k !in entries { return None; }
      if now - entries[k].storedAt >= ttl {
        EraseLocked(k);
        return None;
      }
      r := Some(entries[k].decision);
    }

    method PutDecision(k: string, d: Decision, now: int)
      modifies this
      ensures Contents() == Put(old(Contents()), ttl, k, d, now)
    {
      if ttl <= 0 { return; }
      EraseLocked(k);
      entries := entries[k := Entry(d, now)];
      order := order + [k];
      while |order| > MAX_ENTRIES
        invariant Evict(Contents()) == Put(old(Contents()), ttl, k, d, now)
        decreases |order|
      {
        var oldest := order[0];
        order := order[1..];
        entries := entries - {oldest};
      }
    }

    method Clear()
      modifies this
      ensures Contents() == EMPTY_MEMO
    {
      entries, order := map[], [];
    }
  }

  // ---- the history ----

  datatype Event =
    | EvGet(key: string, at: int)
    | EvPut(key: string, decision: Decision, at: int)
    | EvClear(at: int)

  function Step(m: Memo, ttl: int, e: Event): Memo
  {
    match e
    case EvGet(k, now) => Get(m, ttl, k, now).0
    case EvPut(k, d, now) => Put(m, ttl, k, d, now)
    case EvClear(_) => EMPTY_MEMO
  }

  // The memo after a history.
  function Replay(h: seq<Event>, ttl: int): Memo
  {
    if h == [] then EMPTY_MEMO else Step(Replay(h[..|h| - 1], ttl), ttl, h[|h| - 1])
  }

  // The clock never runs backwards.
  ghost predicate Monotone(h: seq<Event>, now: int)
  {
    && (forall i, j :: 0 <= i < j < |h| ==> h[i].at <= h[j].at)
    && (forall i :: 0 <= i < |h| ==> h[i].at <= now)
  }

  // The last put of a key since the last clear.
  function LastPut(h: seq<Event>, k: string): (r: Option<nat>)
    ensures r.Some? ==> r.value < |h| && h[r.value].EvPut? && h[r.value].key == k
  {
    if h == [] then None
    else
      var e := h[|h| - 1];
      if e.EvClear? then None
      else if e.EvPut? && e.key == k then Some(|h| - 1)
      else LastPut(h[..|h| - 1], k)
  }

  function KeysAfter(h: seq<Event>, i: nat): set<string>
  {
    set j | i < j < |h| && h[j].EvPut? :: h[j].key
  }

  // What a lookup promises, from the history alone: the last put since the last clear, if it is
  // young and fewer than the cap of other keys were put after it.
  function Remembered(h: seq<Event>, ttl: int, k: string, now: int): Option<Decision>
  {
    var i := LastPut(h, k);
    if i.Some? && now - h[i.value].at < ttl && |KeysAfter(h, i.value)| < MAX_ENTRIES
    then Some(h[i.value].decision) else None
  }

  // ---- how the history grows ----

  lemma {:induction false} NothingAfterLastPut(h: seq<Event>, k: string)
    requires LastPut(h, k).Some?
    ensures forall j :: LastPut(h, k).value < j < |h| ==> !h[j].EvClear? && !(h[j].EvPut? && h[j].key == k)
  {
    var e := h[|h| - 1];
    if !(e.EvPut? && e.key == k) {
      NothingAfterLastPut(h[..|h| - 1], k);
    }
  }

  // A key put after another key's last put has a later last put itself.
  lemma {:induction false} LaterPut(h: seq<Event>, i: nat, k: string)
    requires forall j :: i < j < |h| ==> !h[j].EvClear?
    requires k in KeysAfter(h, i)
    ensures LastPut(h, k).Some? && LastPut(h, k).value > i
  {
    var j :| i < j < |h| && h[j].EvPut? && h[j].key == k;
    var e := h[|h| - 1];
    if !(e.EvPut? && e.key == k) {
      assert j < |h| - 1;
      assert h[..|h| - 1][j] == h[j];
      LaterPut(h[..|h| - 1], i, k);
    }
  }

  lemma KeysAfterStep(h: seq<Event>, e: Event, i: nat)
    requires i < |h|
    ensures KeysAfter(h + [e], i) == KeysAfter(h, i) + if e.EvPut? then {e.key} else {}
  {
    var h' := h + [e];
    forall k | k in KeysAfter(h, i) ensures k in KeysAfter(h', i) {
      var j :| i < j < |h| && h[j].EvPut? && h[j].key == k;
      assert h'[j].EvPut? && h'[j].key == k;
    }
    if e.EvPut? {
      assert h'[|h|].EvPut? && h'[|h|].key == e.key;
    }
  }

  lemma LastPutStep(h: seq<Event>, e: Event, k: string)
    ensures LastPut(h + [e], k) ==
            if e.EvClear? then None else if e.EvPut? && e.key == k then Some(|h|) else LastPut(h, k)
  {
    assert (h + [e])[..|h|] == h;
  }

  // ---- what the memo knows of its history ----

  ghost predicate Wf(m: Memo)
  {
    && NoDuplicates(m.order) && |m.order| <= MAX_ENTRIES
    && (forall k :: k in m.order <==> k in m.entries)
  }

  ghost predicate Faithful(h: seq<Event>, m: Memo)
  {
    forall k :: k in m.entries ==>
      && LastPut(h, k).Some?
      && m.entries[k] == Entry(h[LastPut(h, k).value].decision, h[LastPut(h, k).value].at)
  }

  // The queue is in the order of the puts.
  ghost predicate OldestFirst(h: seq<Event>, order: seq<string>)
  {
    forall p, q :: 0 <= p < q < |order| ==> PutBefore(h, order[p], order[q])
  }

  predicate PutBefore(h: seq<Event>, k: string, x: string)
  {
    LastPut(h, k).GetOr(0) < LastPut(h, x).GetOr(0)
  }

  predicate Young(h: seq<Event>, ttl: int, k: string, now: int)
  {
    LastPut(h, k).Some? && now - h[LastPut(h, k).value].at < ttl
  }

  ghost predicate Kept(h: seq<Event>, ttl: int, m: Memo, now: int)
  {
    forall k :: Young(h, ttl, k, now) && |KeysAfter(h, LastPut(h, k).value)| < MAX_ENTRIES ==> k in m.entries
  }

  ghost predicate KeptBehind(h: seq<Event>, ttl: int, m: Memo, now: int)
  {
    forall k, x :: k in m.entries && Young(h, ttl, k, now) && x in KeysAfter(h, LastPut(h, k).value) ==> x in m.entries
  }

  ghost predicate Tracks(h: seq<Event>, ttl: int, m: Memo, now: int)
  {
    && Wf(m) && Faithful(h, m) && OldestFirst(h, m.order)
    && Kept(h, ttl, m, now) && KeptBehind(h, ttl, m, now)
  }

  // ---- erasing and evicting ----

  lemma {:induction false} WithoutAt(order: seq<string>, k: string, i: nat)
    requires i < |order| && order[i] == k && k !in order[..i]
    ensures Without(order, k) == order[..i] + order[i + 1..]
  {
    if i > 0 {
      assert order[0] == order[..i][0] && order[1..][..i - 1] == order[..i][1..];
      WithoutAt(order[1..], k, i - 1);
      assert [order[0]] + (order[1..][..i - 1] + order[1..][i..]) == order[..i] + order[i + 1..];
    }
  }

  lemma EraseWf(m: Memo, k: string) returns (i: nat)
    requires Wf(m) && k in m.entries
    ensures i < |m.order| && Erase(m, k).order == m.order[..i] + m.order[i + 1..]
    ensures Wf(Erase(m, k)) && k !in Erase(m, k).order && |Erase(m, k).order| < |m.order|
  {
    i :| 0 <= i < |m.order| && m.order[i] == k;
    WithoutAt(m.order, k, i);
    RemovedAt(m.order, i);
  }

  lemma EraseSpec(h: seq<Event>, m: Memo, k: string)
    requires Wf(m) && OldestFirst(h, m.order)
    ensures var m' := Erase(m, k);
            && Wf(m') && OldestFirst(h, m'.order)
            && m'.entries == m.entries - {k} && k !in m'.order
  {
    if k !in m.entries {
      assert m.entries - {k} == m.entries;
      return;
    }
    var i := EraseWf(m, k);
    RemovalKeepsOrder(h, m.order, i);
  }

  lemma RemovalKeepsOrder(h: seq<Event>, order: seq<string>, i: nat)
    requires OldestFirst(h, order) && i < |order|
    ensures OldestFirst(h, order[..i] + order[i + 1..])
  {
    var rest := order[..i] + order[i + 1..];
    assert forall p :: 0 <= p < |rest| ==> rest[p] == order[if p < i then p else p + 1];
  }

  lemma RemovedAt(order: seq<string>, i: nat)
    requires NoDuplicates(order) && i < |order|
    ensures var rest := order[..i] + order[i + 1..];
            NoDuplicates(rest) && forall x :: x in rest <==> x in order && x != order[i]
  {
    var rest := order[..i] + order[i + 1..];
    assert forall p :: 0 <= p < |rest| ==> rest[p] == order[if p < i then p else p + 1];
    forall x | x in order && x != order[i] ensures x in rest {
      var j: nat :| j < |order| && order[j] == x;
      assert rest[if j < i then j else j - 1] == x;
    }
  }

  // ---- one event ----

  // An event that neither puts nor clears changes nothing about the history.
  lemma QuietTracks(h: seq<Event>, ttl: int, m: Memo, e: Event, now: int)
    requires e.EvGet? && Tracks(h, ttl, m, now)
    ensures Tracks(h + [e], ttl, m, now)
  {
    forall k ensures LastPut(h + [e], k) == LastPut(h, k) {
      LastPutStep(h, e, k);
    }
    forall k | LastPut(h, k).Some? ensures KeysAfter(h + [e], LastPut(h, k).value) == KeysAfter(h, LastPut(h, k).value) {
      KeysAfterStep(h, e, LastPut(h, k).value);
    }
  }

  // A key put after a young one is young too.
  lemma BehindIsYoung(h: seq<Event>, ttl: int, k: string, x: string, now: int)
    requires Monotone(h, now) && Young(h, ttl, k, now) && x in KeysAfter(h, LastPut(h, k).value)
    ensures Young(h, ttl, x, now)
  {
    NothingAfterLastPut(h, k);
    LaterPut(h, LastPut(h, k).value, x);
  }

  lemma ExpiredTracks(h: seq<Event>, ttl: int, m: Memo, k: string, now: int)
    requires Monotone(h, now) && Tracks(h, ttl, m, now) && !Young(h, ttl, k, now)
    ensures Tracks(h, ttl, Erase(m, k), now)
  {
    EraseSpec(h, m, k);
    forall y, x | y in Erase(m, k).entries && Young(h, ttl, y, now) && x in KeysAfter(h, LastPut(h, y).value)
      ensures x in Erase(m, k).entries
    {
      BehindIsYoung(h, ttl, y, x, now);
    }
  }

  lemma GetTracks(h: seq<Event>, ttl: int, m: Memo, e: Event)
    requires ttl > 0 && e.EvGet? && Monotone(h, e.at) && Tracks(h, ttl, m, e.at)
    ensures Tracks(h + [e], ttl, Step(m, ttl, e), e.at)
  {
    if Step(m, ttl, e) != m {
      ExpiredTracks(h, ttl, m, e.key, e.at);
    }
    QuietTracks(h, ttl, Step(m, ttl, e), e, e.at);
  }

  lemma ClearTracks(h: seq<Event>, ttl: int, e: Event)
    requires e.EvClear?
    ensures Tracks(h + [e], ttl, EMPTY_MEMO, e.at)
  {
    forall k ensures LastPut(h + [e], k).None? {
      LastPutStep(h, e, k);
    }
  }

  // The new entry goes in at the back of what is left once an old one of that key is out.
  function Appended(m: Memo, k: string, d: Decision, now: int): Memo
  {
    Memo(m.entries[k := Entry(d, now)], m.order + [k])
  }

  ghost predicate WfOver(m: Memo)
  {
    NoDuplicates(m.order) && (forall k :: k in m.order <==> k in m.entries)
  }

  ghost predicate TracksOver(h: seq<Event>, ttl: int, m: Memo, now: int)
  {
    && WfOver(m) && Faithful(h, m) && OldestFirst(h, m.order)
    && Kept(h, ttl, m, now) && KeptBehind(h, ttl, m, now)
  }

  lemma AppendedOrder(h: seq<Event>, m: Memo, e: Event)
    requires e.EvPut? && Wf(m) && e.key !in m.order && OldestFirst(h, m.order) && Faithful(h, m)
    ensures OldestFirst(h + [e], m.order + [e.key])
  {
    var order := m.order + [e.key];
    LastPutStep(h, e, e.key);
    forall p, q | 0 <= p < q < |order| ensures PutBefore(h + [e], order[p], order[q]) {
      assert order[p] in m.order && order[p] in m.entries;
      LastPutStep(h, e, order[p]);
      LastPutStep(h, e, order[q]);
      if q < |m.order| { assert PutBefore(h, m.order[p], m.order[q]); }
    }
  }

  // The set of keys after a put only grows, so its size does.
  lemma SubsetSize<T>(a: set<T>, b: set<T>)
    requires a <= b
    ensures |a| <= |b|
  {
    assert b == a + (b - a);
  }

  lemma AppendedKept(h: seq<Event>, ttl: int, m: Memo, m1: Memo, e: Event)
    requires e.EvPut? && Tracks(h, ttl, m, e.at) && m1.entries == m.entries - {e.key}
    ensures Kept(h + [e], ttl, Appended(m1, e.key, e.decision, e.at), e.at)
    ensures KeptBehind(h + [e], ttl, Appended(m1, e.key, e.decision, e.at), e.at)
  {
    var h', m2 := h + [e], Appended(m1, e.key, e.decision, e.at);
    LastPutStep(h, e, e.key);
    forall k | k != e.key && Young(h', ttl, k, e.at)
      ensures Young(h, ttl, k, e.at) && LastPut(h', k) == LastPut(h, k)
      ensures KeysAfter(h', LastPut(h, k).value) == KeysAfter(h, LastPut(h, k).value) + {e.key}
      ensures |KeysAfter(h, LastPut(h, k).value)| <= |KeysAfter(h', LastPut(h, k).value)|
    {
      LastPutStep(h, e, k);
      KeysAfterStep(h, e, LastPut(h, k).value);
      SubsetSize(KeysAfter(h, LastPut(h, k).value), KeysAfter(h', LastPut(h, k).value));
    }
  }

  lemma AppendedTracks(h: seq<Event>, ttl: int, m: Memo, e: Event)
    requires e.EvPut? && Tracks(h, ttl, m, e.at)
    ensures var m2 := Appended(Erase(m, e.key), e.key, e.decision, e.at);
            TracksOver(h + [e], ttl, m2, e.at) && |m2.order| <= MAX_ENTRIES + 1
  {
    EraseSpec(h, m, e.key);
    var m1 := Erase(m, e.key);
    AppendedKept(h, ttl, m, m1, e);
    AppendedOrder(h, m1, e);
    LastPutStep(h, e, e.key);
    forall k | k in m1.entries ensures LastPut(h + [e], k) == LastPut(h, k) {
      LastPutStep(h, e, k);
    }
  }

  lemma EvictKept(h: seq<Event>, ttl: int, m: Memo, now: int)
    requires WfOver(m) && Faithful(h, m) && OldestFirst(h, m.order) && Kept(h, ttl, m, now)
    requires |m.order| == MAX_ENTRIES + 1
    ensures Kept(h, ttl, Memo(m.entries - {m.order[0]}, m.order[1..]), now)
  {
    OthersAfterHead(h, m);
  }

  lemma EvictBehind(h: seq<Event>, ttl: int, m: Memo, now: int)
    requires WfOver(m) && OldestFirst(h, m.order) && KeptBehind(h, ttl, m, now) && m.order != []
    ensures KeptBehind(h, ttl, Memo(m.entries - {m.order[0]}, m.order[1..]), now)
  {
    var head := m.order[0];
    var m' := Memo(m.entries - {head}, m.order[1..]);
    forall k, x | k in m'.entries && Young(h, ttl, k, now) && x in KeysAfter(h, LastPut(h, k).value)
      ensures x in m'.entries
    {
      NothingAfterLastPut(h, k);
      LaterPut(h, LastPut(h, k).value, x);
      assert k in m.order;
      var q :| 0 <= q < |m.order| && m.order[q] == k;
      assert PutBefore(h, m.order[0], m.order[q]);
    }
  }

  lemma EvictWf(m: Memo)
    requires WfOver(m) && |m.order| == MAX_ENTRIES + 1
    ensures Wf(Memo(m.entries - {m.order[0]}, m.order[1..]))
  {
    assert m.order[..0] + m.order[0 + 1..] == m.order[1..];
    RemovedAt(m.order, 0);
  }

  lemma TailOldest(h: seq<Event>, order: seq<string>)
    requires OldestFirst(h, order) && order != []
    ensures OldestFirst(h, order[1..])
  {
  }

  lemma FaithfulSubset(h: seq<Event>, m: Memo, m': Memo)
    requires Faithful(h, m) && forall k :: k in m'.entries ==> k in m.entries && m'.entries[k] == m.entries[k]
    ensures Faithful(h, m')
  {
  }

  lemma EvictTracks(h: seq<Event>, ttl: int, m: Memo, now: int)
    requires TracksOver(h, ttl, m, now) && |m.order| == MAX_ENTRIES + 1
    ensures Tracks(h, ttl, Memo(m.entries - {m.order[0]}, m.order[1..]), now)
  {
    EvictWf(m);
    TailOldest(h, m.order);
    FaithfulSubset(h, m, Memo(m.entries - {m.order[0]}, m.order[1..]));
    EvictKept(h, ttl, m, now);
    EvictBehind(h, ttl, m, now);
  }

  // The keys behind the head of the queue were all put after it.
  lemma OthersAfterHead(h: seq<Event>, m: Memo)
    requires WfOver(m) && Faithful(h, m) && OldestFirst(h, m.order) && m.order != []
    ensures LastPut(h, m.order[0]).Some?
    ensures |m.order| - 1 <= |KeysAfter(h, LastPut(h, m.order[0]).value)|
  {
    assert m.order[0] in m.order;
    var rest := m.order[1..];
    var after := KeysAfter(h, LastPut(h, m.order[0]).value);
    forall x | x in rest ensures x in after {
      var q :| 0 <= q < |rest| && rest[q] == x;
      assert m.order[q + 1] in m.order && PutBefore(h, m.order[0], m.order[q + 1]);
      assert h[LastPut(h, x).value].key == x;
    }
    Pigeonhole(rest, after);
  }

  lemma PutTracks(h: seq<Event>, ttl: int, m: Memo, e: Event)
    requires ttl > 0 && e.EvPut? && Monotone(h, e.at) && Tracks(h, ttl, m, e.at)
    ensures Tracks(h + [e], ttl, Step(m, ttl, e), e.at)
  {
    AppendedTracks(h, ttl, m, e);
    var m2 := Appended(Erase(m, e.key), e.key, e.decision, e.at);
    if |m2.order| > MAX_ENTRIES {
      EvictTracks(h + [e], ttl, m2, e.at);
      assert Evict(Memo(m2.entries - {m2.order[0]}, m2.order[1..])) == Memo(m2.entries - {m2.order[0]}, m2.order[1..]);
    }
  }

  // ---- the whole history ----

  lemma TracksLater(h: seq<Event>, ttl: int, m: Memo, now: int, later: int)
    requires Tracks(h, ttl, m, now) && now <= later
    ensures Tracks(h, ttl, m, later)
  {
    forall k | Young(h, ttl, k, later) ensures Young(h, ttl, k, now) {}
  }

  lemma {:induction false} ReplayTracks(h: seq<Event>, ttl: int, now: int)
    requires ttl > 0 && Monotone(h, now)
    ensures Tracks(h, ttl, Replay(h, ttl), now)
  {
    if h != [] {
      var front, e := h[..|h| - 1], h[|h| - 1];
      assert front + [e] == h;
      ReplayTracks(front, ttl, e.at);
      match e {
        case EvGet(_, _) => GetTracks(front, ttl, Replay(front, ttl), e);
        case EvPut(_, _, _) => PutTracks(front, ttl, Replay(front, ttl), e);
        case EvClear(_) => ClearTracks(front, ttl, e);
      }
      TracksLater(h, ttl, Replay(h, ttl), e.at, now);
    }
  }

  lemma {:induction false} DisabledStaysEmpty(h: seq<Event>, ttl: int)
    requires ttl <= 0
    ensures Replay(h, ttl) == EMPTY_MEMO
  {
    if h != [] {
      DisabledStaysEmpty(h[..|h| - 1], ttl);
    }
  }

  // The queue and the map hold the same keys, each once, at most the cap, oldest first.
  lemma MemoBounded(h: seq<Event>, ttl: int, now: int)
    requires Monotone(h, now)
    ensures var m := Replay(h, ttl);
            && NoDuplicates(m.order) && |m.order| <= MAX_ENTRIES && (forall k :: k in m.order <==> k in m.entries)
            && (forall p, q :: 0 <= p < q < |m.order| ==>
                  m.entries[m.order[p]].storedAt <= m.entries[m.order[q]].storedAt)
  {
    if ttl <= 0 {
      DisabledStaysEmpty(h, ttl);
      return;
    }
    ReplayTracks(h, ttl, now);
    var m := Replay(h, ttl);
    forall p, q | 0 <= p < q < |m.order|
      ensures m.order[p] in m.entries && m.order[q] in m.entries
      ensures m.entries[m.order[p]].storedAt <= m.entries[m.order[q]].storedAt
    {
      assert m.order[p] in m.order && m.order[q] in m.order;
      assert PutBefore(h, m.order[p], m.order[q]);
    }
  }

  // A lookup answers exactly what the history remembers: whatever was put, cleared and looked up
  // before, at whatever times.
  lemma LookupIsRemembered(h: seq<Event>, ttl: int, k: string, now: int)
    requires Monotone(h, now)
    ensures Get(Replay(h, ttl), ttl, k, now).1 == Remembered(h, ttl, k, now)
  {
    if ttl <= 0 { return; }
    ReplayTracks(h, ttl, now);
    var m := Replay(h, ttl);
    if k in m.entries && Young(h, ttl, k, now) {
      var after := KeysAfter(h, LastPut(h, k).value);
      NothingAfterLastPut(h, k);
      assert after + {k} <= Elements(m.order);
      SubsetSize(after + {k}, Elements(m.order));
      ElementsBound(m.order);
    }
  }
}
