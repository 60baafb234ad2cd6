// The two bounded handle pools of the HTTP transport, and any number of requests taking turns at
// them: each pool a mutex, a condition variable and a list of idle handles. A release notifies
// after it has unlocked, so a newcomer may take the handle before the woken waiter does.
module HandlePool {
  import opened Prelude

  // ---- one pool ----

  // Handles are numbered in the order they were created; the first `created` exist.
  datatype Pool = Pool(idle: seq<nat>, created: nat)

  datatype Take = Got(h: nat) | Null | Wait

  // One turn of the acquire loop, with the mutex held; `allocates` is whether a new handle can be had.
  function Attempt(p: Pool, cap: nat, allocates: bool): (Pool, Take)
  {
    if p.idle != [] then (p.(idle := p.idle[..|p.idle| - 1]), Got(p.idle[|p.idle| - 1]))
    else if p.created < cap then
      if allocates then (p.(created := p.created + 1), Got(p.created)) else (p, Null)
    else (p, Wait)
  }

  function PutBack(p: Pool, h: nat): Pool { p.(idle := p.idle + [h]) }

  // The critical sections on the transport's own fields.
  class Handles {
    const cap: nat
    var idle: seq<nat>
    var all: seq<nat>
    var inUse: nat

    ghost predicate Valid()
      reads this
    {
      cap >= 1 && forall i :: 0 <= i < |all| ==> all[i] == i
    }

    ghost function Contents(): Pool
      reads this
    {
      Pool(idle, |all|)
    }

    // A cap of 0 is raised to 1.
    constructor (maxConcurrent: nat)
      ensures Valid() && Contents() == Pool([], 0) && inUse == 0
      ensures cap == if maxConcurrent == 0 then 1 else maxConcurrent
    {
      cap := if maxConcurrent == 0 then 1 else maxConcurrent;
      idle, all, inUse := [], [], 0;
    }

    method Acquire(allocates: bool) returns (r: Take)
      requires Valid()
      modifies this
      ensures Valid() && (Contents(), r) == Attempt(old(Contents()), cap, allocates)
      ensures inUse == old(inUse) + if r.Got? then 1 else 0
    {
      if idle != [] {
        r := Got(idle[|idle| - 1]);
        idle := idle[..|idle| - 1];
        inUse := inUse + 1;
      } else if |all| < cap {
        if !allocates { return Null; }
        r := Got(|all|);
        all := all + [|all|];
        inUse := inUse + 1;
      } else {
        r := Wait;
      }
    }

    method Release(h: nat)
      requires Valid() && inUse > 0
      modifies this
      ensures Valid() && Contents() == PutBack(old(Contents()), h) && inUse == old(inUse) - 1
    {
      idle := idle + [h];
      inUse := inUse - 1;
    }
  }

  // ---- requests ----

  datatype Which = Shared | Plain

  datatype Line =
    | Wants(pool: Which)
    | Blocked(pool: Which)
    | Woken(pool: Which)
    | Leased(pool: Which)
    | Notifying(pool: Which)
    | Done

  // A request and the handles it holds. `merges` is whether the answer of an isolated exchange
  // has cookies to carry into the shared jar, for which it borrows a shared handle.
  datatype Thread = Thread(line: Line, shared: Option<nat>, plain: Option<nat>, merges: bool)
  {
    function Lease(w: Which): Option<nat> { if w.Shared? then shared else plain }
  }

  datatype State = State(cap: nat, shared: Pool, plain: Pool, inUse: int, threads: seq<Thread>)
  {
    function PoolOf(w: Which): Pool { if w.Shared? then shared else plain }
  }

  function WithPool(s: State, w: Which, p: Pool): State
  {
    if w.Shared? then s.(shared := p) else s.(plain := p)
  }

  // in_use counts the leases of the shared pool only.
  function Counted(s: State, w: Which, delta: int): State
  {
    if w.Shared? then s.(inUse := s.inUse + delta) else s
  }

  function WithLease(t: Thread, w: Which, h: Option<nat>): Thread
  {
    if w.Shared? then t.(shared := h) else t.(plain := h)
  }

  function Start(cap: nat): State { State(if cap == 0 then 1 else cap, Pool([], 0), Pool([], 0), 0, []) }

  datatype Step =
    | Begin(pool: Which, merges: bool)
    | Acquire(t: nat, allocates: bool)
    | Spurious(t: nat)
    | Release(t: nat)
    | Notify(t: nat, woken: nat)

  function Set(s: State, t: nat, x: Thread): State
    requires t < |s.threads|
  {
    s.(threads := s.threads[t := x])
  }

  predicate Waiting(s: State, w: Which, t: nat)
  {
    t < |s.threads| && s.threads[t].line == Blocked(w)
  }

  // Where a request goes once its handle is back: perform_isolated merges only then.
  function AfterNotify(x: Thread): Thread
  {
    x.(line := if x.line == Notifying(Plain) && x.merges then Wants(Shared) else Done, merges := false)
  }

  // notify_one wakes some blocked request of that pool, if there is one.
  ghost predicate Enabled(s: State, step: Step)
  {
    match step
    case Begin(_, _) => true
    case Acquire(t, _) => t < |s.threads| && (s.threads[t].line.Wants? || s.threads[t].line.Woken?)
    case Spurious(t) => t < |s.threads| && s.threads[t].line.Blocked?
    case Release(t) =>
      && t < |s.threads| && s.threads[t].line.Leased?
      && s.threads[t].Lease(s.threads[t].line.pool).Some?
    case Notify(t, u) =>
      && t < |s.threads| && s.threads[t].line.Notifying?
      && ((exists v :: Waiting(s, s.threads[t].line.pool, v)) ==> Waiting(s, s.threads[t].line.pool, u))
  }

  function Next(s: State, step: Step): State
    requires Enabled(s, step)
  {
    match step
    case Begin(w, merges) => s.(threads := s.threads + [Thread(Wants(w), None, None, merges)])
    case Acquire(t, allocates) =>
      var x := s.threads[t];
      var w := x.line.pool;
      var (p, take) := Attempt(s.PoolOf(w), s.cap, allocates);
      (match take
       case Got(h) => Counted(WithPool(Set(s, t, WithLease(x, w, Some(h)).(line := Leased(w))), w, p), w, 1)
       case Null => Set(s, t, x.(line := Done))
       case Wait => Set(s, t, x.(line := Blocked(w))))
    case Spurious(t) => Set(s, t, s.threads[t].(line := Woken(s.threads[t].line.pool)))
    case Release(t) =>
      var x := s.threads[t];
      var w := x.line.pool;
      var p := PutBack(s.PoolOf(w), x.Lease(w).value);
      Counted(WithPool(Set(s, t, WithLease(x, w, None).(line := Notifying(w))), w, p), w, -1)
    case Notify(t, u) =>
      var w := s.threads[t].line.pool;
      var s' := if Waiting(s, w, u) then Set(s, u, s.threads[u].(line := Woken(w))) else s;
      Set(s', t, AfterNotify(s.threads[t]))
  }

  ghost predicate Run(s: State, steps: seq<Step>)
    decreases |steps|
  {
    steps == [] || (Enabled(s, steps[0]) && Run(Next(s, steps[0]), steps[1..]))
  }

  function Exec(s: State, steps: seq<Step>): State
    requires Run(s, steps)
    decreases |steps|
  {
    if steps == [] then s else Exec(Next(s, steps[0]), steps[1..])
  }

  // ---- counting ----

  function Tally(threads: seq<Thread>, line: Line): nat
  {
    if threads == [] then 0 else (if threads[0].line == line then 1 else 0) + Tally(threads[1..], line)
  }

  function One(x: Thread, line: Line): nat { if x.line == line then 1 else 0 }

  lemma {:induction false} TallyUpdate(threads: seq<Thread>, t: nat, x: Thread, line: Line)
    requires t < |threads|
    ensures Tally(threads[t := x], line) + One(threads[t], line) == Tally(threads, line) + One(x, line)
  {
    if t == 0 {
      assert threads[0 := x][1..] == threads[1..];
    } else {
      assert threads[t := x][1..] == threads[1..][t - 1 := x];
      TallyUpdate(threads[1..], t - 1, x, line);
    }
  }

  lemma {:induction false} TallyAppend(threads: seq<Thread>, x: Thread, line: Line)
    ensures Tally(threads + [x], line) == Tally(threads, line) + One(x, line)
  {
    if threads == [] {
      assert threads + [x] == [x] && [x][1..] == [];
    } else {
      assert (threads + [x])[1..] == threads[1..] + [x];
      TallyAppend(threads[1..], x, line);
    }
  }

  lemma {:induction false} TallyPositive(threads: seq<Thread>, line: Line)
    requires Tally(threads, line) > 0
    ensures exists t :: 0 <= t < |threads| && threads[t].line == line
  {
    if threads[0].line != line {
      TallyPositive(threads[1..], line);
      var t :| 0 <= t < |threads[1..]| && threads[1..][t].line == line;
      assert threads[t + 1].line == line;
    }
  }

  lemma {:induction false} TallyOf(threads: seq<Thread>, t: nat)
    requires t < |threads|
    ensures Tally(threads, threads[t].line) > 0
  {
    if t > 0 {
      TallyOf(threads[1..], t - 1);
    }
  }

  // ---- the invariant ----

  // A request holds the handle of the pool it is leasing from, and no other.
  predicate ThreadOk(x: Thread)
  {
    && (x.shared.Some? <==> x.line == Leased(Shared))
    && (x.plain.Some? <==> x.line == Leased(Plain))
  }

  ghost predicate Held(s: State, w: Which, h: nat)
  {
    exists t :: 0 <= t < |s.threads| && s.threads[t].Lease(w) == Some(h)
  }

  ghost predicate PoolWf(p: Pool)
  {
    NoDuplicates(p.idle) && forall h :: h in p.idle ==> h < p.created
  }

  // Idle and leased handles partition the created ones.
  ghost predicate Partition(s: State, w: Which)
  {
    var p := s.PoolOf(w);
    && p.created <= s.cap && PoolWf(p)
    && (forall t :: 0 <= t < |s.threads| && s.threads[t].Lease(w).Some? ==>
          s.threads[t].Lease(w).value < p.created && s.threads[t].Lease(w).value !in p.idle)
    && (forall t, u :: 0 <= t < u < |s.threads| && s.threads[t].Lease(w).Some? ==>
          s.threads[t].Lease(w) != s.threads[u].Lease(w))
    && (forall h: nat :: h < p.created && h !in p.idle ==> Held(s, w, h))
    && |p.idle| + Tally(s.threads, Leased(w)) == p.created
  }

  // While someone is blocked the pool is full-grown, and every idle handle has a request on its
  // way to it or a notification about to be sent for it.
  predicate NoLostWakeup(s: State, w: Which)
  {
    Tally(s.threads, Blocked(w)) > 0 ==>
      && s.PoolOf(w).created == s.cap
      && |s.PoolOf(w).idle| <= Tally(s.threads, Woken(w)) + Tally(s.threads, Notifying(w))
  }

  ghost predicate Inv(s: State)
  {
    && s.cap >= 1
    && (forall t :: 0 <= t < |s.threads| ==> ThreadOk(s.threads[t]))
    && Partition(s, Shared) && Partition(s, Plain)
    && NoLostWakeup(s, Shared) && NoLostWakeup(s, Plain)
    && s.inUse == Tally(s.threads, Leased(Shared))
  }

  // ---- each step keeps it ----

  lemma TallyStep(s: State, step: Step, line: Line)
    requires Inv(s) && Enabled(s, step) && !step.Begin? && !step.Notify?
    ensures var s' := Next(s, step);
            && |s'.threads| == |s.threads|
            && (forall v :: 0 <= v < |s.threads| && v != step.t ==> s'.threads[v] == s.threads[v])
            && Tally(s'.threads, line) ==
               Tally(s.threads, line) - One(s.threads[step.t], line) + One(s'.threads[step.t], line)
  {
    var s' := Next(s, step);
    assert s'.threads == s.threads[step.t := s'.threads[step.t]];
    TallyUpdate(s.threads, step.t, s'.threads[step.t], line);
  }

  lemma PartitionSame(s: State, s': State, w: Which)
    requires Partition(s, w) && s'.cap == s.cap && s'.PoolOf(w) == s.PoolOf(w)
    requires |s.threads| <= |s'.threads|
    requires forall t :: 0 <= t < |s.threads| ==> s'.threads[t].Lease(w) == s.threads[t].Lease(w)
    requires forall t :: |s.threads| <= t < |s'.threads| ==> s'.threads[t].Lease(w).None?
    requires Tally(s'.threads, Leased(w)) == Tally(s.threads, Leased(w))
    ensures Partition(s', w)
  {
    forall h: nat | h < s'.PoolOf(w).created && h !in s'.PoolOf(w).idle ensures Held(s', w, h) {
      assert Held(s, w, h);
      var t :| 0 <= t < |s.threads| && s.threads[t].Lease(w) == Some(h);
      assert s'.threads[t].Lease(w) == Some(h);
    }
  }

  // A handle taken was idle or is new, and nothing else moved.
  lemma TakeMovesOne(p: Pool, cap: nat, allocates: bool)
    requires PoolWf(p) && p.created <= cap && Attempt(p, cap, allocates).1.Got?
    ensures var (p', take) := Attempt(p, cap, allocates);
            && PoolWf(p') && p.created <= p'.created <= cap && take.h < p'.created
            && take.h !in p'.idle && (take.h in p.idle || take.h >= p.created)
            && (forall x :: x in p'.idle ==> x in p.idle)
            && (forall x: nat :: x < p'.created && x !in p'.idle && x != take.h ==> x < p.created && x !in p.idle)
            && |p'.idle| + 1 - p'.created == |p.idle| - p.created
  {
    var (p', take) := Attempt(p, cap, allocates);
    if p.idle != [] {
      assert take.h in p.idle;
      assert forall x :: x in p'.idle ==> x in p.idle;
      assert forall x :: x in p.idle ==> x in p'.idle || x == take.h;
    }
  }

  lemma AcquireHeld(s: State, s': State, t: nat, w: Which, h0: nat, h: nat)
    requires t < |s.threads| == |s'.threads| && s.threads[t].Lease(w).None? && s'.threads[t].Lease(w) == Some(h0)
    requires forall v :: 0 <= v < |s.threads| && v != t ==> s'.threads[v] == s.threads[v]
    requires h == h0 || Held(s, w, h)
    ensures Held(s', w, h)
  {
    if h == h0 {
      assert s'.threads[t].Lease(w) == Some(h);
    } else {
      var u :| 0 <= u < |s.threads| && s.threads[u].Lease(w) == Some(h);
      assert s'.threads[u].Lease(w) == Some(h);
    }
  }

  lemma RefusedPartition(s: State, step: Step, w: Which)
    requires Inv(s) && Enabled(s, step) && step.Acquire? && s.threads[step.t].line.pool == w
    requires !Attempt(s.PoolOf(w), s.cap, step.allocates).1.Got?
    ensures Partition(Next(s, step), w)
  {
    TallyStep(s, step, Leased(w));
    PartitionSame(s, Next(s, step), w);
  }

  lemma AcquirePartition(s: State, step: Step, w: Which)
    requires Inv(s) && Enabled(s, step) && step.Acquire? && s.threads[step.t].line.pool == w
    requires Attempt(s.PoolOf(w), s.cap, step.allocates).1.Got?
    ensures Partition(Next(s, step), w)
  {
    var s' := Next(s, step);
    TallyStep(s, step, Leased(w));
    var (p, take) := Attempt(s.PoolOf(w), s.cap, step.allocates);
    assert ThreadOk(s.threads[step.t]);
    TakeMovesOne(s.PoolOf(w), s.cap, step.allocates);
    assert s'.threads[step.t].Lease(w) == Some(take.h) && s'.PoolOf(w) == p;
    forall h: nat | h < p.created && h !in p.idle ensures Held(s', w, h) {
      AcquireHeld(s, s', step.t, w, take.h, h);
    }
  }

  lemma ReleaseHeld(s: State, s': State, t: nat, w: Which, h: nat)
    requires t < |s.threads| == |s'.threads| && s.threads[t].Lease(w) != Some(h) && Held(s, w, h)
    requires forall v :: 0 <= v < |s.threads| && v != t ==> s'.threads[v] == s.threads[v]
    ensures Held(s', w, h)
  {
    var u :| 0 <= u < |s.threads| && s.threads[u].Lease(w) == Some(h);
    assert s'.threads[u].Lease(w) == Some(h);
  }

  lemma ReleasePartition(s: State, step: Step, w: Which)
    requires Inv(s) && Enabled(s, step) && step.Release? && s.threads[step.t].line.pool == w
    ensures Partition(Next(s, step), w)
  {
    var s' := Next(s, step);
    TallyStep(s, step, Leased(w));
    var h0 := s.threads[step.t].Lease(w).value;
    var p, p' := s.PoolOf(w), PutBack(s.PoolOf(w), h0);
    assert forall x :: x in p'.idle <==> x in p.idle || x == h0;
    forall h: nat | h < p'.created && h !in p'.idle ensures Held(s', w, h) {
      ReleaseHeld(s, s', step.t, w, h);
    }
  }

  lemma NotifyTally(s: State, step: Step, line: Line)
    requires Inv(s) && Enabled(s, step) && step.Notify?
    ensures var s' := Next(s, step);
            var w := s.threads[step.t].line.pool;
            var wakes := Waiting(s, w, step.woken);
            && |s'.threads| == |s.threads|
            && s'.threads[step.t] == AfterNotify(s.threads[step.t])
            && (wakes ==> step.woken != step.t && s'.threads[step.woken] == s.threads[step.woken].(line := Woken(w)))
            && (forall v :: 0 <= v < |s.threads| && v != step.t && (v != step.woken || !wakes) ==>
                  s'.threads[v] == s.threads[v])
            && Tally(s'.threads, line) == Tally(s.threads, line)
               - One(s.threads[step.t], line) + One(s'.threads[step.t], line)
               - (if wakes && line == Blocked(w) then 1 else 0) + (if wakes && line == Woken(w) then 1 else 0)
  {
    var w := s.threads[step.t].line.pool;
    var s1 := if Waiting(s, w, step.woken) then Set(s, step.woken, s.threads[step.woken].(line := Woken(w))) else s;
    if Waiting(s, w, step.woken) {
      TallyUpdate(s.threads, step.woken, s.threads[step.woken].(line := Woken(w)), line);
    }
    TallyUpdate(s1.threads, step.t, AfterNotify(s.threads[step.t]), line);
  }

  lemma LeasesSame(s: State, step: Step, w: Which)
    requires Inv(s) && Enabled(s, step) && !step.Begin?
    requires step.Spurious? || step.Notify? || s.threads[step.t].line.pool != w
    ensures var s' := Next(s, step);
            && |s'.threads| == |s.threads|
            && (forall t :: 0 <= t < |s.threads| ==> s'.threads[t].Lease(w) == s.threads[t].Lease(w))
            && Tally(s'.threads, Leased(w)) == Tally(s.threads, Leased(w))
            && s'.PoolOf(w) == s.PoolOf(w) && s'.cap == s.cap
  {
    if step.Notify? {
      NotifyTally(s, step, Leased(w));
    } else {
      TallyStep(s, step, Leased(w));
    }
  }

  lemma PartitionStep(s: State, step: Step, w: Which)
    requires Inv(s) && Enabled(s, step)
    ensures Partition(Next(s, step), w)
  {
    var s' := Next(s, step);
    if step.Begin? {
      TallyAppend(s.threads, s'.threads[|s.threads|], Leased(w));
      PartitionSame(s, s', w);
    } else if step.Acquire? && s.threads[step.t].line.pool == w {
      if Attempt(s.PoolOf(w), s.cap, step.allocates).1.Got? {
        AcquirePartition(s, step, w);
      } else {
        RefusedPartition(s, step, w);
      }
    } else if step.Release? && s.threads[step.t].line.pool == w {
      ReleasePartition(s, step, w);
    } else {
      LeasesSame(s, step, w);
      PartitionSame(s, s', w);
    }
  }

  lemma NotifyWakeup(s: State, step: Step, w: Which)
    requires Inv(s) && Enabled(s, step) && step.Notify?
    ensures NoLostWakeup(Next(s, step), w)
  {
    var s' := Next(s, step);
    NotifyTally(s, step, Blocked(w));
    NotifyTally(s, step, Woken(w));
    NotifyTally(s, step, Notifying(w));
    if Tally(s'.threads, Blocked(w)) > 0 && s.threads[step.t].line == Notifying(w) {
      TallyPositive(s.threads, Blocked(w));
      var v :| 0 <= v < |s.threads| && s.threads[v].line == Blocked(w);
      assert Waiting(s, w, v);
    }
  }

  lemma BeginWakeup(s: State, step: Step, w: Which)
    requires Inv(s) && step.Begin?
    ensures NoLostWakeup(Next(s, step), w)
  {
    var x := Next(s, step).threads[|s.threads|];
    TallyAppend(s.threads, x, Blocked(w));
    TallyAppend(s.threads, x, Woken(w));
    TallyAppend(s.threads, x, Notifying(w));
  }

  lemma AcquireWakeup(s: State, step: Step, w: Which)
    requires Inv(s) && Enabled(s, step) && step.Acquire?
    ensures NoLostWakeup(Next(s, step), w)
  {
    TallyStep(s, step, Blocked(w));
    TallyStep(s, step, Woken(w));
    TallyStep(s, step, Notifying(w));
  }

  lemma ReleaseWakeup(s: State, step: Step, w: Which)
    requires Inv(s) && Enabled(s, step) && (step.Release? || step.Spurious?)
    ensures NoLostWakeup(Next(s, step), w)
  {
    TallyStep(s, step, Blocked(w));
    TallyStep(s, step, Woken(w));
    TallyStep(s, step, Notifying(w));
  }

  lemma WakeupStep(s: State, step: Step, w: Which)
    requires Inv(s) && Enabled(s, step)
    ensures NoLostWakeup(Next(s, step), w)
  {
    if step.Begin? {
      BeginWakeup(s, step, w);
    } else if step.Notify? {
      NotifyWakeup(s, step, w);
    } else if step.Acquire? {
      AcquireWakeup(s, step, w);
    } else {
      ReleaseWakeup(s, step, w);
    }
  }

  lemma InUseStep(s: State, step: Step)
    requires Inv(s) && Enabled(s, step)
    ensures Next(s, step).inUse == Tally(Next(s, step).threads, Leased(Shared))
  {
    if step.Begin? {
      TallyAppend(s.threads, Next(s, step).threads[|s.threads|], Leased(Shared));
    } else if step.Notify? {
      NotifyTally(s, step, Leased(Shared));
    } else {
      TallyStep(s, step, Leased(Shared));
    }
  }

  lemma ThreadsStep(s: State, step: Step)
    requires Inv(s) && Enabled(s, step)
    ensures forall t :: 0 <= t < |Next(s, step).threads| ==> ThreadOk(Next(s, step).threads[t])
  {
    var s' := Next(s, step);
    forall t | 0 <= t < |s'.threads| ensures ThreadOk(s'.threads[t]) {
      if t < |s.threads| { assert ThreadOk(s.threads[t]); }
    }
  }

  lemma InvStep(s: State, step: Step)
    requires Inv(s) && Enabled(s, step)
    ensures Inv(Next(s, step))
  {
    PartitionStep(s, step, Shared);
    PartitionStep(s, step, Plain);
    WakeupStep(s, step, Shared);
    WakeupStep(s, step, Plain);
    InUseStep(s, step);
    ThreadsStep(s, step);
  }

  lemma {:induction false} InvExec(s: State, steps: seq<Step>)
    requires Inv(s) && Run(s, steps)
    ensures Inv(Exec(s, steps))
    decreases |steps|
  {
    if steps != [] {
      InvStep(s, steps[0]);
      InvExec(Next(s, steps[0]), steps[1..]);
    }
  }

  // ---- in every interleaving ----

  lemma Reachable(cap: nat, steps: seq<Step>)
    requires Run(Start(cap), steps)
    ensures Inv(Exec(Start(cap), steps))
  {
    InvExec(Start(cap), steps);
  }

  // Every created handle is idle or leased by exactly one request, and no more than cap exist.
  lemma HandlesPartitioned(cap: nat, steps: seq<Step>, w: Which, h: nat)
    requires Run(Start(cap), steps) && h < Exec(Start(cap), steps).PoolOf(w).created
    ensures var s := Exec(Start(cap), steps);
            && s.PoolOf(w).created <= s.cap
            && (h in s.PoolOf(w).idle <==> !Held(s, w, h))
            && (forall t, u :: 0 <= t < u < |s.threads| && s.threads[t].Lease(w) == Some(h) ==>
                  s.threads[u].Lease(w) != Some(h))
  {
    Reachable(cap, steps);
  }

  // No request holds handles of both pools.
  lemma OneLeaseEach(cap: nat, steps: seq<Step>, t: nat)
    requires Run(Start(cap), steps) && t < |Exec(Start(cap), steps).threads|
    ensures var x := Exec(Start(cap), steps).threads[t]; x.shared.None? || x.plain.None?
  {
    Reachable(cap, steps);
    assert ThreadOk(Exec(Start(cap), steps).threads[t]);
  }

  // While a request is blocked, the idle handles never outnumber the requests on their way to the
  // mutex and the releases that have not notified yet.
  lemma IdleHandleIsSpokenFor(cap: nat, steps: seq<Step>, w: Which, t: nat)
    requires Run(Start(cap), steps)
    requires Waiting(Exec(Start(cap), steps), w, t) && Exec(Start(cap), steps).PoolOf(w).idle != []
    ensures var s := Exec(Start(cap), steps);
            && |s.PoolOf(w).idle| <= Tally(s.threads, Woken(w)) + Tally(s.threads, Notifying(w))
            && exists u :: 0 <= u < |s.threads| && (s.threads[u].line == Woken(w) || s.threads[u].line == Notifying(w))
  {
    Reachable(cap, steps);
    var s := Exec(Start(cap), steps);
    TallyOf(s.threads, t);
    if Tally(s.threads, Woken(w)) > 0 {
      TallyPositive(s.threads, Woken(w));
    } else {
      TallyPositive(s.threads, Notifying(w));
    }
  }

  // ---- every request finishes ----

  // While a request is unfinished some request can move.
  lemma SomeoneMoves(s: State, t: nat) returns (step: Step)
    requires Inv(s) && t < |s.threads| && !s.threads[t].line.Done?
    ensures Enabled(s, step) && !step.Begin? && !step.Spurious?
  {
    if !s.threads[t].line.Blocked? {
      step := MoveOf(s, t);
      return;
    }
    var w := s.threads[t].line.pool;
    TallyOf(s.threads, t);
    if Tally(s.threads, Leased(w)) > 0 {
      TallyPositive(s.threads, Leased(w));
      var u :| 0 <= u < |s.threads| && s.threads[u].line == Leased(w);
      step := MoveOf(s, u);
      return;
    }
    if Tally(s.threads, Woken(w)) > 0 {
      TallyPositive(s.threads, Woken(w));
      var u :| 0 <= u < |s.threads| && s.threads[u].line == Woken(w);
      step := MoveOf(s, u);
      return;
    }
    assert Partition(s, w) && NoLostWakeup(s, w);
    TallyPositive(s.threads, Notifying(w));
    var u :| 0 <= u < |s.threads| && s.threads[u].line == Notifying(w);
    step := MoveOf(s, u);
  }

  lemma MoveOf(s: State, t: nat) returns (step: Step)
    requires Inv(s) && t < |s.threads| && !s.threads[t].line.Done? && !s.threads[t].line.Blocked?
    ensures Enabled(s, step) && !step.Begin? && !step.Spurious?
  {
    assert ThreadOk(s.threads[t]);
    match s.threads[t].line
    case Wants(_) => step := Acquire(t, false);
    case Woken(_) => step := Acquire(t, false);
    case Leased(w) => step := Release(t);
    case Notifying(w) =>
      if v: nat :| Waiting(s, w, v) {
        step := Notify(t, v);
      } else {
        step := Notify(t, 0);
      }
  }

  function Weight(x: Thread): nat
  {
    (match x.line
     case Wants(_) => 6
     case Blocked(_) => 4
     case Woken(_) => 5
     case Leased(_) => 3
     case Notifying(_) => 2
     case Done => 0)
    + (if x.merges && !x.line.Done? then 7 else 0)
  }

  function Total(threads: seq<Thread>): nat
  {
    if threads == [] then 0 else Weight(threads[0]) + Total(threads[1..])
  }

  lemma {:induction false} TotalUpdate(threads: seq<Thread>, t: nat, x: Thread)
    requires t < |threads|
    ensures Total(threads[t := x]) + Weight(threads[t]) == Total(threads) + Weight(x)
  {
    if t == 0 {
      assert threads[0 := x][1..] == threads[1..];
    } else {
      assert threads[t := x][1..] == threads[1..][t - 1 := x];
      TotalUpdate(threads[1..], t - 1, x);
    }
  }

  function SpuriousCount(steps: seq<Step>): nat
  {
    if steps == [] then 0 else (if steps[0].Spurious? then 1 else 0) + SpuriousCount(steps[1..])
  }

  lemma TotalStep(s: State, step: Step)
    requires Enabled(s, step) && !step.Begin?
    ensures 1 + Total(Next(s, step).threads) <= Total(s.threads) + if step.Spurious? then 2 else 0
  {
    var s' := Next(s, step);
    if step.Notify? {
      var w := s.threads[step.t].line.pool;
      if Waiting(s, w, step.woken) {
        TotalUpdate(s.threads, step.woken, s.threads[step.woken].(line := Woken(w)));
        TotalUpdate(s.threads[step.woken := s.threads[step.woken].(line := Woken(w))], step.t, AfterNotify(s.threads[step.t]));
      } else {
        TotalUpdate(s.threads, step.t, AfterNotify(s.threads[step.t]));
      }
    } else {
      assert s'.threads == s.threads[step.t := s'.threads[step.t]];
      TotalUpdate(s.threads, step.t, s'.threads[step.t]);
    }
  }

  // A run without newcomers is bounded, however the wakes and the barging fall: only a spurious
  // wake can add to it, two steps at most.
  lemma {:induction false} RunsEnd(s: State, steps: seq<Step>)
    requires Run(s, steps) && forall step :: step in steps ==> !step.Begin?
    ensures |steps| + Total(Exec(s, steps).threads) <= Total(s.threads) + 2 * SpuriousCount(steps)
    decreases |steps|
  {
    if steps != [] {
      TotalStep(s, steps[0]);
      RunsEnd(Next(s, steps[0]), steps[1..]);
    }
  }

  // A run that only newcomers could continue has every request done and every handle idle.
  lemma EveryRequestFinishes(cap: nat, steps: seq<Step>)
    requires Run(Start(cap), steps)
    requires forall step: Step :: Enabled(Exec(Start(cap), steps), step) ==> step.Begin? || step.Spurious?
    ensures var s := Exec(Start(cap), steps);
            && (forall t :: 0 <= t < |s.threads| ==> s.threads[t].line.Done?)
            && s.inUse == 0 && |s.shared.idle| == s.shared.created && |s.plain.idle| == s.plain.created
  {
    Reachable(cap, steps);
    var s := Exec(Start(cap), steps);
    forall t: nat | t < |s.threads| ensures s.threads[t].line.Done? {
      if !s.threads[t].line.Done? { var step := SomeoneMoves(s, t); }
    }
    if Tally(s.threads, Leased(Shared)) > 0 { TallyPositive(s.threads, Leased(Shared)); }
    if Tally(s.threads, Leased(Plain)) > 0 { TallyPositive(s.threads, Leased(Plain)); }
  }
}
