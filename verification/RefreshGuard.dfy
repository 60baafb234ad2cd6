// The single-flight refresh guard: any number of run() calls interleaving at the points where
// they take the lock, reach the wire, publish, vacate, wait and return.
module RefreshGuard {
  import opened Prelude

  // What a refresh ends with: tokens or an error off the wire; or, when the tokens cannot be
  // copied into the promise, an allocation failure for the owner and a broken promise for the rest.
  datatype Outcome = Tokens(pair: string) | WireError(text: string) | NoMemory | BrokenPromise

  // ---- the guard: the slot and the futures installed in it so far ----

  // A future is known by its generation; futures[g] is what it settled with.
  datatype Slot = Slot(inflight: Option<nat>, futures: seq<Option<Outcome>>)

  datatype Role = Owner(gen: nat) | Waiter(gen: nat)

  predicate SlotWf(slot: Slot)
  {
    slot.inflight.Some? ==> slot.inflight.value < |slot.futures|
  }

  // A refresh is live only while its future has not settled.
  predicate Live(slot: Slot)
    requires SlotWf(slot)
  {
    slot.inflight.Some? && slot.futures[slot.inflight.value].None?
  }

  function EnterSlot(slot: Slot): (Slot, Role)
    requires SlotWf(slot)
  {
    if Live(slot) then (slot, Waiter(slot.inflight.value))
    else (Slot(Some(|slot.futures|), slot.futures + [None]), Owner(|slot.futures|))
  }

  function SettleSlot(slot: Slot, gen: nat, o: Outcome): Slot
    requires gen < |slot.futures|
  {
    slot.(futures := slot.futures[gen := Some(o)])
  }

  // Clears the slot only if no newer future has been installed.
  function VacateSlot(slot: Slot, gen: nat): Slot
  {
    if gen + 1 == |slot.futures| then slot.(inflight := None) else slot
  }

  // The critical sections of the guard, on its own fields.
  class Guard {
    var inflight: Option<nat>
    var generation: nat
    var futures: seq<Option<Outcome>>

    ghost predicate Valid()
      reads this
    {
      generation == |futures| && SlotWf(Contents())
    }

    ghost function Contents(): Slot
      reads this
    {
      Slot(inflight, futures)
    }

    constructor ()
      ensures Valid() && Contents() == Slot(None, [])
    {
      inflight, generation, futures := None, 0, [];
    }

    method LiveLocked() returns (live: bool)
      requires Valid()
      ensures live == Live(Contents())
    {
      live := inflight.Some? && futures[inflight.value].None?;
    }

    method Enter() returns (role: Role)
      requires Valid()
      modifies this
      ensures Valid() && (Contents(), role) == EnterSlot(old(Contents()))
    {
      var live := LiveLocked();
      if live {
        role := Waiter(inflight.value);
      } else {
        inflight := Some(generation);
        futures := futures + [None];
        role := Owner(generation);
        generation := generation + 1;
      }
    }

    method Publish(gen: nat, o: Outcome)
      requires Valid() && gen < generation
      modifies this`futures
      ensures Valid() && Contents() == SettleSlot(old(Contents()), gen, o)
    {
      futures := futures[gen := Some(o)];
    }

    method Vacate(gen: nat)
      requires Valid()
      modifies this`inflight
      ensures Valid() && Contents() == VacateSlot(old(Contents()), gen)
    {
      if gen + 1 == generation {
        inflight := None;
      }
    }

    // run() with no other caller about: the wire call's outcome comes back and the slot is empty.
    method RunAlone(answer: Outcome) returns (o: Outcome)
      requires Valid() && !Live(Contents())
      modifies this
      ensures Valid() && o == answer && Contents() == Slot(None, old(Contents()).futures + [Some(answer)])
    {
      var role := Enter();
      Publish(role.gen, answer);
      Vacate(role.gen);
      o := answer;
    }
  }

  // ---- callers ----

  datatype Pc =
    | Arrived
    | Owning(gen: nat)
    | OnWire(gen: nat)
    | Answered(gen: nat, outcome: Outcome)
    | Published(gen: nat, outcome: Outcome)
    | Vacated(gen: nat, outcome: Outcome)
    | Joined(gen: nat)
    | Returned(gen: nat, outcome: Outcome)

  // `over` holds the generations already settled when the caller arrived.
  datatype Caller = Caller(pc: Pc, over: set<nat>)

  // owners, answers and calls are history: who installed a future, what its wire call ended
  // with, and the wire calls in the order they started.
  datatype State = State(
    slot: Slot,
    callers: seq<Caller>,
    owners: seq<nat>,
    answers: seq<Option<Outcome>>,
    calls: seq<nat>)

  const START := State(Slot(None, []), [], [], [], [])

  datatype Step =
    | Arrive
    | Enter(c: nat)
    | Call(c: nat)
    | Answer(c: nat, outcome: Outcome)
    | Publish(c: nat)
    | PublishThrows(c: nat)
    | Vacate(c: nat)
    | Leave(c: nat)
    | Wake(c: nat)

  function Settled(slot: Slot): set<nat>
  {
    set g: nat | 0 <= g < |slot.futures| && slot.futures[g].Some? :: g
  }

  function At(s: State, c: nat, pc: Pc): State
    requires c < |s.callers|
  {
    s.(callers := s.callers[c := s.callers[c].(pc := pc)])
  }

  // The promise is dropped when its owner returns; one never set breaks.
  function Dropped(slot: Slot, gen: nat): Slot
    requires gen < |slot.futures|
  {
    if slot.futures[gen].None? then SettleSlot(slot, gen, BrokenPromise) else slot
  }

  predicate Shaped(s: State)
  {
    SlotWf(s.slot) && |s.owners| == |s.answers| == |s.slot.futures|
  }

  // None when the step is not enabled.
  function Next(s: State, step: Step): Option<State>
    requires Shaped(s)
  {
    match step
    case Arrive => Some(s.(callers := s.callers + [Caller(Arrived, Settled(s.slot))]))
    case Enter(c) =>
      if c < |s.callers| && s.callers[c].pc.Arrived? then
        var (slot, role) := EnterSlot(s.slot);
        if role.Waiter? then Some(At(s, c, Joined(role.gen)))
        else Some(At(s, c, Owning(role.gen)).(slot := slot, owners := s.owners + [c], answers := s.answers + [None]))
      else None
    case Call(c) =>
      if c < |s.callers| && s.callers[c].pc.Owning?
      then Some(At(s, c, OnWire(s.callers[c].pc.gen)).(calls := s.calls + [s.callers[c].pc.gen]))
      else None
    case Answer(c, o) =>
      if c < |s.callers| && s.callers[c].pc.OnWire? && (o.Tokens? || o.WireError?) && s.callers[c].pc.gen < |s.answers| then
        var gen := s.callers[c].pc.gen;
        Some(At(s, c, Answered(gen, o)).(answers := s.answers[gen := Some(o)]))
      else None
    case Publish(c) =>
      if c < |s.callers| && s.callers[c].pc.Answered? && s.callers[c].pc.gen < |s.slot.futures| then
        var pc := s.callers[c].pc;
        Some(At(s, c, Published(pc.gen, pc.outcome)).(slot := SettleSlot(s.slot, pc.gen, pc.outcome)))
      else None
    case PublishThrows(c) =>
      if c < |s.callers| && s.callers[c].pc.Answered? && s.callers[c].pc.outcome.Tokens?
      then Some(At(s, c, Published(s.callers[c].pc.gen, NoMemory)))
      else None
    case Vacate(c) =>
      if c < |s.callers| && s.callers[c].pc.Published? then
        var pc := s.callers[c].pc;
        Some(At(s, c, Vacated(pc.gen, pc.outcome)).(slot := VacateSlot(s.slot, pc.gen)))
      else None
    case Leave(c) =>
      if c < |s.callers| && s.callers[c].pc.Vacated? && s.callers[c].pc.gen < |s.slot.futures| then
        var pc := s.callers[c].pc;
        Some(At(s, c, Returned(pc.gen, pc.outcome)).(slot := Dropped(s.slot, pc.gen)))
      else None
    case Wake(c) =>
      if c < |s.callers| && s.callers[c].pc.Joined? && s.callers[c].pc.gen < |s.slot.futures|
         && s.slot.futures[s.callers[c].pc.gen].Some?
      then Some(At(s, c, Returned(s.callers[c].pc.gen, s.slot.futures[s.callers[c].pc.gen].value)))
      else None
  }

  lemma NextShaped(s: State, step: Step)
    requires Shaped(s) && Next(s, step).Some?
    ensures Shaped(Next(s, step).value)
  {
  }

  // A run of the guard from a state; None when some step is not enabled.
  function Exec(s: State, steps: seq<Step>): (r: Option<State>)
    requires Shaped(s)
    ensures r.Some? ==> Shaped(r.value)
    decreases |steps|
  {
    if steps == [] then Some(s)
    else
      match Next(s, steps[0])
      case None => None
      case Some(s') => NextShaped(s, steps[0]); Exec(s', steps[1..])
  }

  // ---- what every reachable state satisfies ----

  // The owner of a flight has come past its publication; it threw only for lack of memory.
  predicate Closed(s: State, gen: nat, o: Outcome)
    requires Shaped(s) && gen < |s.answers|
  {
    && s.answers[gen].Some?
    && if s.slot.futures[gen].None? then o.NoMemory? && s.answers[gen].value.Tokens?
       else s.slot.futures[gen] == Some(o) && s.answers[gen] == Some(o)
  }

  predicate OwnerOk(s: State, c: nat, gen: nat)
    requires Shaped(s) && c < |s.callers|
  {
    gen < |s.owners| && s.owners[gen] == c && gen !in s.callers[c].over
  }

  // What a caller returns with, given its flight.
  predicate ReturnedOk(s: State, c: nat, gen: nat, o: Outcome)
    requires Shaped(s) && c < |s.callers|
  {
    && gen < |s.owners| && gen !in s.callers[c].over && s.answers[gen].Some? && s.slot.futures[gen].Some?
    && if s.owners[gen] == c && o.NoMemory?
       then s.slot.futures[gen] == Some(BrokenPromise) && s.answers[gen].value.Tokens?
       else s.slot.futures[gen] == Some(o) && (s.owners[gen] == c ==> s.answers[gen] == Some(o))
  }

  predicate CallerOk(s: State, c: nat)
    requires Shaped(s) && c < |s.callers|
  {
    match s.callers[c].pc
    case Arrived => true
    case Owning(gen) =>
      OwnerOk(s, c, gen) && s.answers[gen].None? && s.slot.futures[gen].None? && |s.calls| <= gen
    case OnWire(gen) =>
      OwnerOk(s, c, gen) && s.answers[gen].None? && s.slot.futures[gen].None? && gen < |s.calls|
    case Answered(gen, o) =>
      OwnerOk(s, c, gen) && s.answers[gen] == Some(o) && s.slot.futures[gen].None? && (o.Tokens? || o.WireError?)
    case Published(gen, o) => OwnerOk(s, c, gen) && Closed(s, gen, o)
    case Vacated(gen, o) => OwnerOk(s, c, gen) && Closed(s, gen, o)
    case Joined(gen) => gen < |s.owners| && s.owners[gen] != c && gen !in s.callers[c].over
    case Returned(gen, o) => ReturnedOk(s, c, gen, o)
  }

  predicate BeforeVacate(pc: Pc) { pc.Owning? || pc.OnWire? || pc.Answered? || pc.Published? }

  predicate FlightOk(s: State, gen: nat)
    requires Shaped(s) && gen < |s.owners|
  {
    var c := s.owners[gen];
    && c < |s.callers| && !s.callers[c].pc.Arrived? && s.callers[c].pc.gen == gen
    && (s.slot.inflight == Some(gen) <==> BeforeVacate(s.callers[c].pc) && gen + 1 == |s.owners|)
    && (s.slot.futures[gen].None? && gen + 1 < |s.owners| ==> s.callers[c].pc.Vacated?)
    && (if s.answers[gen].None? then s.slot.inflight == Some(gen)
        else s.answers[gen].value.Tokens? || s.answers[gen].value.WireError?)
    && (s.slot.futures[gen].Some? ==>
          || s.slot.futures[gen] == s.answers[gen]
          || (s.slot.futures[gen] == Some(BrokenPromise) && s.answers[gen].Some? && s.answers[gen].value.Tokens?))
  }

  // Wire calls start in the order of the generations, one for each.
  predicate CallsOk(s: State)
    requires Shaped(s)
  {
    && |s.calls| <= |s.owners|
    && (forall i :: 0 <= i < |s.calls| ==> s.calls[i] == i)
    && (forall gen :: |s.calls| <= gen < |s.owners| ==> gen + 1 == |s.owners| && s.answers[gen].None?)
  }

  ghost predicate Inv(s: State)
  {
    && Shaped(s) && CallsOk(s)
    && (s.slot.inflight.Some? ==> s.slot.inflight.value + 1 == |s.owners|)
    && (forall c: nat :: c < |s.callers| ==> CallerOk(s, c))
    && (forall gen: nat :: gen < |s.owners| ==> FlightOk(s, gen))
    && (forall c: nat :: c < |s.callers| ==> s.callers[c].over <= Settled(s.slot))
  }

  // A future once settled stays as it is, and the history only grows.
  predicate Extends(s: State, s': State)
    requires Shaped(s) && Shaped(s')
  {
    && |s.owners| <= |s'.owners| && |s.callers| <= |s'.callers|
    && (forall g :: 0 <= g < |s.owners| ==>
          && s'.owners[g] == s.owners[g]
          && (s.answers[g].Some? ==> s'.answers[g] == s.answers[g])
          && (s.slot.futures[g].Some? ==> s'.slot.futures[g] == s.slot.futures[g]))
  }

  lemma StepExtends(s: State, step: Step)
    requires Inv(s) && Next(s, step).Some?
    ensures Shaped(Next(s, step).value) && Extends(s, Next(s, step).value)
    ensures Settled(s.slot) <= Settled(Next(s, step).value.slot)
  {
    var s' := Next(s, step).value;
    if !step.Arrive? { assert CallerOk(s, step.c); }
    forall g | g in Settled(s.slot) ensures g in Settled(s'.slot) {
      assert s'.slot.futures[g].Some?;
    }
  }

  lemma CallsStep(s: State, step: Step)
    requires Inv(s) && Next(s, step).Some?
    ensures Shaped(Next(s, step).value) && CallsOk(Next(s, step).value)
  {
    if |s.calls| < |s.owners| {
      assert s.answers[|s.calls|].None? && FlightOk(s, |s.calls|);
    }
    if !step.Arrive? { assert CallerOk(s, step.c); }
  }

  lemma FlightStep(s: State, step: Step, gen: nat)
    requires Inv(s) && Next(s, step).Some?
    requires gen < |Next(s, step).value.owners|
    ensures Shaped(Next(s, step).value) && FlightOk(Next(s, step).value, gen)
  {
    if gen < |s.owners| { assert FlightOk(s, gen) && CallerOk(s, s.owners[gen]); }
    if s.slot.inflight.Some? { assert FlightOk(s, s.slot.inflight.value); }
    if !step.Arrive? { assert CallerOk(s, step.c); }
  }

  lemma MoverStep(s: State, step: Step)
    requires Inv(s) && Next(s, step).Some? && !step.Arrive?
    ensures Shaped(Next(s, step).value) && CallerOk(Next(s, step).value, step.c)
  {
    var pc := s.callers[step.c].pc;
    assert CallerOk(s, step.c);
    if |s.calls| < |s.owners| { assert s.answers[|s.calls|].None?; }
    if s.slot.inflight.Some? { assert FlightOk(s, s.slot.inflight.value); }
    if !pc.Arrived? { assert FlightOk(s, pc.gen); }
  }

  // What another caller's step may change of the flight a caller is still busy with: nothing.
  lemma BusyStep(s: State, step: Step, c: nat)
    requires Inv(s) && Next(s, step).Some? && c < |s.callers| && (step.Arrive? || step.c != c)
    requires var pc := s.callers[c].pc; pc.Owning? || pc.OnWire? || pc.Answered?
    ensures Shaped(Next(s, step).value) && CallerOk(Next(s, step).value, c)
  {
    assert CallerOk(s, c);
    if !step.Arrive? { assert CallerOk(s, step.c); }
    if |s.calls| < |s.owners| { assert s.answers[|s.calls|].None?; }
    assert Next(s, step).value.callers[c] == s.callers[c];
  }

  lemma OtherStep(s: State, step: Step, c: nat)
    requires Inv(s) && Next(s, step).Some? && c < |s.callers| && (step.Arrive? || step.c != c)
    ensures Shaped(Next(s, step).value) && CallerOk(Next(s, step).value, c)
  {
    var pc := s.callers[c].pc;
    if pc.Owning? || pc.OnWire? || pc.Answered? {
      BusyStep(s, step, c);
    } else {
      assert CallerOk(s, c);
      if !step.Arrive? { assert CallerOk(s, step.c); }
      StepExtends(s, step);
      assert Next(s, step).value.callers[c] == s.callers[c];
    }
  }

  lemma InvStep(s: State, step: Step)
    requires Inv(s) && Next(s, step).Some?
    ensures Inv(Next(s, step).value)
  {
    var s' := Next(s, step).value;
    StepExtends(s, step);
    CallsStep(s, step);
    forall c: nat | c < |s'.callers| ensures CallerOk(s', c) && s'.callers[c].over <= Settled(s'.slot) {
      if !step.Arrive? && step.c == c {
        MoverStep(s, step);
      } else if c < |s.callers| {
        OtherStep(s, step, c);
      }
    }
    forall gen: nat | gen < |s'.owners| ensures FlightOk(s', gen) {
      FlightStep(s, step, gen);
    }
  }

  // ---- safety, in every interleaving ----

  lemma {:induction false} InvExec(s: State, steps: seq<Step>)
    requires Inv(s) && Exec(s, steps).Some?
    ensures Inv(Exec(s, steps).value) && Extends(s, Exec(s, steps).value)
    decreases |steps|
  {
    if steps != [] {
      InvStep(s, steps[0]);
      StepExtends(s, steps[0]);
      InvExec(Next(s, steps[0]).value, steps[1..]);
    }
  }

  lemma Reachable(steps: seq<Step>)
    requires Exec(START, steps).Some?
    ensures Inv(Exec(START, steps).value)
  {
    InvExec(START, steps);
  }

  // Two callers are never on the wire at once.
  lemma AtMostOneWireCall(steps: seq<Step>, c: nat, d: nat)
    requires Exec(START, steps).Some?
    requires var s := Exec(START, steps).value;
             c < |s.callers| && d < |s.callers| && s.callers[c].pc.OnWire? && s.callers[d].pc.OnWire?
    ensures c == d
  {
    Reachable(steps);
    var s := Exec(START, steps).value;
    assert CallerOk(s, c) && CallerOk(s, d);
    assert FlightOk(s, s.callers[c].pc.gen) && FlightOk(s, s.callers[d].pc.gen);
  }

  // An empty or settled slot: every wire call so far is over, and its outcome published, unless
  // publishing it threw.
  lemma DeadSlotMeansPublished(steps: seq<Step>, gen: nat)
    requires Exec(START, steps).Some?
    requires var s := Exec(START, steps).value; !Live(s.slot) && gen < |s.owners|
    ensures var s := Exec(START, steps).value;
            && s.answers[gen].Some?
            && (s.slot.futures[gen].None? ==>
                  s.owners[gen] < |s.callers| && s.callers[s.owners[gen]].pc == Vacated(gen, NoMemory))
  {
    Reachable(steps);
    var s := Exec(START, steps).value;
    assert FlightOk(s, gen);
    assert CallerOk(s, s.owners[gen]);
    assert FlightOk(s, |s.owners| - 1);
  }

  // A live slot is emptied or settled by its own owner alone; a late owner's vacate leaves it be.
  lemma OnlyItsOwnerEndsIt(s: State, step: Step)
    requires Inv(s) && Next(s, step).Some? && Live(s.slot)
    ensures var s' := Next(s, step).value;
            || (Shaped(s') && Live(s'.slot) && s'.slot.inflight == s.slot.inflight)
            || ((step.Publish? || step.Vacate?) && step.c == s.owners[s.slot.inflight.value])
  {
    if step.Arrive? { return; }
    NextShaped(s, step);
    var gen := s.slot.inflight.value;
    assert FlightOk(s, gen);
    assert CallerOk(s, step.c);
    if !s.callers[step.c].pc.Arrived? { assert FlightOk(s, s.callers[step.c].pc.gen); }
  }

  lemma {:induction false} StaysJoined(s: State, steps: seq<Step>, c: nat)
    requires Inv(s) && Exec(s, steps).Some? && c < |s.callers| && (s.callers[c].pc.Joined? || s.callers[c].pc.Returned?)
    ensures c < |Exec(s, steps).value.callers|
    ensures var pc := Exec(s, steps).value.callers[c].pc;
            (pc.Joined? || pc.Returned?) && pc.gen == s.callers[c].pc.gen
    decreases |steps|
  {
    if steps != [] {
      InvStep(s, steps[0]);
      StaysJoined(Next(s, steps[0]).value, steps[1..], c);
    }
  }

  // A caller that joins returns the outcome of the call that was live when it joined: the very
  // one its owner got, except that a value its owner could not publish reaches it as a failure.
  // That call had not settled when the caller arrived.
  lemma JoinerServed(before: seq<Step>, c: nat, after: seq<Step>)
    requires Exec(START, before).Some?
    requires var s := Exec(START, before).value;
             && Next(s, Enter(c)).Some? && Next(s, Enter(c)).value.callers[c].pc.Joined?
             && Exec(Next(s, Enter(c)).value, after).Some?
             && c < |Exec(Next(s, Enter(c)).value, after).value.callers|
             && Exec(Next(s, Enter(c)).value, after).value.callers[c].pc.Returned?
    ensures var s := Exec(START, before).value;
            var s' := Exec(Next(s, Enter(c)).value, after).value;
            var pc := s'.callers[c].pc;
            && Live(s.slot) && s.slot.inflight == Some(pc.gen)
            && pc.gen < |s.owners| <= |s'.owners| && pc.gen !in s.callers[c].over && s'.owners[pc.gen] == s.owners[pc.gen] != c
            && (if pc.outcome.BrokenPromise? then s'.answers[pc.gen].Some? && s'.answers[pc.gen].value.Tokens?
                else s'.answers[pc.gen] == Some(pc.outcome))
            && OwnerAgrees(s', pc.gen, pc.outcome)
  {
    Reachable(before);
    var s := Exec(START, before).value;
    InvStep(s, Enter(c));
    var s1 := Next(s, Enter(c)).value;
    InvExec(s1, after);
    StaysJoined(s1, after, c);
    var s' := Exec(s1, after).value;
    var pc := s'.callers[c].pc;
    assert CallerOk(s1, c) && CallerOk(s', c) && FlightOk(s', pc.gen);
    assert CallerOk(s', s'.owners[pc.gen]);
  }

  // The owner of a flight, once back, brings the same outcome; or its allocation failure where
  // the others have the broken promise.
  predicate OwnerAgrees(s: State, gen: nat, o: Outcome)
    requires Shaped(s) && gen < |s.owners|
  {
    var d := s.owners[gen];
    d < |s.callers| && s.callers[d].pc.Returned? ==>
      if o.BrokenPromise? then s.callers[d].pc == Returned(gen, NoMemory) else s.callers[d].pc == Returned(gen, o)
  }

  // Nobody is served by a call that had settled before they arrived.
  lemma NeverServedStale(steps: seq<Step>, c: nat)
    requires Exec(START, steps).Some?
    requires var s := Exec(START, steps).value; c < |s.callers| && s.callers[c].pc.Returned?
    ensures var s := Exec(START, steps).value; s.callers[c].pc.gen !in s.callers[c].over
  {
    Reachable(steps);
    assert CallerOk(Exec(START, steps).value, c);
  }

  // ---- every caller returns ----

  function Remaining(pc: Pc): nat
  {
    match pc
    case Arrived => 6
    case Owning(_) => 5
    case OnWire(_) => 4
    case Answered(_, _) => 3
    case Published(_, _) => 2
    case Vacated(_, _) => 1
    case Joined(_) => 1
    case Returned(_, _) => 0
  }

  function Total(callers: seq<Caller>): nat
  {
    if callers == [] then 0 else Remaining(callers[0].pc) + Total(callers[1..])
  }

  lemma {:induction false} TotalUpdate(callers: seq<Caller>, c: nat, x: Caller)
    requires c < |callers|
    ensures Total(callers[c := x]) + Remaining(callers[c].pc) == Total(callers) + Remaining(x.pc)
  {
    if c == 0 {
      assert callers[0 := x][1..] == callers[1..];
    } else {
      assert callers[c := x][1..] == callers[1..][c - 1 := x];
      TotalUpdate(callers[1..], c - 1, x);
    }
  }

  // No run without new arrivals is longer than the steps its callers have left.
  lemma {:induction false} RunsEnd(s: State, steps: seq<Step>)
    requires Shaped(s) && Exec(s, steps).Some? && Arrive !in steps
    ensures |steps| + Total(Exec(s, steps).value.callers) <= Total(s.callers)
    decreases |steps|
  {
    if steps != [] {
      var c := steps[0].c;
      var s' := Next(s, steps[0]).value;
      TotalUpdate(s.callers, c, s'.callers[c]);
      RunsEnd(s', steps[1..]);
    }
  }

  // While a caller is still inside, some caller can move; a wire call only has to end.
  lemma SomeoneMoves(s: State, c: nat) returns (step: Step)
    requires Inv(s) && c < |s.callers| && !s.callers[c].pc.Returned?
    ensures !step.Arrive? && Next(s, step).Some?
  {
    assert CallerOk(s, c);
    match s.callers[c].pc
    case Arrived => step := Enter(c);
    case Owning(_) => step := Call(c);
    case OnWire(_) => step := Answer(c, Tokens(""));
    case Answered(_, _) => step := Publish(c);
    case Published(_, _) => step := Vacate(c);
    case Vacated(_, _) => step := Leave(c);
    case Joined(gen) =>
      if s.slot.futures[gen].Some? { return Wake(c); }
      assert FlightOk(s, gen);
      var d := s.owners[gen];
      assert CallerOk(s, d);
      match s.callers[d].pc {
        case Owning(_) => step := Call(d);
        case OnWire(_) => step := Answer(d, Tokens(""));
        case Answered(_, _) => step := Publish(d);
        case Published(_, _) => step := Vacate(d);
        case _ => step := Leave(d);
      }
  }

  // A run that cannot go on has every caller back, an empty slot, and one answered wire call for
  // each owner, in the order of their generations.
  lemma EveryCallerReturns(steps: seq<Step>)
    requires Exec(START, steps).Some?
    requires forall step: Step :: step.Arrive? || Next(Exec(START, steps).value, step).None?
    ensures var s := Exec(START, steps).value;
            && (forall c: nat :: c < |s.callers| ==> s.callers[c].pc.Returned?)
            && s.slot.inflight.None?
            && s.calls == seq(|s.owners|, i => i)
            && (forall gen :: 0 <= gen < |s.owners| ==> s.answers[gen].Some? && s.slot.futures[gen].Some?)
  {
    Reachable(steps);
    var s := Exec(START, steps).value;
    forall c: nat | c < |s.callers| ensures s.callers[c].pc.Returned? {
      if !s.callers[c].pc.Returned? { var step := SomeoneMoves(s, c); }
    }
    forall gen: nat | gen < |s.owners| ensures s.answers[gen].Some? && s.slot.futures[gen].Some? {
      assert FlightOk(s, gen);
      assert CallerOk(s, s.owners[gen]);
    }
    if s.owners != [] { assert FlightOk(s, |s.owners| - 1); }
  }
}
