// Who owns the native handles of an OPAQUE exchange: the state handle is consumed by one finish or
// released by one close, and the key-stretching handle is released once.
module OpaqueExchange {
  import opened Prelude

  // ---- the native library, counting what is done with each handle ----

  // `mismatches` counts calls of the other kind of exchange.
  datatype StateUse = StateUse(login: bool, finishes: nat, frees: nat, mismatches: nat)

  // `late` is set by a finish that is handed the handle after its release.
  datatype KsfUse = KsfUse(frees: nat, late: bool)

  datatype Ledger = Ledger(states: seq<StateUse>, ksfs: seq<KsfUse>)

  function Mismatch(s: StateUse, login: bool): nat { if s.login == login then 0 else 1 }

  function FreeState(l: Ledger, h: nat, login: bool): Ledger
    requires h < |l.states|
  {
    var s := l.states[h];
    l.(states := l.states[h := s.(frees := s.frees + 1, mismatches := s.mismatches + Mismatch(s, login))])
  }

  function FinishState(l: Ledger, h: nat, login: bool, k: nat): Ledger
    requires h < |l.states| && k < |l.ksfs|
  {
    var s := l.states[h];
    l.(states := l.states[h := s.(finishes := s.finishes + 1, mismatches := s.mismatches + Mismatch(s, login))],
       ksfs := l.ksfs[k := l.ksfs[k].(late := l.ksfs[k].late || l.ksfs[k].frees > 0)])
  }

  function FreeKsf(l: Ledger, k: nat): Ledger
    requires k < |l.ksfs|
  {
    l.(ksfs := l.ksfs[k := l.ksfs[k].(frees := l.ksfs[k].frees + 1)])
  }

  function NewState(l: Ledger, login: bool): (Ledger, nat)
  {
    (l.(states := l.states + [StateUse(login, 0, 0, 0)]), |l.states|)
  }

  function NewKsf(l: Ledger): (Ledger, nat)
  {
    (l.(ksfs := l.ksfs + [KsfUse(0, false)]), |l.ksfs|)
  }

  // ---- key-stretching parameters ----

  datatype KsfParams = KsfParams(
    ksf: string,
    memoryKib: Option<int>,
    iterations: Option<int>,
    parallelism: Option<int>,
    logN: Option<int>,
    r: Option<int>,
    p: Option<int>)

  datatype Refusal = Incomplete(field: string) | OutOfRange(field: string) | Unsupported | LibraryRejected | Spent | Failed

  predicate Within(v: Option<int>, lo: int, hi: int) { v.Some? && lo <= v.value <= hi }

  function CheckCost(field: string, v: Option<int>, lo: int, hi: int): Option<Refusal>
  {
    if v.None? then Some(Incomplete(field))
    else if v.value < lo || v.value > hi then Some(OutOfRange(field))
    else None
  }

  function FirstOf(a: Option<Refusal>, b: Option<Refusal>, c: Option<Refusal>): Option<Refusal>
  {
    if a.Some? then a else if b.Some? then b else c
  }

  // The costs the named function uses, in the order they are checked; no other function is known.
  // They are accepted exactly when the function is known and each is stated and in its band.
  function RefusedParams(params: KsfParams): (refused: Option<Refusal>)
    ensures refused.None? <==>
            || (params.ksf == "argon2id" && Within(params.memoryKib, 8192, 1048576)
                && Within(params.iterations, 1, 10) && Within(params.parallelism, 1, 16))
            || (params.ksf == "scrypt" && Within(params.logN, 14, 20)
                && Within(params.r, 1, 16) && Within(params.p, 1, 16))
  {
    if params.ksf == "argon2id" then
      FirstOf(CheckCost("memory_kib", params.memoryKib, 8192, 1048576),
              CheckCost("iterations", params.iterations, 1, 10),
              CheckCost("parallelism", params.parallelism, 1, 16))
    else if params.ksf == "scrypt" then
      FirstOf(CheckCost("log_n", params.logN, 14, 20),
              CheckCost("r", params.r, 1, 16),
              CheckCost("p", params.p, 1, 16))
    else Some(Unsupported)
  }

  // The library's handle, unless the parameters or the library refuse.
  function BuildKsf(l: Ledger, params: KsfParams, accepts: bool): (Ledger, Result<nat, Refusal>)
  {
    var refused := RefusedParams(params);
    if refused.Some? then (l, Err(refused.value))
    else if !accepts then (l, Err(LibraryRejected))
    else
      var (l', k) := NewKsf(l);
      (l', Ok(k))
  }

  // ---- the objects ----

  datatype Exchange = Exchange(alive: bool, state: Option<nat>, message: string, login: bool)

  datatype KsfHandle = KsfHandle(alive: bool, handle: Option<nat>)

  predicate Holds(l: Ledger, e: Exchange) { e.state.Some? ==> e.state.value < |l.states| }

  predicate HoldsKsf(l: Ledger, k: KsfHandle) { k.handle.Some? ==> k.handle.value < |l.ksfs| }

  function Close(l: Ledger, e: Exchange): (Ledger, Exchange)
    requires Holds(l, e)
  {
    (if e.state.Some? then FreeState(l, e.state.value, e.login) else l, e.(state := None, message := ""))
  }

  // Move assignment between two objects: what this one held is closed first.
  function MoveInto(l: Ledger, target: Exchange, source: Exchange): (Ledger, Exchange, Exchange)
    requires Holds(l, target)
  {
    (Close(l, target).0, source.(alive := target.alive), source.(state := None, message := ""))
  }

  function ReleaseKsf(l: Ledger, k: KsfHandle): Ledger
    requires HoldsKsf(l, k)
  {
    if k.handle.Some? then FreeKsf(l, k.handle.value) else l
  }

  // Refused parameters come out with nothing changed. From there on the new handle k is released on
  // every path, and the state handle is consumed unless there was none.
  function Finish(l: Ledger, e: Exchange, params: KsfParams, accepts: bool, opens: bool)
    : (Ledger, Exchange, Option<Refusal>)
    requires Holds(l, e)
  {
    var (l1, built) := BuildKsf(l, params, accepts);
    match built
    case Err(refusal) => (l1, e, Some(refusal))
    case Ok(k) =>
      if e.state.None? then (FreeKsf(l1, k), e, Some(Spent))
      else (FreeKsf(FinishState(l1, e.state.value, e.login, k), k), e.(state := None), if opens then None else Some(Failed))
  }

  // ---- the classes ----

  class Native {
    var states: seq<StateUse>
    var ksfs: seq<KsfUse>

    ghost function Contents(): Ledger
      reads this
    {
      Ledger(states, ksfs)
    }

    constructor ()
      ensures Contents() == Ledger([], [])
    {
      states, ksfs := [], [];
    }

    method Start(login: bool) returns (h: nat)
      modifies this
      ensures (Contents(), h) == NewState(old(Contents()), login)
    {
      h := |states|;
      states := states + [StateUse(login, 0, 0, 0)];
    }

    method Free(h: nat, login: bool)
      requires h < |states|
      modifies this
      ensures Contents() == FreeState(old(Contents()), h, login)
    {
      var s := states[h];
      states := states[h := s.(frees := s.frees + 1, mismatches := s.mismatches + Mismatch(s, login))];
    }

    method FinishWith(h: nat, login: bool, k: nat)
      requires h < |states| && k < |ksfs|
      modifies this
      ensures Contents() == FinishState(old(Contents()), h, login, k)
    {
      var s := states[h];
      states := states[h := s.(finishes := s.finishes + 1, mismatches := s.mismatches + Mismatch(s, login))];
      ksfs := ksfs[k := ksfs[k].(late := ksfs[k].late || ksfs[k].frees > 0)];
    }

    method MakeKsf(params: KsfParams, accepts: bool) returns (r: Result<nat, Refusal>)
      modifies this
      ensures (Contents(), r) == BuildKsf(old(Contents()), params, accepts)
    {
      var refused := RefusedParams(params);
      if refused.Some? { return Err(refused.value); }
      if !accepts { return Err(LibraryRejected); }
      r := Ok(|ksfs|);
      ksfs := ksfs + [KsfUse(0, false)];
    }

    method DropKsf(k: nat)
      requires k < |ksfs|
      modifies this
      ensures Contents() == FreeKsf(old(Contents()), k)
    {
      ksfs := ksfs[k := ksfs[k].(frees := ksfs[k].frees + 1)];
    }
  }

  class ExchangeObject {
    var lib: Native
    var state: Option<nat>
    var message: string
    var login: bool

    ghost function Contents(): Exchange
      reads this
    {
      Exchange(true, state, message, login)
    }

    constructor (native: Native, isLogin: bool, firstMessage: string)
      modifies native
      ensures lib == native && login == isLogin
      ensures (native.Contents(), state) ==
              (NewState(old(native.Contents()), isLogin).0, Some(NewState(old(native.Contents()), isLogin).1))
      ensures message == firstMessage
    {
      lib, login, message := native, isLogin, firstMessage;
      new;
      var h := native.Start(isLogin);
      state := Some(h);
    }

    method CloseExchange()
      requires Holds(lib.Contents(), Contents())
      modifies this`state, this`message, lib
      ensures (lib.Contents(), Contents()) == Close(old(lib.Contents()), old(Contents()))
    {
      if state.Some? {
        lib.Free(state.value, login);
      }
      state := None;
      message := "";
    }

    method Consume() returns (spent: Option<nat>)
      modifies this`state
      ensures spent == old(state) && state == None
    {
      spent := state;
      state := None;
    }

    // What this object held is closed in its own library; the source's library comes with the rest.
    method AssignFrom(other: ExchangeObject)
      requires Holds(lib.Contents(), Contents())
      modifies this, other, lib
      ensures other != this ==>
                && (old(lib).Contents(), Contents(), other.Contents()) ==
                   MoveInto(old(lib.Contents()), old(Contents()), old(other.Contents()))
                && lib == old(other.lib) && other.lib == old(other.lib)
      ensures other == this ==> lib == old(lib) && lib.Contents() == old(lib.Contents()) && Contents() == old(Contents())
    {
      if this != other {
        CloseExchange();
        lib := other.lib;
        state := other.state;
        message := other.message;
        login := other.login;
        other.state := None;
        other.message := "";
      }
    }

    method FinishExchange(params: KsfParams, accepts: bool, opens: bool) returns (refusal: Option<Refusal>)
      requires Holds(lib.Contents(), Contents())
      modifies this`state, lib
      ensures (lib.Contents(), Contents(), refusal) == Finish(old(lib.Contents()), old(Contents()), params, accepts, opens)
    {
      var built := lib.MakeKsf(params, accepts);
      if built.Err? { return Some(built.error); }
      var h := Consume();
      if h.None? {
        refusal := Some(Spent);
      } else {
        lib.FinishWith(h.value, login, built.value);
        refusal := if opens then None else Some(Failed);
      }
      lib.DropKsf(built.value);
    }
  }

  // ---- every run ----

  datatype World = World(ledger: Ledger, exchanges: seq<Exchange>, ksfs: seq<KsfHandle>)

  const NOTHING := World(Ledger([], []), [], [])

  // Exchanges move only between objects of one class. A null start makes no object.
  datatype Op =
    | Start(login: bool, message: string)
    | FinishOp(x: nat, params: KsfParams, accepts: bool, opens: bool)
    | MoveConstruct(x: nat)
    | MoveAssign(into: nat, x: nat)
    | CloseOp(x: nat)
    | Destroy(x: nat)
    | Build(params: KsfParams, accepts: bool)
    | KsfMoveConstruct(k: nat)
    | KsfMoveAssign(j: nat, k: nat)
    | KsfDestroy(k: nat)

  predicate Live(w: World, x: nat) { x < |w.exchanges| && w.exchanges[x].alive }

  predicate LiveKsf(w: World, k: nat) { k < |w.ksfs| && w.ksfs[k].alive }

  predicate WellHeld(w: World)
  {
    && (forall x :: 0 <= x < |w.exchanges| ==> Holds(w.ledger, w.exchanges[x]))
    && (forall k :: 0 <= k < |w.ksfs| ==> HoldsKsf(w.ledger, w.ksfs[k]))
  }

  // What a caller may do: use an object that is still there.
  predicate Allowed(w: World, op: Op)
  {
    match op
    case Start(_, _) => true
    case FinishOp(x, _, _, _) => Live(w, x)
    case MoveConstruct(x) => Live(w, x)
    case MoveAssign(y, x) => Live(w, x) && Live(w, y) && w.exchanges[x].login == w.exchanges[y].login
    case CloseOp(x) => Live(w, x)
    case Destroy(x) => Live(w, x)
    case Build(_, _) => true
    case KsfMoveConstruct(k) => LiveKsf(w, k)
    case KsfMoveAssign(j, k) => LiveKsf(w, j) && LiveKsf(w, k)
    case KsfDestroy(k) => LiveKsf(w, k)
  }

  function SetExchange(w: World, l: Ledger, x: nat, e: Exchange): World
    requires x < |w.exchanges|
  {
    w.(ledger := l, exchanges := w.exchanges[x := e])
  }

  function Do(w: World, op: Op): World
    requires WellHeld(w) && Allowed(w, op)
  {
    match op
    case Start(login, message) =>
      var (l, h) := NewState(w.ledger, login);
      w.(ledger := l, exchanges := w.exchanges + [Exchange(true, Some(h), message, login)])
    case FinishOp(x, params, accepts, opens) =>
      var (l, e, _) := Finish(w.ledger, w.exchanges[x], params, accepts, opens);
      SetExchange(w, l, x, e)
    case MoveConstruct(x) =>
      var e := w.exchanges[x];
      w.(exchanges := w.exchanges[x := e.(state := None, message := "")] + [e])
    case MoveAssign(y, x) =>
      if x == y then w
      else
        var (l, t, s) := MoveInto(w.ledger, w.exchanges[y], w.exchanges[x]);
        w.(ledger := l, exchanges := w.exchanges[y := t][x := s])
    case CloseOp(x) =>
      var (l, e) := Close(w.ledger, w.exchanges[x]);
      SetExchange(w, l, x, e)
    case Destroy(x) =>
      var (l, e) := Close(w.ledger, w.exchanges[x]);
      SetExchange(w, l, x, e.(alive := false))
    case Build(params, accepts) =>
      var (l, built) := BuildKsf(w.ledger, params, accepts);
      if built.Err? then w else w.(ledger := l, ksfs := w.ksfs + [KsfHandle(true, Some(built.value))])
    case KsfMoveConstruct(k) =>
      w.(ksfs := w.ksfs[k := w.ksfs[k].(handle := None)] + [w.ksfs[k]])
    case KsfMoveAssign(j, k) =>
      if j == k then w
      else
        w.(ledger := ReleaseKsf(w.ledger, w.ksfs[j]), ksfs := w.ksfs[j := w.ksfs[k]][k := w.ksfs[k].(handle := None)])
    case KsfDestroy(k) =>
      w.(ledger := ReleaseKsf(w.ledger, w.ksfs[k]), ksfs := w.ksfs[k := KsfHandle(false, None)])
  }

  // ---- ownership, for one kind of handle ----

  // holders[i] is what the i-th object holds; used[h] counts how often h was finished or released.
  ghost predicate Owned(holders: seq<Option<nat>>, used: seq<nat>)
  {
    && (forall h :: 0 <= h < |used| ==> used[h] <= 1)
    && (forall i :: 0 <= i < |holders| && holders[i].Some? ==>
          holders[i].value < |used| && used[holders[i].value] == 0)
    && (forall i, j :: 0 <= i < j < |holders| && holders[i].Some? ==> holders[i] != holders[j])
    && (forall h: nat :: h < |used| && used[h] == 0 ==> Some(h) in holders)
  }

  lemma OwnedNew(holders: seq<Option<nat>>, used: seq<nat>)
    requires Owned(holders, used)
    ensures Owned(holders + [Some(|used|)], used + [0])
  {
    var holders', used' := holders + [Some(|used|)], used + [0];
    forall h: nat | h < |used'| && used'[h] == 0 ensures Some(h) in holders' {
      if h < |used| { assert Some(h) in holders; }
    }
  }

  // A handle that is made, used and released within one call.
  lemma OwnedPassing(holders: seq<Option<nat>>, used: seq<nat>)
    requires Owned(holders, used)
    ensures Owned(holders, used + [1])
  {
  }

  lemma OwnedSpend(holders: seq<Option<nat>>, used: seq<nat>, i: nat)
    requires Owned(holders, used) && i < |holders| && holders[i].Some?
    ensures Owned(holders[i := None], used[holders[i].value := 1])
  {
    var h0 := holders[i].value;
    forall h: nat | h < |used| && used[h0 := 1][h] == 0 ensures Some(h) in holders[i := None] {
      assert Some(h) in holders;
      var j :| 0 <= j < |holders| && holders[j] == Some(h);
      assert holders[i := None][j] == Some(h);
    }
  }

  lemma OwnedAppend(holders: seq<Option<nat>>, used: seq<nat>, i: nat)
    requires Owned(holders, used) && i < |holders|
    ensures Owned(holders[i := None] + [holders[i]], used)
  {
    var holders' := holders[i := None] + [holders[i]];
    forall h: nat | h < |used| && used[h] == 0 ensures Some(h) in holders' {
      assert Some(h) in holders;
      var j :| 0 <= j < |holders| && holders[j] == Some(h);
      assert holders'[if j == i then |holders| else j] == Some(h);
    }
  }

  lemma OwnedTransfer(holders: seq<Option<nat>>, used: seq<nat>, i: nat, j: nat)
    requires Owned(holders, used) && i < |holders| && j < |holders| && i != j && holders[j].None?
    ensures Owned(holders[j := holders[i]][i := None], used)
  {
    var holders' := holders[j := holders[i]][i := None];
    forall h: nat | h < |used| && used[h] == 0 ensures Some(h) in holders' {
      assert Some(h) in holders;
      var x :| 0 <= x < |holders| && holders[x] == Some(h);
      assert holders'[if x == i then j else x] == Some(h);
    }
  }

  // ---- the invariant ----

  function StateHolders(w: World): seq<Option<nat>>
  {
    seq(|w.exchanges|, i requires 0 <= i < |w.exchanges| => w.exchanges[i].state)
  }

  function StateUsed(l: Ledger): seq<nat>
  {
    seq(|l.states|, h requires 0 <= h < |l.states| => l.states[h].finishes + l.states[h].frees)
  }

  function KsfHolders(w: World): seq<Option<nat>>
  {
    seq(|w.ksfs|, i requires 0 <= i < |w.ksfs| => w.ksfs[i].handle)
  }

  function KsfUsed(l: Ledger): seq<nat>
  {
    seq(|l.ksfs|, k requires 0 <= k < |l.ksfs| => l.ksfs[k].frees)
  }

  // Every call on a handle was of its own kind, and no finish saw a released key-stretching handle.
  predicate CleanLedger(l: Ledger)
  {
    && (forall h :: 0 <= h < |l.states| ==> l.states[h].mismatches == 0)
    && (forall k :: 0 <= k < |l.ksfs| ==> !l.ksfs[k].late)
  }

  predicate ExchangeOk(l: Ledger, e: Exchange)
  {
    e.state.Some? ==> e.alive && e.state.value < |l.states| && l.states[e.state.value].login == e.login
  }

  predicate ObjectsOk(w: World)
  {
    && (forall x :: 0 <= x < |w.exchanges| ==> ExchangeOk(w.ledger, w.exchanges[x]))
    && (forall k :: 0 <= k < |w.ksfs| && w.ksfs[k].handle.Some? ==>
          w.ksfs[k].alive && w.ksfs[k].handle.value < |w.ledger.ksfs|)
  }

  ghost predicate Inv(w: World)
  {
    && CleanLedger(w.ledger) && ObjectsOk(w)
    && Owned(StateHolders(w), StateUsed(w.ledger)) && Owned(KsfHolders(w), KsfUsed(w.ledger))
  }

  lemma InvHeld(w: World)
    requires Inv(w)
    ensures WellHeld(w)
  {
  }

  // ---- each operation keeps it ----

  // Spending what exchange x holds, by a finish or a release.
  lemma StateSpent(w: World, w': World, x: nat)
    requires Inv(w) && x < |w.exchanges| && w.exchanges[x].state.Some?
    requires StateHolders(w') == StateHolders(w)[x := None]
    requires StateUsed(w'.ledger) == StateUsed(w.ledger)[w.exchanges[x].state.value := 1]
    ensures Owned(StateHolders(w'), StateUsed(w'.ledger))
  {
    assert StateHolders(w)[x] == w.exchanges[x].state;
    OwnedSpend(StateHolders(w), StateUsed(w.ledger), x);
  }

  lemma ClosedStates(w: World, w': World, x: nat)
    requires Inv(w) && x < |w.exchanges|
    requires StateUsed(w'.ledger) == StateUsed(Close(w.ledger, w.exchanges[x]).0)
    requires StateHolders(w') == StateHolders(w)[x := None]
    ensures Owned(StateHolders(w'), StateUsed(w'.ledger))
  {
    var e := w.exchanges[x];
    assert StateHolders(w)[x] == e.state;
    if e.state.Some? {
      assert StateUsed(w.ledger)[e.state.value] == 0;
      assert StateUsed(Close(w.ledger, e).0) == StateUsed(w.ledger)[e.state.value := 1];
      StateSpent(w, w', x);
    } else {
      assert StateHolders(w') == StateHolders(w);
    }
  }

  lemma FinishStates(w: World, op: Op)
    requires Inv(w) && op.FinishOp? && Allowed(w, op)
    ensures WellHeld(w) && Owned(StateHolders(Do(w, op)), StateUsed(Do(w, op).ledger))
  {
    var w' := Do(w, op);
    var e := w.exchanges[op.x];
    assert StateHolders(w)[op.x] == e.state;
    if e.state.Some? && BuildKsf(w.ledger, op.params, op.accepts).1.Ok? {
      assert StateUsed(w.ledger)[e.state.value] == 0;
      assert StateUsed(w'.ledger) == StateUsed(w.ledger)[e.state.value := 1];
      assert StateHolders(w') == StateHolders(w)[op.x := None];
      StateSpent(w, w', op.x);
    } else {
      assert StateUsed(w'.ledger) == StateUsed(w.ledger);
      assert StateHolders(w') == StateHolders(w);
    }
  }

  lemma MovedStates(w: World, op: Op)
    requires Inv(w) && (op.MoveConstruct? || op.MoveAssign?) && Allowed(w, op)
    ensures WellHeld(w) && Owned(StateHolders(Do(w, op)), StateUsed(Do(w, op).ledger))
  {
    var w' := Do(w, op);
    var holders, used := StateHolders(w), StateUsed(w.ledger);
    if op.MoveConstruct? {
      assert StateHolders(w') == holders[op.x := None] + [holders[op.x]];
      OwnedAppend(holders, used, op.x);
    } else if op.x != op.into {
      var closed := SetExchange(w, Close(w.ledger, w.exchanges[op.into]).0, op.into, Close(w.ledger, w.exchanges[op.into]).1);
      assert StateHolders(closed) == holders[op.into := None];
      ClosedStates(w, closed, op.into);
      OwnedTransfer(StateHolders(closed), StateUsed(closed.ledger), op.x, op.into);
      assert StateHolders(w') == StateHolders(closed)[op.into := StateHolders(closed)[op.x]][op.x := None];
    }
  }

  lemma StatesStep(w: World, op: Op)
    requires Inv(w) && Allowed(w, op)
    ensures WellHeld(w) && Owned(StateHolders(Do(w, op)), StateUsed(Do(w, op).ledger))
  {
    var w' := Do(w, op);
    match op
    case Start(_, _) =>
      assert StateHolders(w') == StateHolders(w) + [Some(|StateUsed(w.ledger)|)];
      assert StateUsed(w'.ledger) == StateUsed(w.ledger) + [0];
      OwnedNew(StateHolders(w), StateUsed(w.ledger));
    case FinishOp(_, _, _, _) => FinishStates(w, op);
    case MoveConstruct(_) => MovedStates(w, op);
    case MoveAssign(_, _) => MovedStates(w, op);
    case CloseOp(x) =>
      assert StateHolders(w') == StateHolders(w)[x := None];
      ClosedStates(w, w', x);
    case Destroy(x) =>
      assert StateHolders(w') == StateHolders(w)[x := None];
      ClosedStates(w, w', x);
    case _ =>
      assert StateHolders(w') == StateHolders(w) && StateUsed(w'.ledger) == StateUsed(w.ledger);
  }

  lemma ReleasedKsfs(w: World, w': World, k: nat)
    requires Inv(w) && k < |w.ksfs| && HoldsKsf(w.ledger, w.ksfs[k])
    requires w'.ledger == ReleaseKsf(w.ledger, w.ksfs[k]) && KsfHolders(w') == KsfHolders(w)[k := None]
    ensures Owned(KsfHolders(w'), KsfUsed(w'.ledger))
  {
    var handle := w.ksfs[k].handle;
    assert KsfHolders(w)[k] == handle;
    if handle.Some? {
      assert KsfUsed(w.ledger)[handle.value] == 0;
      assert KsfUsed(w'.ledger) == KsfUsed(w.ledger)[handle.value := 1];
      OwnedSpend(KsfHolders(w), KsfUsed(w.ledger), k);
    } else {
      assert KsfHolders(w') == KsfHolders(w);
    }
  }

  lemma FinishKsfs(w: World, op: Op)
    requires Inv(w) && op.FinishOp? && Allowed(w, op)
    ensures WellHeld(w) && Owned(KsfHolders(Do(w, op)), KsfUsed(Do(w, op).ledger))
  {
    var w' := Do(w, op);
    assert KsfHolders(w') == KsfHolders(w);
    if BuildKsf(w.ledger, op.params, op.accepts).1.Ok? {
      assert KsfUsed(w'.ledger) == KsfUsed(w.ledger) + [1];
      OwnedPassing(KsfHolders(w), KsfUsed(w.ledger));
    } else {
      assert KsfUsed(w'.ledger) == KsfUsed(w.ledger);
    }
  }

  lemma MovedKsfs(w: World, op: Op)
    requires Inv(w) && (op.KsfMoveConstruct? || op.KsfMoveAssign?) && Allowed(w, op)
    ensures WellHeld(w) && Owned(KsfHolders(Do(w, op)), KsfUsed(Do(w, op).ledger))
  {
    var w' := Do(w, op);
    var holders, used := KsfHolders(w), KsfUsed(w.ledger);
    if op.KsfMoveConstruct? {
      assert KsfHolders(w') == holders[op.k := None] + [holders[op.k]];
      OwnedAppend(holders, used, op.k);
    } else if op.j != op.k {
      var released := w.(ledger := ReleaseKsf(w.ledger, w.ksfs[op.j]), ksfs := w.ksfs[op.j := w.ksfs[op.j].(handle := None)]);
      assert KsfHolders(released) == holders[op.j := None];
      ReleasedKsfs(w, released, op.j);
      OwnedTransfer(KsfHolders(released), KsfUsed(released.ledger), op.k, op.j);
      assert KsfHolders(w') == KsfHolders(released)[op.j := KsfHolders(released)[op.k]][op.k := None];
    }
  }

  lemma KsfsStep(w: World, op: Op)
    requires Inv(w) && Allowed(w, op)
    ensures WellHeld(w) && Owned(KsfHolders(Do(w, op)), KsfUsed(Do(w, op).ledger))
  {
    var w' := Do(w, op);
    match op
    case Build(params, accepts) =>
      if BuildKsf(w.ledger, params, accepts).1.Ok? {
        assert KsfHolders(w') == KsfHolders(w) + [Some(|KsfUsed(w.ledger)|)];
        assert KsfUsed(w'.ledger) == KsfUsed(w.ledger) + [0];
        OwnedNew(KsfHolders(w), KsfUsed(w.ledger));
      }
    case FinishOp(_, _, _, _) => FinishKsfs(w, op);
    case KsfMoveConstruct(_) => MovedKsfs(w, op);
    case KsfMoveAssign(_, _) => MovedKsfs(w, op);
    case KsfDestroy(k) =>
      assert KsfHolders(w') == KsfHolders(w)[k := None];
      ReleasedKsfs(w, w', k);
    case _ =>
      assert KsfHolders(w') == KsfHolders(w) && KsfUsed(w'.ledger) == KsfUsed(w.ledger);
  }

  lemma CleanStep(w: World, op: Op)
    requires Inv(w) && Allowed(w, op)
    ensures WellHeld(w) && CleanLedger(Do(w, op).ledger)
  {
    InvHeld(w);
  }

  // The handles known to the ledger stay known, each of its own kind.
  lemma LedgerGrows(w: World, op: Op)
    requires Inv(w) && Allowed(w, op)
    ensures WellHeld(w)
    ensures var l, l' := w.ledger, Do(w, op).ledger;
            && |l.states| <= |l'.states| && |l.ksfs| <= |l'.ksfs|
            && (forall h :: 0 <= h < |l.states| ==> l'.states[h].login == l.states[h].login)
  {
    InvHeld(w);
  }

  lemma ExchangesStep(w: World, op: Op, x: nat)
    requires Inv(w) && Allowed(w, op) && WellHeld(w) && x < |Do(w, op).exchanges|
    ensures ExchangeOk(Do(w, op).ledger, Do(w, op).exchanges[x])
  {
    LedgerGrows(w, op);
    if x < |w.exchanges| { assert ExchangeOk(w.ledger, w.exchanges[x]); }
    if op.MoveConstruct? || op.MoveAssign? { assert ExchangeOk(w.ledger, w.exchanges[op.x]); }
  }

  lemma KsfObjectsStep(w: World, op: Op, k: nat)
    requires Inv(w) && Allowed(w, op) && WellHeld(w) && k < |Do(w, op).ksfs|
    ensures var h := Do(w, op).ksfs[k];
            h.handle.Some? ==> h.alive && h.handle.value < |Do(w, op).ledger.ksfs|
  {
    LedgerGrows(w, op);
  }

  lemma ObjectsStep(w: World, op: Op)
    requires Inv(w) && Allowed(w, op)
    ensures WellHeld(w) && ObjectsOk(Do(w, op))
  {
    InvHeld(w);
    var w' := Do(w, op);
    forall x: nat | x < |w'.exchanges| ensures ExchangeOk(w'.ledger, w'.exchanges[x]) {
      ExchangesStep(w, op, x);
    }
    forall k: nat | k < |w'.ksfs| && w'.ksfs[k].handle.Some?
      ensures w'.ksfs[k].alive && w'.ksfs[k].handle.value < |w'.ledger.ksfs|
    {
      KsfObjectsStep(w, op, k);
    }
  }

  lemma InvStep(w: World, op: Op)
    requires Inv(w) && Allowed(w, op)
    ensures WellHeld(w) && Inv(Do(w, op))
  {
    StatesStep(w, op);
    KsfsStep(w, op);
    CleanStep(w, op);
    ObjectsStep(w, op);
  }

  // ---- the whole run ----

  ghost predicate Runs(w: World, ops: seq<Op>)
    requires Inv(w)
    decreases |ops|
  {
    ops == [] || (Allowed(w, ops[0]) && (InvStep(w, ops[0]); Runs(Do(w, ops[0]), ops[1..])))
  }

  ghost function After(w: World, ops: seq<Op>): (w': World)
    requires Inv(w) && Runs(w, ops)
    ensures Inv(w')
    decreases |ops|
  {
    if ops == [] then w
    else
      InvStep(w, ops[0]);
      After(Do(w, ops[0]), ops[1..])
  }

  // Whatever is started, finished, moved, closed and destroyed, refused and failed on the way: a
  // state handle is finished once or released once, never both, by a call of its own kind; while
  // it is neither, exactly one object that is still there holds it.
  lemma StateHandlesOwnedOnce(ops: seq<Op>, h: nat)
    requires Runs(NOTHING, ops) && h < |After(NOTHING, ops).ledger.states|
    ensures var w := After(NOTHING, ops);
            var u := w.ledger.states[h];
            && u.finishes + u.frees <= 1 && u.mismatches == 0
            && (u.finishes + u.frees == 0 <==> exists x :: 0 <= x < |w.exchanges| && w.exchanges[x].state == Some(h))
            && (forall x :: 0 <= x < |w.exchanges| && w.exchanges[x].state == Some(h) ==> w.exchanges[x].alive)
            && (forall x, y :: 0 <= x < y < |w.exchanges| && w.exchanges[x].state == Some(h) ==> w.exchanges[y].state != Some(h))
  {
    var w := After(NOTHING, ops);
    var holders, used := StateHolders(w), StateUsed(w.ledger);
    assert used[h] == w.ledger.states[h].finishes + w.ledger.states[h].frees;
    assert forall x :: 0 <= x < |w.exchanges| ==> holders[x] == w.exchanges[x].state;
    if used[h] == 0 {
      assert Some(h) in holders;
      var x :| 0 <= x < |holders| && holders[x] == Some(h);
      assert w.exchanges[x].state == Some(h);
    }
  }

  // Once every object is destroyed each state handle has been finished or released, and each
  // key-stretching handle released, exactly once; none was used after its release.
  lemma NothingLeaks(ops: seq<Op>)
    requires Runs(NOTHING, ops)
    requires forall x :: 0 <= x < |After(NOTHING, ops).exchanges| ==> !After(NOTHING, ops).exchanges[x].alive
    requires forall k :: 0 <= k < |After(NOTHING, ops).ksfs| ==> !After(NOTHING, ops).ksfs[k].alive
    ensures var l := After(NOTHING, ops).ledger;
            && (forall h :: 0 <= h < |l.states| ==> l.states[h].finishes + l.states[h].frees == 1)
            && (forall k :: 0 <= k < |l.ksfs| ==> l.ksfs[k].frees == 1 && !l.ksfs[k].late)
  {
    var w := After(NOTHING, ops);
    forall h: nat | h < |w.ledger.states| ensures w.ledger.states[h].finishes + w.ledger.states[h].frees == 1 {
      assert StateUsed(w.ledger)[h] == w.ledger.states[h].finishes + w.ledger.states[h].frees;
      assert Some(h) !in StateHolders(w);
    }
    forall k: nat | k < |w.ledger.ksfs| ensures w.ledger.ksfs[k].frees == 1 {
      assert KsfUsed(w.ledger)[k] == w.ledger.ksfs[k].frees;
      assert Some(k) !in KsfHolders(w);
    }
  }

  // A refused key-stretching function leaves everything as it was: the exchange can be finished
  // yet, or closed. Any other finish ends it, and only the first of those reaches the library.
  lemma RefusalLeavesExchange(w: World, x: nat, params: KsfParams, accepts: bool, opens: bool)
    requires Inv(w) && Live(w, x)
    ensures WellHeld(w)
    ensures var (l, e, refusal) := Finish(w.ledger, w.exchanges[x], params, accepts, opens);
            if RefusedParams(params).Some? || !accepts
            then l == w.ledger && e == w.exchanges[x] && refusal.Some? && !refusal.value.Spent? && !refusal.value.Failed?
            else e.state.None? && (refusal == Some(Spent) <==> w.exchanges[x].state.None?)
  {
  }

  predicate RefusedFinish(op: Op, x: nat)
  {
    op.FinishOp? && op.x == x && (RefusedParams(op.params).Some? || !op.accepts)
  }

  predicate AcceptedFinish(op: Op, x: nat)
  {
    op.FinishOp? && op.x == x && RefusedParams(op.params).None? && op.accepts
  }

  // Uses are only ever added.
  lemma UsesGrow(w: World, op: Op)
    requires Inv(w) && Allowed(w, op)
    ensures WellHeld(w)
    ensures var l, l' := w.ledger, Do(w, op).ledger;
            |l.states| <= |l'.states| && forall h :: 0 <= h < |l.states| ==>
              l.states[h].finishes <= l'.states[h].finishes && l.states[h].frees <= l'.states[h].frees
  {
    InvHeld(w);
  }

  // A handle finished once is never touched again.
  lemma {:induction false} FinishedStays(w: World, ops: seq<Op>, h: nat)
    requires Inv(w) && Runs(w, ops) && h < |w.ledger.states| && w.ledger.states[h].finishes == 1
    ensures h < |After(w, ops).ledger.states|
    ensures After(w, ops).ledger.states[h].finishes == 1 && After(w, ops).ledger.states[h].frees == 0
    decreases |ops|
  {
    assert StateUsed(w.ledger)[h] == w.ledger.states[h].finishes + w.ledger.states[h].frees;
    if ops != [] {
      var w' := Do(w, ops[0]);
      InvStep(w, ops[0]);
      UsesGrow(w, ops[0]);
      assert StateUsed(w'.ledger)[h] == w'.ledger.states[h].finishes + w'.ledger.states[h].frees;
      FinishedStays(w', ops[1..], h);
    }
  }

  lemma AcceptedSpends(w: World, x: nat, h: nat, last: Op)
    requires Inv(w) && Live(w, x) && w.exchanges[x].state == Some(h) && AcceptedFinish(last, x)
    ensures h < |Do(w, last).ledger.states|
    ensures Do(w, last).ledger.states[h].finishes == 1 && Do(w, last).ledger.states[h].frees == 0
  {
    assert StateHolders(w)[x] == Some(h);
    assert StateUsed(w.ledger)[h] == 0;
    assert w.ledger.states[h].finishes + w.ledger.states[h].frees == 0;
  }

  // However many finishes were refused for their parameters, the first accepted one consumes the
  // state handle, and nothing that follows finishes or releases it again.
  lemma {:induction false} RefusedThenFinished(w: World, x: nat, h: nat, tries: seq<Op>, last: Op, later: seq<Op>)
    requires Inv(w) && Live(w, x) && w.exchanges[x].state == Some(h)
    requires forall op :: op in tries ==> RefusedFinish(op, x)
    requires AcceptedFinish(last, x) && Runs(w, tries + [last] + later)
    ensures var w' := After(w, tries + [last] + later);
            h < |w'.ledger.states| && w'.ledger.states[h].finishes == 1 && w'.ledger.states[h].frees == 0
    decreases |tries|
  {
    var ops := tries + [last] + later;
    InvStep(w, ops[0]);
    if tries == [] {
      assert ops[0] == last && ops[1..] == later;
      AcceptedSpends(w, x, h, last);
      FinishedStays(Do(w, last), later, h);
    } else {
      assert ops[0] == tries[0] && ops[1..] == tries[1..] + [last] + later;
      assert RefusedFinish(tries[0], x);
      RefusalLeavesExchange(w, x, tries[0].params, tries[0].accepts, tries[0].opens);
      assert w.exchanges[x := w.exchanges[x]] == w.exchanges;
      assert Do(w, tries[0]) == w;
      RefusedThenFinished(w, x, h, tries[1..], last, later);
    }
  }
}
