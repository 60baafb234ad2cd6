// The bounded read-only retry: backoff, the Retry-After floor, and the loop that spends the budget
// and then, on a 401, one refresh and one more call.
module Retry {
  import opened Prelude
  import opened Text

  const MAX_ATTEMPTS := 3
  const BASE_DELAY := 200
  const MAX_DELAY := 5000
  const MAX_HINT_SECONDS := 3600

  function Min(a: int, b: int): int { if a <= b then a else b }
  function Max(a: int, b: int): int { if a >= b then a else b }

  // ---- backoff ----

  function Pow2(n: nat): (r: nat)
    ensures r >= 1
  {
    if n == 0 then 1 else 2 * Pow2(n - 1)
  }

  lemma {:induction false} Pow2Monotone(m: nat, n: nat)
    requires m <= n
    ensures Pow2(m) <= Pow2(n)
    decreases n
  {
    if m < n {
      Pow2Monotone(m, n - 1);
    }
  }

  // min(cap, base * 2^(attempt - 1)).
  function BackoffOf(attempt: int): int
  {
    Min(MAX_DELAY, BASE_DELAY * Pow2(Max(attempt, 1) - 1))
  }

  // The loop stops doubling once the cap is reached, and the answer is the same.
  method Backoff(attempt: int) returns (wait: int)
    ensures wait == BackoffOf(attempt)
  {
    var n := Max(attempt, 1);
    var delay := BASE_DELAY;
    var i := 1;
    while i < n && delay < MAX_DELAY
      invariant 1 <= i <= n
      invariant delay == BASE_DELAY * Pow2(i - 1)
    {
      delay := delay * 2;
      i := i + 1;
    }
    Pow2Monotone(i - 1, n - 1);
    wait := Min(delay, MAX_DELAY);
  }

  // Full jitter, and the hint as a floor. `fraction` is clamped to [0, 1].
  function Delay(attempt: int, hint: Option<int>, fraction: real): int
  {
    var clamped := if fraction < 0.0 then 0.0 else if fraction > 1.0 then 1.0 else fraction;
    var jittered := (BackoffOf(attempt) as real * clamped).Floor;
    if hint.None? then jittered else Max(jittered, hint.value)
  }

  lemma FloorScaled(n: int, f: real)
    requires n >= 0 && 0.0 <= f <= 1.0
    ensures 0 <= (n as real * f).Floor <= n
  {
    assert n as real * f <= n as real;
  }

  lemma DelayBounds(attempt: int, hint: Option<int>, fraction: real)
    ensures hint.Some? ==> hint.value <= Delay(attempt, hint, fraction)
    ensures hint.None? ==> 0 <= Delay(attempt, hint, fraction) <= BackoffOf(attempt)
    ensures hint.Some? ==> Delay(attempt, hint, fraction) <= Max(BackoffOf(attempt), hint.value)
  {
    var clamped := if fraction < 0.0 then 0.0 else if fraction > 1.0 then 1.0 else fraction;
    FloorScaled(BackoffOf(attempt), clamped);
  }

  // None when no response arrived at all.
  predicate ShouldRetry(status: Option<int>)
  {
    status.None? || status.value == 408 || status.value == 429 || 500 <= status.value <= 599
  }

  // ---- Retry-After ----

  predicate Digit(c: char) { '0' <= c <= '9' }

  predicate AllDigits(s: string) { forall i :: 0 <= i < |s| ==> Digit(s[i]) }

  function DigitsValue(s: string): nat
    requires AllDigits(s)
  {
    if s == "" then 0 else DigitsValue(s[..|s| - 1]) * 10 + (s[|s| - 1] as int - '0' as int)
  }

  const LLONG_MAX := 0x7fff_ffff_ffff_ffff

  // The header's hint in milliseconds. The date branch is left to `date`, its own outcome.
  function HintOf(value: string, date: Option<nat>): Option<int>
  {
    var raw := Trim(value);
    if raw == "" then None
    else if AllDigits(raw) then
      var seconds := Min(DigitsValue(raw), LLONG_MAX);
      Some(Min(seconds, MAX_HINT_SECONDS) * 1000)
    else if date.Some? then Some(Min(date.value, MAX_HINT_SECONDS * 1000)) else None
  }

  // A number of seconds as a server writes it.
  function Decimal(n: nat): (s: string)
    ensures s != "" && AllDigits(s)
  {
    var last := [('0' as int + n % 10) as char];
    if n < 10 then last else Decimal(n / 10) + last
  }

  lemma {:induction false} DecimalValue(n: nat)
    ensures DigitsValue(Decimal(n)) == n
  {
    var s := Decimal(n);
    if n >= 10 {
      DecimalValue(n / 10);
      assert s[..|s| - 1] == Decimal(n / 10);
    } else {
      assert s[..|s| - 1] == "";
    }
  }

  // Whole seconds, however many digits and however padded, come through as milliseconds up to an
  // hour.
  lemma SecondsHint(n: nat, left: nat, right: nat, date: Option<nat>)
    ensures HintOf(Blanks(left) + Decimal(n) + Blanks(right), date) == Some(Min(n, MAX_HINT_SECONDS) * 1000)
  {
    var d := Decimal(n);
    DecimalValue(n);
    assert Digit(d[0]) && Digit(d[|d| - 1]);
    assert Blanks(left) + d + Blanks(right) == Blanks(left) + (d + Blanks(right));
    TrimLeftBlanks(left, d + Blanks(right));
    TrimRightBlanks(right, d);
  }

  lemma HintBounded(value: string, date: Option<nat>)
    ensures HintOf(value, date).Some? ==> 0 <= HintOf(value, date).value <= MAX_HINT_SECONDS * 1000
  {
  }

  // ---- the loop ----

  datatype Header = Header(value: string, date: Option<nat>)

  datatype Reply = NoResponse | Response(status: int, retryAfter: Option<Header>)
  {
    function Status(): Option<int> { if NoResponse? then None else Some(status) }
    predicate Succeeded() { Response? && 200 <= status < 300 }
    function Hint(): Option<int>
    {
      if Response? && retryAfter.Some? then HintOf(retryAfter.value.value, retryAfter.value.date) else None
    }
  }

  datatype RefreshOutcome = RefreshOk | RefreshRefused | RefreshUnreachable

  datatype Error = TransportError | AuthError | AuthzError | NetworkError

  datatype Outcome = Answered(call: nat) | Raised(error: Error)

  datatype Event =
    | Start(call: nat)
    | Sent(call: nat)
    | End(call: nat)
    | Retrying(call: nat, wait: int)
    | Slept(wait: int)
    | RefreshCall(outcome: RefreshOutcome)

  // What the outside does: the reply to each wire call of the operation, by number from 1; the
  // jitter of each wait; whether a refreshable session is there; and how a refresh ends.
  datatype Outside = Outside(
    enabled: bool,
    replies: nat -> Reply,
    jitter: nat -> real,
    session: bool,
    refresh: RefreshOutcome)

  function ErrorOf(status: int): Error
  {
    if status == 401 then AuthError
    else if status == 403 || status == 409 then AuthzError
    else NetworkError
  }

  function RaiseFor(r: Reply): Outcome { Raised(if r.NoResponse? then TransportError else ErrorOf(r.status)) }

  function Budget(o: Outside): nat { if o.enabled then MAX_ATTEMPTS else 1 }

  function WaitAfter(o: Outside, attempt: nat): int
  {
    Delay(attempt, o.replies(attempt).Hint(), o.jitter(attempt))
  }

  // Once no retry is due: the answer, the error, or on a 401 a refresh and one more call.
  function Settle(o: Outside, attempt: nat): (seq<Event>, Outcome)
  {
    var r := o.replies(attempt);
    if r.Succeeded() then ([], Answered(attempt))
    else if r.Response? && r.status == 401 && o.session then
      if o.refresh.RefreshOk? then
        var again := o.replies(attempt + 1);
        var head := [RefreshCall(o.refresh), Start(attempt + 1), Sent(attempt + 1)];
        if again.NoResponse? then (head, Raised(TransportError))
        else (head + [End(attempt + 1)], if again.Succeeded() then Answered(attempt + 1) else RaiseFor(again))
      else ([RefreshCall(o.refresh)], Raised(if o.refresh.RefreshRefused? then AuthError else TransportError))
    else ([], RaiseFor(r))
  }

  predicate Retries(o: Outside, attempt: nat)
  {
    attempt < Budget(o) && ShouldRetry(o.replies(attempt).Status())
  }

  method ExecuteRetrying(o: Outside) returns (events: seq<Event>, outcome: Outcome)
    ensures var n := Attempts(o, 1); events == Rounds(o, 1, n) + Settle(o, n).0 && outcome == Settle(o, n).1
    // What is handed back is the last reply, and it is handed back exactly when that succeeded.
    ensures var n := Attempts(o, 1);
            var last := n + if Extra(o, n) then 1 else 0;
            && (outcome.Answered? <==> o.replies(last).Succeeded())
            && (outcome.Answered? ==> outcome.call == last)
  {
    var budget := Budget(o);
    var attempt := 1;
    ghost var n := Attempts(o, 1);
    events := [];
    while true
      invariant 1 <= attempt <= n && Attempts(o, attempt) == n
      invariant events + Rounds(o, attempt, n) == Rounds(o, 1, n)
      decreases n - attempt
    {
      ghost var before := events;
      events := events + [Start(attempt), Sent(attempt), End(attempt)];
      var reply := o.replies(attempt);
      if !(attempt < budget && ShouldRetry(reply.Status())) {
        assert Rounds(o, attempt, attempt) == [Start(attempt), Sent(attempt), End(attempt)];
        break;
      }
      var wait := Delay(attempt, reply.Hint(), o.jitter(attempt));
      events := events + [Retrying(attempt, wait), Slept(wait)];
      RoundsStep(o, attempt, n, before);
      attempt := attempt + 1;
    }
    var (tail, result) := Settle(o, attempt);
    events := events + tail;
    outcome := result;
    OutcomeIsLastReply(o);
  }

  lemma RoundsStep(o: Outside, attempt: nat, n: nat, before: seq<Event>)
    requires attempt < n
    ensures before + Rounds(o, attempt, n) ==
            before + [Start(attempt), Sent(attempt), End(attempt)]
            + [Retrying(attempt, WaitAfter(o, attempt)), Slept(WaitAfter(o, attempt))] + Rounds(o, attempt + 1, n)
  {
  }

  // The attempt at which the retries stop.
  function Attempts(o: Outside, attempt: nat): (n: nat)
    requires 1 <= attempt <= Budget(o)
    ensures attempt <= n <= Budget(o) && !Retries(o, n)
    ensures forall i :: attempt <= i < n ==> Retries(o, i)
    decreases Budget(o) - attempt
  {
    if Retries(o, attempt) then Attempts(o, attempt + 1) else attempt
  }

  // The events of the attempts from one to another, waits in between.
  function Rounds(o: Outside, from: nat, to: nat): seq<Event>
    decreases 1 + to - from
  {
    if from > to then []
    else
      [Start(from), Sent(from), End(from)]
      + (if from < to then [Retrying(from, WaitAfter(o, from)), Slept(WaitAfter(o, from))] + Rounds(o, from + 1, to) else [])
  }

  // ---- what a run spends ----

  function Starts(events: seq<Event>): seq<nat>
  {
    if events == [] then []
    else (if events[0].Start? then [events[0].call] else []) + Starts(events[1..])
  }

  function Calls(events: seq<Event>): seq<nat>
  {
    if events == [] then []
    else (if events[0].Sent? then [events[0].call] else []) + Calls(events[1..])
  }

  function Sleeps(events: seq<Event>): seq<int>
  {
    if events == [] then []
    else (if events[0].Slept? then [events[0].wait] else []) + Sleeps(events[1..])
  }

  lemma {:induction false} StartsAppended(a: seq<Event>, b: seq<Event>)
    ensures Starts(a + b) == Starts(a) + Starts(b)
  {
    if a == [] {
      assert a + b == b;
    } else {
      assert (a + b)[1..] == a[1..] + b;
      StartsAppended(a[1..], b);
    }
  }

  lemma {:induction false} CallsAppended(a: seq<Event>, b: seq<Event>)
    ensures Calls(a + b) == Calls(a) + Calls(b)
  {
    if a == [] {
      assert a + b == b;
    } else {
      assert (a + b)[1..] == a[1..] + b;
      CallsAppended(a[1..], b);
    }
  }

  lemma {:induction false} SleepsAppended(a: seq<Event>, b: seq<Event>)
    ensures Sleeps(a + b) == Sleeps(a) + Sleeps(b)
  {
    if a == [] {
      assert a + b == b;
    } else {
      assert (a + b)[1..] == a[1..] + b;
      SleepsAppended(a[1..], b);
    }
  }

  lemma Appended(a: seq<Event>, b: seq<Event>)
    ensures Starts(a + b) == Starts(a) + Starts(b)
    ensures Calls(a + b) == Calls(a) + Calls(b)
    ensures Sleeps(a + b) == Sleeps(a) + Sleeps(b)
  {
    StartsAppended(a, b);
    CallsAppended(a, b);
    SleepsAppended(a, b);
  }

  // One event, and whatever follows it.
  lemma First(e: Event, rest: seq<Event>)
    ensures Starts([e] + rest) == (if e.Start? then [e.call] else []) + Starts(rest)
    ensures Calls([e] + rest) == (if e.Sent? then [e.call] else []) + Calls(rest)
    ensures Sleeps([e] + rest) == (if e.Slept? then [e.wait] else []) + Sleeps(rest)
  {
    assert ([e] + rest)[1..] == rest;
  }

  // A round and the wait after it, and whatever follows them.
  lemma RoundThen(k: nat, rest: seq<Event>)
    ensures var e := [Start(k), Sent(k), End(k)] + rest;
            Starts(e) == [k] + Starts(rest) && Calls(e) == [k] + Calls(rest) && Sleeps(e) == Sleeps(rest)
  {
    assert [Start(k), Sent(k), End(k)] + rest == [Start(k)] + ([Sent(k)] + ([End(k)] + rest));
    First(End(k), rest);
    First(Sent(k), [End(k)] + rest);
    First(Start(k), [Sent(k)] + ([End(k)] + rest));
  }

  lemma WaitThen(k: nat, wait: int, rest: seq<Event>)
    ensures var e := [Retrying(k, wait), Slept(wait)] + rest;
            Starts(e) == Starts(rest) && Calls(e) == Calls(rest) && Sleeps(e) == [wait] + Sleeps(rest)
  {
    assert [Retrying(k, wait), Slept(wait)] + rest == [Retrying(k, wait)] + ([Slept(wait)] + rest);
    First(Slept(wait), rest);
    First(Retrying(k, wait), [Slept(wait)] + rest);
  }

  function UpTo(from: nat, to: nat): seq<nat>
    decreases 1 + to - from
  {
    if from > to then [] else [from] + UpTo(from + 1, to)
  }

  function WaitsFrom(o: Outside, from: nat, to: nat): seq<int>
    decreases 1 + to - from
  {
    if from >= to then [] else [WaitAfter(o, from)] + WaitsFrom(o, from + 1, to)
  }

  lemma {:induction false} RoundsSpend(o: Outside, from: nat, to: nat)
    requires from <= to
    ensures Starts(Rounds(o, from, to)) == UpTo(from, to)
    ensures Calls(Rounds(o, from, to)) == UpTo(from, to)
    ensures Sleeps(Rounds(o, from, to)) == WaitsFrom(o, from, to)
    decreases 1 + to - from
  {
    if from == to {
      assert Rounds(o, from, to) == [Start(from), Sent(from), End(from)] + [];
      RoundThen(from, []);
      assert UpTo(from + 1, to) == [];
    } else {
      var wait := WaitAfter(o, from);
      RoundsSpend(o, from + 1, to);
      WaitThen(from, wait, Rounds(o, from + 1, to));
      RoundThen(from, [Retrying(from, wait), Slept(wait)] + Rounds(o, from + 1, to));
    }
  }

  // The one call beyond the attempts: after a 401, a session that can refresh, and a refresh that
  // succeeded.
  predicate Extra(o: Outside, attempt: nat)
  {
    var r := o.replies(attempt);
    r.Response? && r.status == 401 && o.session && o.refresh.RefreshOk?
  }

  lemma SettleSpends(o: Outside, k: nat)
    ensures var e := Settle(o, k).0;
            var more := if Extra(o, k) then [k + 1] else [];
            Starts(e) == more && Calls(e) == more && Sleeps(e) == []
  {
    if Extra(o, k) {
      var again := o.replies(k + 1);
      var refresh := [RefreshCall(o.refresh)];
      var end := if again.NoResponse? then [] else [End(k + 1)];
      assert Settle(o, k).0 == refresh + ([Start(k + 1)] + ([Sent(k + 1)] + end));
      First(Sent(k + 1), end);
      First(Start(k + 1), [Sent(k + 1)] + end);
      First(RefreshCall(o.refresh), [Start(k + 1)] + ([Sent(k + 1)] + end));
      if again.Response? { First(End(k + 1), []); assert end == [End(k + 1)] + []; }
    }
  }

  ghost function EventsOf(o: Outside): seq<Event>
  {
    Rounds(o, 1, Attempts(o, 1)) + Settle(o, Attempts(o, 1)).0
  }

  function Total(waits: seq<int>): int { if waits == [] then 0 else waits[0] + Total(waits[1..]) }

  lemma {:induction false} UpToAppend(from: nat, to: nat)
    requires from <= to
    ensures UpTo(from, to) + [to + 1] == UpTo(from, to + 1)
    ensures |UpTo(from, to)| == to - from + 1
    decreases 1 + to - from
  {
    if from < to {
      UpToAppend(from + 1, to);
      assert [from] + UpTo(from + 1, to) + [to + 1] == [from] + (UpTo(from + 1, to) + [to + 1]);
    } else {
      assert UpTo(from + 1, to) == [] && UpTo(to + 2, to + 1) == [];
      assert UpTo(to + 1, to + 1) == [to + 1];
    }
  }

  // Wire calls are numbered 1, 2, ..., each announced by one start event; there are at most four,
  // and one more than the attempts only after a 401 and a refresh that succeeded. Every attempt
  // but the last met a reply that is retried.
  lemma CallsBounded(o: Outside)
    ensures var n := Attempts(o, 1);
            var calls := n + if Extra(o, n) then 1 else 0;
            && Calls(EventsOf(o)) == Starts(EventsOf(o)) == UpTo(1, calls) && |Calls(EventsOf(o))| == calls
            && n <= Budget(o) && calls <= 4 && (!o.enabled ==> calls <= 2)
            && (forall i :: 1 <= i < n ==> ShouldRetry(o.replies(i).Status()))
  {
    var n := Attempts(o, 1);
    RoundsSpend(o, 1, n);
    SettleSpends(o, n);
    Appended(Rounds(o, 1, n), Settle(o, n).0);
    UpToAppend(1, n);
    if Extra(o, n) {
      UpToAppend(1, n + 1);
    } else {
      assert UpTo(1, n) + [] == UpTo(1, n);
    }
    forall i | 1 <= i < n ensures ShouldRetry(o.replies(i).Status()) {
      assert Retries(o, i);
    }
  }

  // The answer handed back is the last reply, and it is handed back exactly when that succeeded.
  lemma OutcomeIsLastReply(o: Outside)
    ensures var n := Attempts(o, 1);
            var last := n + if Extra(o, n) then 1 else 0;
            var outcome := Settle(o, n).1;
            && (outcome.Answered? <==> o.replies(last).Succeeded())
            && (outcome.Answered? ==> outcome.call == last)
            && (o.replies(last).NoResponse? ==> outcome == Raised(TransportError))
            && (o.replies(last).Response? && o.replies(last).status == 401 && outcome == Raised(TransportError)
                ==> o.session && o.refresh.RefreshUnreachable?)
  {
  }

  // At most two sleeps; each no shorter than its reply's hint; 600 ms together without hints, and
  // never beyond the hints' own ceiling.
  lemma SleepsBounded(o: Outside)
    ensures var n := Attempts(o, 1);
            var sleeps := Sleeps(EventsOf(o));
            && |sleeps| == n - 1 <= 2
            && (forall i :: 0 <= i < |sleeps| ==> sleeps[i] == WaitAfter(o, i + 1))
            && (forall i :: 0 <= i < |sleeps| && o.replies(i + 1).Hint().Some? ==>
                  o.replies(i + 1).Hint().value <= sleeps[i])
            && ((forall k: nat :: o.replies(k).Hint().None?) ==> Total(sleeps) <= 600)
            && Total(sleeps) <= 2 * MAX_HINT_SECONDS * 1000
  {
    var n := Attempts(o, 1);
    RoundsSpend(o, 1, n);
    SettleSpends(o, n);
    Appended(Rounds(o, 1, n), Settle(o, n).0);
    var sleeps := Sleeps(EventsOf(o));
    assert sleeps == WaitsFrom(o, 1, n);
    FewWaits(o, n);
    WaitBounds(o, 1);
    WaitBounds(o, 2);
  }

  lemma WaitBounds(o: Outside, k: nat)
    ensures o.replies(k).Hint().Some? ==> o.replies(k).Hint().value <= WaitAfter(o, k)
    ensures o.replies(k).Hint().None? ==> WaitAfter(o, k) <= BackoffOf(k)
    ensures WaitAfter(o, k) <= MAX_HINT_SECONDS * 1000
  {
    DelayBounds(k, o.replies(k).Hint(), o.jitter(k));
    if o.replies(k).Hint().Some? {
      HintBounded(o.replies(k).retryAfter.value.value, o.replies(k).retryAfter.value.date);
    }
  }

  lemma FewWaits(o: Outside, n: nat)
    requires 1 <= n <= MAX_ATTEMPTS
    ensures WaitsFrom(o, 1, n) ==
            if n == 1 then [] else if n == 2 then [WaitAfter(o, 1)] else [WaitAfter(o, 1), WaitAfter(o, 2)]
    ensures Total(WaitsFrom(o, 1, n)) ==
            if n == 1 then 0 else if n == 2 then WaitAfter(o, 1) else WaitAfter(o, 1) + WaitAfter(o, 2)
  {
    assert WaitsFrom(o, 3, n) == [];
    assert WaitsFrom(o, 2, n) == if n <= 2 then [] else [WaitAfter(o, 2)];
    if n == 3 {
      assert WaitsFrom(o, 1, n)[1..] == [WaitAfter(o, 2)];
      assert Total([WaitAfter(o, 2)]) == WaitAfter(o, 2) by { assert [WaitAfter(o, 2)][1..] == []; }
    } else if n == 2 {
      assert WaitsFrom(o, 1, n)[1..] == [];
    }
  }
}
