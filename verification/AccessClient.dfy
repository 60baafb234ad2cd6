// check_access and the calls around it that change who the client speaks for: what a memo hit
// may be trusted for.
module AccessClient {
  import opened Prelude
  import opened DecisionMemo

  // ---- the memo key ----

  // An access question as the key sees it: the four parts of the call and the acting tenant.
  datatype Question = Question(
    subject: Option<string>,
    resource: string,
    action: string,
    scope: Option<string>,
    acting: Option<string>)

  const SEPARATOR: char := 31 as char
  const ABSENT: string := [1 as char]

  function Part(o: Option<string>): string { if o.Some? then o.value else ABSENT }

  function Joined(first: string, rest: string): string { first + [SEPARATOR] + rest }

  function Key(q: Question): string
  {
    Joined(Part(q.subject), Joined(q.resource, Joined(q.action, Joined(Part(q.scope), Part(q.acting)))))
  }

  // No part holds the separator.
  predicate Plain(q: Question)
  {
    && SEPARATOR !in Part(q.subject) && SEPARATOR !in q.resource && SEPARATOR !in q.action
    && SEPARATOR !in Part(q.scope) && SEPARATOR !in Part(q.acting)
  }

  // No present part spells the mark of an absent one.
  predicate Marked(o: Option<string>) { o == Some(ABSENT) }

  predicate Unmarked(q: Question) { !Marked(q.subject) && !Marked(q.scope) && !Marked(q.acting) }

  lemma SplitAtSeparator(a: string, b: string, x: string, y: string)
    requires Joined(a, x) == Joined(b, y)
    requires SEPARATOR !in a && SEPARATOR !in b
    ensures a == b && x == y
  {
    var left, right := a + [SEPARATOR] + x, b + [SEPARATOR] + y;
    assert left[|a|] == SEPARATOR && right[|b|] == SEPARATOR;
    assert |a| == |b|;
    assert a == left[..|a|] && b == right[..|b|];
    assert x == left[|a| + 1..] && y == right[|b| + 1..];
  }

  // Plain questions have the same key exactly when they agree part by part, an absent part
  // counting as its mark.
  lemma KeyEqualIff(p: Question, q: Question)
    requires Plain(p) && Plain(q)
    ensures Key(p) == Key(q) <==>
            && Part(p.subject) == Part(q.subject) && p.resource == q.resource && p.action == q.action
            && Part(p.scope) == Part(q.scope) && Part(p.acting) == Part(q.acting)
  {
    if Key(p) == Key(q) {
      var p4, q4 := Joined(Part(p.scope), Part(p.acting)), Joined(Part(q.scope), Part(q.acting));
      SplitAtSeparator(Part(p.subject), Part(q.subject), Joined(p.resource, Joined(p.action, p4)),
                       Joined(q.resource, Joined(q.action, q4)));
      SplitAtSeparator(p.resource, q.resource, Joined(p.action, p4), Joined(q.action, q4));
      SplitAtSeparator(p.action, q.action, p4, q4);
      SplitAtSeparator(Part(p.scope), Part(q.scope), Part(p.acting), Part(q.acting));
    }
  }

  // For plain questions, one key means one question exactly when no present part spells the mark:
  // with it, the question without that part has the same key.
  lemma KeyInjectiveIff(p: Question)
    requires Plain(p)
    ensures Unmarked(p) <==> forall q :: Plain(q) && Unmarked(q) && Key(q) == Key(p) ==> q == p
  {
    forall q | Plain(q) && Unmarked(q) && Key(q) == Key(p) && Unmarked(p) ensures q == p {
      KeyEqualIff(q, p);
    }
    if !Unmarked(p) {
      var q := Question(Unmark(p.subject), p.resource, p.action, Unmark(p.scope), Unmark(p.acting));
      KeyEqualIff(q, p);
      assert Plain(q) && Unmarked(q) && Key(q) == Key(p) && q != p;
    }
  }

  function Unmark(o: Option<string>): Option<string> { if Marked(o) then None else o }

  // A part that holds the separator can stand for two: the restriction to plain parts is needed.
  lemma SeparatorForges()
    ensures exists p, q :: p != q && Unmarked(p) && Unmarked(q) && Key(p) == Key(q)
  {
    var p := Question(None, "a" + [SEPARATOR] + "b", "c", None, None);
    var q := Question(None, "a", "b" + [SEPARATOR] + "c", None, None);
    assert p.resource != q.resource;
    var tail := Joined("c", Joined(ABSENT, ABSENT));
    assert Joined("a" + [SEPARATOR] + "b", tail) == Joined("a", Joined("b", tail));
    assert Joined("b" + [SEPARATOR] + "c", Joined(ABSENT, ABSENT)) == Joined("b", tail);
    assert p != q && Unmarked(p) && Unmarked(q) && Key(p) == Key(q);
  }

  // ---- the client ----

  // `credential` names the identity the server sees behind the next request; a call that changes
  // it picks another.
  datatype Session = Session(credential: nat, acting: Option<string>, memo: Memo, closed: bool)

  // What the wire does with a check, after the bounded retries: a successful refresh on the way
  // leaves a new credential.
  datatype Wire =
    | Decided(refreshed: Option<nat>, decision: Decision, at: int)
    | Unreadable(refreshed: Option<nat>)
    | WireFailed(refreshed: Option<nat>)

  datatype Output = FromMemo(decision: Decision) | FromWire(decision: Decision) | Thrown | Silent

  const DEFAULT_DECISION := Decision(false, None, None)

  datatype Op =
    | Check(subject: Option<string>, resource: string, action: string, scope: Option<string>, at: int, wire: Wire)
    | Reauthenticate(answer: Option<nat>)
    | Refresh(outcome: Option<nat>)
    | SetActing(tenant: string)
    | ClearActing
    | Close

  function Asked(s: Session, op: Op): Question
    requires op.Check?
  {
    Question(op.subject, op.resource, op.action, op.scope, s.acting)
  }

  // A refresh that succeeded replaces the credential, then clears the memo; one that failed throws
  // before it gets there.
  function Refreshed(s: Session, outcome: Option<nat>): Session
  {
    if outcome.Some? then s.(credential := outcome.value, memo := EMPTY_MEMO) else s
  }

  // A call that means to change the credential clears the memo before the wire.
  function Intended(s: Session): Session { s.(memo := EMPTY_MEMO) }

  // The server grants a credential, or refuses and the old one stays.
  function Answered(s: Session, answer: Option<nat>): (Session, Output)
  {
    if answer.Some? then (s.(credential := answer.value), Silent) else (s, Thrown)
  }

  function CheckOnce(s: Session, ttl: int, key: string, now: int, wire: Wire): (Session, Output)
  {
    var (memo, hit) := Get(s.memo, ttl, key, now);
    if hit.Some? then (s.(memo := memo), FromMemo(hit.value))
    else
      var s' := Refreshed(s.(memo := memo), wire.refreshed);
      match wire
      case Decided(_, d, at) => (s'.(memo := Put(s'.memo, ttl, key, d, at)), FromWire(d))
      case Unreadable(_) => (s', FromWire(DEFAULT_DECISION))
      case WireFailed(_) => (s', Thrown)
  }

  function Do(s: Session, ttl: int, op: Op): (Session, Output)
  {
    if s.closed then (s, if op.Close? then Silent else Thrown)
    else
      match op
      case Check(_, _, _, _, now, wire) => CheckOnce(s, ttl, Key(Asked(s, op)), now, wire)
      case Reauthenticate(answer) => Answered(Intended(s), answer)
      case Refresh(outcome) => (Refreshed(s, outcome), if outcome.Some? then Silent else Thrown)
      case SetActing(tenant) => (s.(acting := Some(tenant)), Silent)
      case ClearActing => (s.(acting := None), Silent)
      case Close => (s.(closed := true, memo := EMPTY_MEMO), Silent)
  }

  class Client {
    const memo: DecisionMemo
    var credential: nat
    var acting: Option<string>
    var closed: bool

    ghost function Contents(): Session
      reads this, memo
    {
      Session(credential, acting, memo.Contents(), closed)
    }

    constructor (requestedTtl: int, anonymous: nat)
      ensures Contents() == Session(anonymous, None, EMPTY_MEMO, false)
      ensures fresh(memo) && memo.ttl == ClampTtl(requestedTtl)
    {
      memo := new DecisionMemo(requestedTtl);
      credential, acting, closed := anonymous, None, false;
    }

    method CheckAccess(subject: Option<string>, resource: string, action: string, scope: Option<string>, now: int, wire: Wire)
      returns (r: Output)
      modifies this, memo
      ensures (Contents(), r) == Do(old(Contents()), memo.ttl, Check(subject, resource, action, scope, now, wire))
    {
      if closed { return Thrown; }
      var key := Key(Question(subject, resource, action, scope, acting));
      var cached := memo.GetDecision(key, now);
      if cached.Some? { return FromMemo(cached.value); }
      if wire.refreshed.Some? {
        credential := wire.refreshed.value;
        memo.Clear();
      }
      match wire
      case Decided(_, d, at) =>
        memo.PutDecision(key, d, at);
        r := FromWire(d);
      case Unreadable(_) => r := FromWire(DEFAULT_DECISION);
      case WireFailed(_) => r := Thrown;
    }

    // login, verify_mfa, logout and authenticate_device: the memo goes first, on the caller's
    // intent; a refusal leaves the old credential (logout alone keeps the refusal to itself).
    method ChangeCredential(answer: Option<nat>) returns (r: Output)
      modifies this, memo
      ensures (Contents(), r) == Do(old(Contents()), memo.ttl, Reauthenticate(answer))
    {
      if closed { return Thrown; }
      memo.Clear();
      if answer.None? { return Thrown; }
      credential := answer.value;
      r := Silent;
    }

    method RefreshSession(outcome: Option<nat>) returns (r: Output)
      modifies this, memo
      ensures (Contents(), r) == Do(old(Contents()), memo.ttl, Refresh(outcome))
    {
      if closed || outcome.None? { return Thrown; }
      credential := outcome.value;
      memo.Clear();
      r := Silent;
    }

    method SetActingTenant(tenant: string) returns (r: Output)
      modifies this`acting
      ensures (Contents(), r) == Do(old(Contents()), memo.ttl, SetActing(tenant))
    {
      if closed { return Thrown; }
      acting := Some(tenant);
      r := Silent;
    }

    method ClearActingTenant() returns (r: Output)
      modifies this`acting
      ensures (Contents(), r) == Do(old(Contents()), memo.ttl, ClearActing)
    {
      if closed { return Thrown; }
      acting := None;
      r := Silent;
    }

    method CloseClient() returns (r: Output)
      modifies this, memo
      ensures (Contents(), r) == Do(old(Contents()), memo.ttl, Close)
    {
      if !closed {
        closed := true;
        memo.Clear();
      }
      r := Silent;
    }
  }

  // ---- every sequential run ----

  // What the server answered, to which question, under which credential, and when it was stored.
  datatype Answer = Answer(question: Question, credential: nat, decision: Decision, at: int)

  function Recorded(s: Session, ttl: int, op: Op): seq<Answer>
  {
    if op.Check? && op.wire.Decided? && Do(s, ttl, op).1.FromWire?
    then [Answer(Asked(s, op), Do(s, ttl, op).0.credential, op.wire.decision, op.wire.at)] else []
  }

  function Runs(s: Session, ttl: int, ops: seq<Op>): Session
  {
    if ops == [] then s else Do(Runs(s, ttl, ops[..|ops| - 1]), ttl, ops[|ops| - 1]).0
  }

  function Log(s: Session, ttl: int, ops: seq<Op>): seq<Answer>
  {
    if ops == [] then []
    else
      var front := ops[..|ops| - 1];
      Log(s, ttl, front) + Recorded(Runs(s, ttl, front), ttl, ops[|ops| - 1])
  }

  // Every entry is an answer the server gave under the present credential.
  ghost predicate Backed(s: Session, log: seq<Answer>)
  {
    forall k :: k in s.memo.entries ==> exists j :: 0 <= j < |log| && Backs(log[j], k, s)
  }

  predicate Backs(a: Answer, k: string, s: Session)
  {
    && Key(a.question) == k && a.credential == s.credential
    && k in s.memo.entries && s.memo.entries[k] == Entry(a.decision, a.at)
  }

  lemma {:induction false} EvictSubset(m: Memo)
    ensures forall k :: k in Evict(m).entries ==> k in m.entries && Evict(m).entries[k] == m.entries[k]
    decreases |m.order|
  {
    if |m.order| > MAX_ENTRIES {
      EvictSubset(Memo(m.entries - {m.order[0]}, m.order[1..]));
    }
  }

  lemma PutEntries(m: Memo, ttl: int, k: string, d: Decision, now: int)
    ensures var m' := Put(m, ttl, k, d, now);
            forall x :: x in m'.entries ==>
              if x == k && ttl > 0 then m'.entries[x] == Entry(d, now)
              else x in m.entries && m'.entries[x] == m.entries[x]
  {
    var kept := Erase(m, k);
    EvictSubset(Memo(kept.entries[k := Entry(d, now)], kept.order + [k]));
  }

  // A memo that lost entries, or lost them all, is as well backed.
  lemma BackedSubset(s: Session, s': Session, log: seq<Answer>, more: seq<Answer>)
    requires Backed(s, log)
    requires forall k :: k in s'.memo.entries ==> k in s.memo.entries && s'.memo.entries[k] == s.memo.entries[k]
    requires s'.memo.entries != map[] ==> s'.credential == s.credential
    ensures Backed(s', log + more)
  {
    forall k | k in s'.memo.entries ensures exists j :: 0 <= j < |log + more| && Backs((log + more)[j], k, s') {
      var j :| 0 <= j < |log| && Backs(log[j], k, s);
      assert Backs((log + more)[j], k, s');
    }
  }

  lemma BackedPut(s: Session, ttl: int, log: seq<Answer>, a: Answer)
    requires Backed(s, log) && a.credential == s.credential
    ensures Backed(s.(memo := Put(s.memo, ttl, Key(a.question), a.decision, a.at)), log + [a])
  {
    var k0 := Key(a.question);
    var s' := s.(memo := Put(s.memo, ttl, k0, a.decision, a.at));
    PutEntries(s.memo, ttl, k0, a.decision, a.at);
    forall k | k in s'.memo.entries ensures exists j :: 0 <= j < |log + [a]| && Backs((log + [a])[j], k, s') {
      if k == k0 && ttl > 0 {
        assert Backs((log + [a])[|log|], k, s');
      } else {
        var j :| 0 <= j < |log| && Backs(log[j], k, s);
        assert Backs((log + [a])[j], k, s');
      }
    }
  }

  lemma BackedCheck(s: Session, ttl: int, q: Question, now: int, wire: Wire, log: seq<Answer>)
    requires Backed(s, log)
    ensures var (s', out) := CheckOnce(s, ttl, Key(q), now, wire);
            Backed(s', log + if wire.Decided? && out.FromWire?
                             then [Answer(q, s'.credential, wire.decision, wire.at)] else [])
  {
    var (memo, hit) := Get(s.memo, ttl, Key(q), now);
    var s1 := Refreshed(s.(memo := memo), wire.refreshed);
    assert log + [] == log;
    BackedSubset(s, s.(memo := memo), log, []);
    if hit.None? {
      BackedSubset(s, s1, log, []);
      if wire.Decided? {
        BackedPut(s1, ttl, log, Answer(q, s1.credential, wire.decision, wire.at));
      }
    }
  }

  lemma BackedStep(s: Session, ttl: int, op: Op, log: seq<Answer>)
    requires Backed(s, log)
    ensures Backed(Do(s, ttl, op).0, log + Recorded(s, ttl, op))
  {
    if !op.Check? || s.closed {
      BackedSubset(s, Do(s, ttl, op).0, log, Recorded(s, ttl, op));
    } else {
      BackedCheck(s, ttl, Asked(s, op), op.at, op.wire, log);
    }
  }

  function Anonymous(credential: nat): Session { Session(credential, None, EMPTY_MEMO, false) }

  lemma {:induction false} RunBacked(credential: nat, ttl: int, ops: seq<Op>)
    ensures Backed(Runs(Anonymous(credential), ttl, ops), Log(Anonymous(credential), ttl, ops))
  {
    if ops != [] {
      var front := ops[..|ops| - 1];
      RunBacked(credential, ttl, front);
      BackedStep(Runs(Anonymous(credential), ttl, front), ttl, ops[|ops| - 1], Log(Anonymous(credential), ttl, front));
    }
  }

  // The answer behind a decision handed out at `now`.
  predicate Stands(a: Answer, s: Session, ttl: int, q: Question, d: Decision, now: int)
  {
    && Key(a.question) == Key(q) && a.credential == s.credential && a.decision == d && now - a.at < ttl
    && (Plain(a.question) && Unmarked(a.question) && Plain(q) && Unmarked(q) ==> a.question == q)
  }

  // Some answer of the server stands behind the decision.
  ghost predicate Vouched(s: Session, log: seq<Answer>, ttl: int, q: Question, d: Decision, now: int)
  {
    exists j :: 0 <= j < |log| && Stands(log[j], s, ttl, q, d, now)
  }

  lemma HitStands(s: Session, ttl: int, log: seq<Answer>, q: Question, now: int, wire: Wire)
    requires Backed(s, log) && CheckOnce(s, ttl, Key(q), now, wire).1.FromMemo?
    ensures Vouched(s, log, ttl, q, CheckOnce(s, ttl, Key(q), now, wire).1.decision, now)
  {
    var j :| 0 <= j < |log| && Backs(log[j], Key(q), s);
    if Plain(log[j].question) && Plain(q) {
      KeyEqualIff(log[j].question, q);
    }
    assert Stands(log[j], s, ttl, q, CheckOnce(s, ttl, Key(q), now, wire).1.decision, now);
  }

  // A memo hit was answered by the server to a question of the same key, under the credential the
  // client holds now, and stored less than the clamped TTL ago; to the identical five-part
  // question, when the parts are plain and unmarked.
  lemma HitIsAnAnswer(credential: nat, ttl: int, ops: seq<Op>, check: Op)
    requires check.Check?
    requires Do(Runs(Anonymous(credential), ttl, ops), ttl, check).1.FromMemo?
    ensures var s := Runs(Anonymous(credential), ttl, ops);
            Vouched(s, Log(Anonymous(credential), ttl, ops), ttl, Asked(s, check), Do(s, ttl, check).1.decision, check.at)
  {
    var s := Runs(Anonymous(credential), ttl, ops);
    RunBacked(credential, ttl, ops);
    assert Do(s, ttl, check) == CheckOnce(s, ttl, Key(Asked(s, check)), check.at, check.wire);
    HitStands(s, ttl, Log(Anonymous(credential), ttl, ops), Asked(s, check), check.at, check.wire);
  }
}
