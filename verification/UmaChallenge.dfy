// The UMA challenge: the WWW-Authenticate header a resource server answers with, printed and parsed.
module UmaChallenge {
  import opened Prelude
  import opened Text

  datatype Challenge = Challenge(realm: string, asUri: string, ticket: string)

  const NO_CHALLENGE := Challenge("", "", "")

  // One layer of surrounding quotes.
  function Unquote(s: string): string
  {
    if |s| >= 2 && s[0] == '"' && s[|s| - 1] == '"' then s[1..|s| - 1] else s
  }

  function Header(realm: string, asUri: string, ticket: string): string
  {
    "UMA realm=\"" + realm + "\", as_uri=\"" + asUri + "\", ticket=\"" + ticket + "\""
  }

  // The challenge with a parameter set, if it is one the SDK knows.
  function With(ch: Challenge, name: string, value: string): Challenge
  {
    if name == "realm" then ch.(realm := value)
    else if name == "as_uri" then ch.(asUri := value)
    else if name == "ticket" then ch.(ticket := value)
    else ch
  }

  // One comma-separated part: a parameter the challenge knows, or nothing.
  function Absorb(ch: Challenge, part: string): Challenge
  {
    var equals := IndexOf(part, '=');
    if equals == |part| then ch
    else
      var key := Trim(part[..equals]);
      var value := Unquote(Trim(part[equals + 1..]));
      With(ch, key, value)
  }

  // The parts between commas, in order, taken in one after another.
  function FoldParts<A>(f: (A, string) -> A, acc: A, rest: string): A
    decreases |rest|
  {
    var comma := IndexOf(rest, ',');
    var acc' := f(acc, rest[..comma]);
    if comma == |rest| then acc' else FoldParts(f, acc', rest[comma + 1..])
  }

  // A later parameter overrides an earlier one.
  function AbsorbAll(ch: Challenge, rest: string): Challenge { FoldParts(Absorb, ch, rest) }

  function Parsed(header: string): Option<Challenge>
  {
    var trimmed := Trim(header);
    if !("UMA" <= trimmed) then None
    else
      var rest := trimmed[3..];
      if rest != "" && !Blank(rest[0]) then None else Some(AbsorbAll(NO_CHALLENGE, rest))
  }

  method ParseParameters(rest: string) returns (challenge: Challenge)
    ensures challenge == AbsorbAll(NO_CHALLENGE, rest)
  {
    challenge := NO_CHALLENGE;
    var at := 0;
    ghost var whole := AbsorbAll(NO_CHALLENGE, rest);
    assert rest[0..] == rest;
    while at <= |rest|
      invariant 0 <= at <= |rest| && Remains(Absorb, challenge, rest, at, whole)
      decreases |rest| - at
    {
      var comma := at + IndexOf(rest[at..], ',');
      var absorbed := Absorb(challenge, rest[at..comma]);
      RemainsAfter(Absorb, challenge, rest, at, comma, absorbed, whole);
      challenge := absorbed;
      if comma == |rest| { break; }
      at := comma + 1;
    }
  }

  method Parse(header: string) returns (r: Option<Challenge>)
    ensures r == Parsed(header)
  {
    var trimmed := Trim(header);
    if !("UMA" <= trimmed) { return None; }
    var rest := trimmed[3..];
    if rest != "" && !Blank(rest[0]) { return None; }
    var challenge := ParseParameters(rest);
    r := Some(challenge);
  }

  // Taking in what is left from `at` gives the whole.
  ghost predicate Remains<A>(f: (A, string) -> A, acc: A, rest: string, at: nat, whole: A)
  {
    at <= |rest| && FoldParts(f, acc, rest[at..]) == whole
  }

  lemma RemainsAfter<A>(f: (A, string) -> A, acc: A, rest: string, at: nat, comma: nat, acc': A, whole: A)
    requires Remains(f, acc, rest, at, whole) && comma == at + IndexOf(rest[at..], ',') && comma <= |rest|
    requires acc' == f(acc, rest[at..comma])
    ensures comma == |rest| ==> acc' == whole
    ensures comma < |rest| ==> Remains(f, acc', rest, comma + 1, whole)
  {
    FoldStep(f, acc, rest, at);
  }

  lemma FoldStep<A>(f: (A, string) -> A, acc: A, rest: string, at: nat)
    requires at <= |rest|
    ensures var comma := at + IndexOf(rest[at..], ',');
            && at <= comma <= |rest|
            && FoldParts(f, acc, rest[at..]) ==
               if comma == |rest| then f(acc, rest[at..comma])
               else FoldParts(f, f(acc, rest[at..comma]), rest[comma + 1..])
  {
    var tail := rest[at..];
    var comma := IndexOf(tail, ',');
    assert tail[..comma] == rest[at..at + comma];
    if comma < |tail| {
      assert tail[comma + 1..] == rest[at + comma + 1..];
    }
  }

  // ---- what was printed is what is parsed ----

  function Quoted(value: string): string { "\"" + value + "\"" }

  lemma QuotedReads(value: string)
    ensures Unquote(Trim(Quoted(value))) == value
  {
    var q := Quoted(value);
    assert q[0] == '"' && q[|q| - 1] == '"';
    assert TrimLeft(q) == q && TrimRight(q) == q;
    assert q[1..|q| - 1] == value;
  }

  // A known parameter's part sets its member, whatever quotes, equals signs or spaces the value holds.
  lemma PartReads(ch: Challenge, name: string, value: string)
    requires name != "" && '=' !in name && !Blank(name[0]) && !Blank(name[|name| - 1])
    ensures var part := " " + name + "=" + Quoted(value);
            Absorb(ch, part) == With(ch, name, value)
  {
    var key := " " + name;
    var part := key + "=" + Quoted(value);
    assert '=' !in key;
    IndexOfFirst(key, '=', Quoted(value));
    assert part == key + ['='] + Quoted(value);
    assert part[..|key|] == key && part[|key| + 1..] == Quoted(value);
    assert TrimLeft(key) == name by {
      assert key[0] == ' ' && key[1..] == name;
      assert TrimLeft(name) == name;
    }
    assert TrimRight(name) == name;
    QuotedReads(value);
  }

  lemma PartThen(ch: Challenge, part: string, rest: string)
    requires ',' !in part
    ensures AbsorbAll(ch, part + "," + rest) == AbsorbAll(Absorb(ch, part), rest)
    ensures AbsorbAll(ch, part) == Absorb(ch, part)
  {
    IndexOfFirst(part, ',', rest);
    IndexOfAbsent(part, ',');
    var s := part + "," + rest;
    assert s == part + [','] + rest;
    assert s[..|part|] == part && s[|part| + 1..] == rest;
    assert part[..|part|] == part;
  }

  predicate CommaFree(ch: Challenge) { ',' !in ch.realm && ',' !in ch.asUri && ',' !in ch.ticket }

  lemma HeaderTrimmed(r: string, a: string, t: string)
    ensures Header(r, a, t) != "" && Header(r, a, t)[0] == 'U' && Header(r, a, t)[|Header(r, a, t)| - 1] == '"'
    ensures Trim(Header(r, a, t)) == Header(r, a, t)
  {
    var h := Header(r, a, t);
    assert h[0] == 'U' && h[|h| - 1] == '"';
    TrimNothing(h);
  }

  lemma TrimNothing(h: string)
    requires h != "" && !Blank(h[0]) && !Blank(h[|h| - 1])
    ensures Trim(h) == h
  {
    assert TrimLeft(h) == h;
  }

  function Parameter(name: string, value: string): string { " " + name + "=" + Quoted(value) }

  predicate PlainName(name: string)
  {
    name != "" && '=' !in name && ',' !in name && !Blank(name[0]) && !Blank(name[|name| - 1])
  }

  lemma ParameterThen(ch: Challenge, name: string, value: string, rest: string)
    requires PlainName(name) && ',' !in value
    ensures AbsorbAll(ch, Parameter(name, value) + "," + rest) == AbsorbAll(With(ch, name, value), rest)
    ensures AbsorbAll(ch, Parameter(name, value)) == With(ch, name, value)
  {
    PartThen(ch, Parameter(name, value), rest);
    PartReads(ch, name, value);
  }

  lemma ThreeParameters(ch: Challenge, r: string, a: string, t: string)
    requires CommaFree(Challenge(r, a, t))
    ensures AbsorbAll(ch, Parameter("realm", r) + "," + (Parameter("as_uri", a) + "," + Parameter("ticket", t)))
            == With(With(With(ch, "realm", r), "as_uri", a), "ticket", t)
  {
    var last := Parameter("ticket", t);
    ParameterThen(ch, "realm", r, Parameter("as_uri", a) + "," + last);
    ParameterThen(With(ch, "realm", r), "as_uri", a, last);
    ParameterThen(With(With(ch, "realm", r), "as_uri", a), "ticket", t, "");
  }

  lemma Assoc(x: string, y: string, z: string)
    ensures x + y + z == x + (y + z)
  {
  }

  // A parameter closed at the end of a text.
  lemma Closed(base: string, k: string, v: string, q: string)
    ensures base + k + v + q == base + (k + v + q)
  {
    Assoc(base, k, v);
    Assoc(base, k + v, q);
  }

  // The separator literal, taken apart.
  lemma Separated(base: string, q: string, c: string, k: string)
    ensures base + (q + c + k) == base + q + c + k
  {
    Assoc(base, q + c, k);
    Assoc(base, q, c);
  }

  lemma Regrouped(u: string, k1: string, r: string, q: string, c: string, k2: string, a: string, k3: string, t: string)
    ensures u + k1 + r + (q + c + k2) + a + (q + c + k3) + t + q
            == u + ((k1 + r + q) + c + ((k2 + a + q) + c + (k3 + t + q)))
  {
    var p1, p2, p3 := k1 + r + q, k2 + a + q, k3 + t + q;
    Separated(u + k1 + r, q, c, k2);
    Closed(u, k1, r, q);
    Separated(u + p1 + c + k2 + a, q, c, k3);
    Closed(u + p1 + c, k2, a, q);
    Closed(u + p1 + c + p2 + c, k3, t, q);
    Assoc(u + p1 + c, p2, c);
    Assoc(u + p1 + c, p2 + c, p3);
    Assoc(u, p1, c);
    Assoc(u, p1 + c, p2 + c + p3);
  }

  lemma HeaderParameters(r: string, a: string, t: string)
    ensures Header(r, a, t) ==
            "UMA" + (Parameter("realm", r) + "," + (Parameter("as_uri", a) + "," + Parameter("ticket", t)))
  {
    var q := "\"";
    assert "UMA realm=\"" == "UMA" + (" " + "realm" + "=" + q);
    assert "\", as_uri=\"" == q + "," + (" " + "as_uri" + "=" + q);
    assert "\", ticket=\"" == q + "," + (" " + "ticket" + "=" + q);
    var k1, k2, k3 := " " + "realm" + "=" + q, " " + "as_uri" + "=" + q, " " + "ticket" + "=" + q;
    Regrouped("UMA", k1, r, q, ",", k2, a, k3, t);
    OneParameter("realm", r);
    OneParameter("as_uri", a);
    OneParameter("ticket", t);
  }

  lemma OneParameter(name: string, value: string)
    ensures Parameter(name, value) == (" " + name + "=" + "\"") + value + "\""
  {
    var key := " " + name + "=";
    Assoc(key, "\"" + value, "\"");
    Assoc(key, "\"", value);
  }

  lemma CommaFreeReads(r: string, a: string, t: string)
    requires CommaFree(Challenge(r, a, t))
    ensures Parsed(Header(r, a, t)) == Some(Challenge(r, a, t))
  {
    HeaderTrimmed(r, a, t);
    HeaderParameters(r, a, t);
    ThreeParameters(NO_CHALLENGE, r, a, t);
    RestParses(Header(r, a, t),
               Parameter("realm", r) + "," + (Parameter("as_uri", a) + "," + Parameter("ticket", t)));
  }

  lemma RestParses(h: string, rest: string)
    requires Trim(h) == h == "UMA" + rest && rest != "" && Blank(rest[0])
    ensures Parsed(h) == Some(AbsorbAll(NO_CHALLENGE, rest))
  {
    assert h[3..] == rest && "UMA" <= h;
  }

  // ---- no parsed value holds a comma ----

  lemma AbsorbKeepsCommaFree(ch: Challenge, part: string)
    requires CommaFree(ch) && ',' !in part
    ensures CommaFree(Absorb(ch, part))
  {
    var equals := IndexOf(part, '=');
    if equals < |part| {
      var value := Trim(part[equals + 1..]);
      TrimKeeps(part[equals + 1..]);
      assert ',' !in value && ',' !in Unquote(value);
    }
  }

  lemma {:induction false} ParsedCommaFree(ch: Challenge, rest: string)
    requires CommaFree(ch)
    ensures CommaFree(AbsorbAll(ch, rest))
    decreases |rest|
  {
    var comma := IndexOf(rest, ',');
    IndexOfSpec(rest, ',');
    AbsorbKeepsCommaFree(ch, rest[..comma]);
    if comma < |rest| {
      ParsedCommaFree(Absorb(ch, rest[..comma]), rest[comma + 1..]);
    }
  }

  // Parsing a printed challenge gives its three members back exactly when none of them holds a
  // comma.
  lemma RoundTripIff(r: string, a: string, t: string)
    ensures Parsed(Header(r, a, t)) == Some(Challenge(r, a, t)) <==> CommaFree(Challenge(r, a, t))
  {
    if CommaFree(Challenge(r, a, t)) {
      CommaFreeReads(r, a, t);
    } else if Parsed(Header(r, a, t)).Some? {
      ParsedCommaFree(NO_CHALLENGE, Trim(Header(r, a, t))[3..]);
    }
  }

  // Surrounding blanks do not matter.
  lemma PaddedHeader(r: string, a: string, t: string, left: nat, right: nat)
    ensures Parsed(Blanks(left) + Header(r, a, t) + Blanks(right)) == Parsed(Header(r, a, t))
  {
    var h := Header(r, a, t);
    HeaderTrimmed(r, a, t);
    assert Blanks(left) + h + Blanks(right) == Blanks(left) + (h + Blanks(right));
    TrimLeftBlanks(left, h + Blanks(right));
    TrimRightBlanks(right, h);
  }
}
