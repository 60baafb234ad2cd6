// The generated JSON codec, as an interpreter of a schema's field list: what the encoder writes
// for each member, what the decoder makes of it, and which values come back.
module ModelCodec {
  import opened Prelude
  import opened Json

  // ---- schemas ----

  datatype Kind =
    | Text
    | Integer
    | Boolean
    | Secret
    | Enum(known: seq<string>)
    | Doc
    | ListOf(elem: Kind)
    | Model(fields: Fields)
    // A union told apart by which one of its members is there.
    | Tagged(arms: Fields)
    // A union told apart by the text of one member, kept and forwarded as it was received.
    | Union(tag: string)
    // The same for requests too: an unknown tag is never sent, and no secret is kept.
    | OpenUnion(tag: string, known: seq<string>)

  datatype Presence = Required | Optional | TriState | Defaulted(default: Value)

  datatype Field = Field(wire: string, kind: Kind, presence: Presence)

  datatype Fields = NoFields | Then(first: Field, rest: Fields)

  // What no decoded union keeps.
  const RESPONSE_SECRETS := {"credential", "bind_secret", "authorization_header", "private_key_pem"}

  // The wire names whose empty value is left out like an unset one.
  predicate OmitWhenEmpty(wire: string) { wire == "tenant_scope" || wire == "subject_alt_names" }

  // ---- values ----

  // A Doc is a string holding JSON text, known here by what it parses to; None does not parse.
  datatype Value =
    | VText(text: string)
    | VInt(number: int)
    | VBool(truth: bool)
    | VSecret(secret: string)
    | VKnown(name: string)
    | VUnknown
    | VDoc(parsed: Option<Json>)
    | VList(items: seq<Value>)
    | VModel(members: Members)
    // The tag and the raw text, known like a Doc's by what it parses to.
    | VUnion(tag: string, raw: Option<Json>)

  // A plain member is always Set; an optional one may be Unset; a tri-state one may be Null too.
  datatype Member = Unset | Null | Set(value: Value)

  datatype Members = NoMembers | Also(first: Member, rest: Members)

  datatype Error = UnknownEnum | UnknownTag | NotOneArm | Missing(wire: string) | WrongType

  function Wires(fs: Fields): set<string>
  {
    match fs
    case NoFields => {}
    case Then(f, rest) => {f.wire} + Wires(rest)
  }

  // The schema's tri-state and defaulted members are plain ones.
  predicate PresenceOk(f: Field)
  {
    && (f.presence.TriState? ==> !f.kind.Secret? && !f.kind.Doc?)
    && (f.presence.Defaulted? ==> !f.kind.Doc? && !f.kind.Union? && Typed(f.kind, f.presence.default))
  }

  predicate AllOptional(fs: Fields)
  {
    match fs
    case NoFields => true
    case Then(f, rest) => f.presence.Optional? && AllOptional(rest)
  }

  // Distinct wire names throughout.
  predicate SchemaOk(k: Kind)
    decreases k
  {
    match k
    case ListOf(elem) => SchemaOk(elem)
    case Model(fields) => FieldsOk(fields)
    case Tagged(arms) => FieldsOk(arms) && AllOptional(arms)
    case OpenUnion(tag, _) => tag !in RESPONSE_SECRETS
    case _ => true
  }

  predicate FieldsOk(fs: Fields)
    decreases fs
  {
    match fs
    case NoFields => true
    case Then(f, rest) =>
      && SchemaOk(f.kind) && f.wire !in Wires(rest) && FieldsOk(rest)
      && PresenceOk(f)
  }

  // A value of the C++ type the generator declares for the kind.
  predicate Typed(k: Kind, v: Value)
    decreases k, 0, 0
  {
    match k
    case Text => v.VText?
    case Integer => v.VInt?
    case Boolean => v.VBool?
    case Secret => v.VSecret?
    case Enum(known) => v.VUnknown? || (v.VKnown? && v.name in known)
    case Doc => v.VDoc?
    case ListOf(elem) => v.VList? && TypedList(elem, v.items)
    case Model(fields) => v.VModel? && TypedFields(fields, v.members)
    case Tagged(arms) => v.VModel? && TypedFields(arms, v.members)
    case Union(_) => v.VUnion?
    case OpenUnion(_, _) => v.VUnion?
  }

  predicate TypedList(elem: Kind, vs: seq<Value>)
    decreases elem, 1, |vs|
  {
    vs == [] || (Typed(elem, vs[0]) && TypedList(elem, vs[1..]))
  }

  predicate TypedFields(fs: Fields, ms: Members)
    decreases fs, 0, 0
  {
    match fs
    case NoFields => ms.NoMembers?
    case Then(f, rest) =>
      && ms.Also? && TypedFields(rest, ms.rest)
      && (match ms.first
          case Unset => f.presence.Optional? || f.presence.TriState?
          case Null => f.presence.TriState?
          case Set(v) => Typed(f.kind, v))
  }

  // ---- encoding ----

  function Encode(k: Kind, v: Value): Result<Json, Error>
    requires Typed(k, v)
    decreases k, 0, 0
  {
    match k
    case Text => Ok(JString(v.text))
    case Integer => Ok(JInt(v.number))
    case Boolean => Ok(JBool(v.truth))
    case Secret => Ok(JString(v.secret))
    case Enum(_) => if v.VUnknown? then Err(UnknownEnum) else Ok(JString(v.name))
    case Doc => Ok(v.parsed.GetOr(JNull))
    case ListOf(elem) =>
      var items := EncodeList(elem, v.items);
      if items.Err? then Err(items.error) else Ok(JArray(items.value))
    case Model(fields) =>
      var members := EncodeFields(fields, v.members);
      if members.Err? then Err(members.error) else Ok(JObject(members.value))
    case Tagged(arms) =>
      if Engaged(v.members) != 1 then Err(NotOneArm)
      else
        var members := EncodeFields(arms, v.members);
        if members.Err? then Err(members.error) else Ok(JObject(members.value))
    case Union(_) => Ok(v.raw.GetOr(JObject(map[])))
    case OpenUnion(tag, known) =>
      if v.tag !in known then Err(UnknownTag)
      else Ok(JObject(RawMembers(v.raw)[tag := JString(v.tag)]))
  }

  function Engaged(ms: Members): nat
  {
    match ms
    case NoMembers => 0
    case Also(m, rest) => (if m.Set? then 1 else 0) + Engaged(rest)
  }

  // Raw text that is no object is taken for an empty one.
  function RawMembers(raw: Option<Json>): map<string, Json>
  {
    if raw.Some? && raw.value.JObject? then raw.value.members else map[]
  }

  function EncodeList(elem: Kind, vs: seq<Value>): Result<seq<Json>, Error>
    requires TypedList(elem, vs)
    decreases elem, 1, |vs|
  {
    if vs == [] then Ok([])
    else
      var head := Encode(elem, vs[0]);
      if head.Err? then Err(head.error)
      else
        var tail := EncodeList(elem, vs[1..]);
        if tail.Err? then Err(tail.error) else Ok([head.value] + tail.value)
  }

  predicate EmptyValue(v: Value) { v == VText("") || v == VList([]) }

  // Whether a set member is left off the wire: text that does not parse, and the lists (and
  // texts) the contract refuses empty.
  predicate Dropped(f: Field, v: Value)
  {
    || (f.kind.Doc? && v.VDoc? && v.parsed.None?)
    || (f.presence.Optional? && !f.kind.Doc? && OmitWhenEmpty(f.wire) && EmptyValue(v))
  }

  function EncodeFields(fs: Fields, ms: Members): Result<map<string, Json>, Error>
    requires TypedFields(fs, ms)
    decreases fs, 0, 0
  {
    match fs
    case NoFields => Ok(map[])
    case Then(f, rest) =>
      var others := EncodeFields(rest, ms.rest);
      match ms.first
      case Unset => others
      case Null => if others.Err? then others else Ok(others.value[f.wire := JNull])
      case Set(v) =>
        if Dropped(f, v) then others
        else
          var j := Encode(f.kind, v);
          if j.Err? then Err(j.error)
          else if others.Err? then others
          else Ok(others.value[f.wire := j.value])
  }

  // ---- decoding ----

  function Decode(k: Kind, j: Json): Result<Value, Error>
    decreases k, 0, 0
  {
    match k
    case Text => if j.JString? then Ok(VText(j.text)) else Err(WrongType)
    case Integer => if j.JInt? then Ok(VInt(j.number)) else Err(WrongType)
    case Boolean => if j.JBool? then Ok(VBool(j.truth)) else Err(WrongType)
    case Secret => if j.JString? then Ok(VSecret(j.text)) else Err(WrongType)
    case Enum(known) =>
      if !j.JString? then Err(WrongType) else if j.text in known then Ok(VKnown(j.text)) else Ok(VUnknown)
    case Doc => Ok(VDoc(Some(j)))
    case ListOf(elem) =>
      if !j.JArray? then Err(WrongType)
      else
        var items := DecodeList(elem, j.items);
        if items.Err? then Err(items.error) else Ok(VList(items.value))
    case Model(fields) =>
      if !j.JObject? then Err(WrongType)
      else
        var members := DecodeFields(fields, j.members);
        if members.Err? then Err(members.error) else Ok(VModel(members.value))
    case Tagged(arms) =>
      if !j.JObject? then Err(WrongType)
      else
        var members := DecodeFields(arms, j.members);
        if members.Err? then Err(members.error) else Ok(VModel(members.value))
    case Union(tag) => DecodeUnion(tag, j, {})
    case OpenUnion(tag, _) => DecodeUnion(tag, j, RESPONSE_SECRETS)
  }

  // Any text is a tag; the rest of the object is kept, but for the secrets.
  function DecodeUnion(tag: string, j: Json, secrets: set<string>): Result<Value, Error>
  {
    if !j.JObject? then Err(WrongType)
    else if tag !in j.members then Err(Missing(tag))
    else if !j.members[tag].JString? then Err(WrongType)
    else Ok(VUnion(j.members[tag].text, Some(JObject(j.members - secrets))))
  }

  function DecodeList(elem: Kind, js: seq<Json>): Result<seq<Value>, Error>
    decreases elem, 1, |js|
  {
    if js == [] then Ok([])
    else
      var head := Decode(elem, js[0]);
      if head.Err? then Err(head.error)
      else
        var tail := DecodeList(elem, js[1..]);
        if tail.Err? then Err(tail.error) else Ok([head.value] + tail.value)
  }

  function DecodeMember(f: Field, j: map<string, Json>): Result<Member, Error>
    decreases f, 1, 0
  {
    var absent := f.wire !in j;
    var empty := absent || j[f.wire].JNull?;
    if f.presence.TriState? && empty then Ok(if absent then Unset else Null)
    else if f.presence.Optional? && empty then Ok(Unset)
    else if f.presence.Defaulted? && empty then Ok(Set(f.presence.default))
    else if absent then Err(Missing(f.wire))
    else
      var v := Decode(f.kind, j[f.wire]);
      if v.Err? then Err(v.error) else Ok(Set(v.value))
  }

  function DecodeFields(fs: Fields, j: map<string, Json>): Result<Members, Error>
    decreases fs, 0, 0
  {
    match fs
    case NoFields => Ok(NoMembers)
    case Then(f, rest) =>
      var m := DecodeMember(f, j);
      if m.Err? then Err(m.error)
      else
        var others := DecodeFields(rest, j);
        if others.Err? then Err(others.error) else Ok(Also(m.value, others.value))
  }

  // ---- which values can be sent, and which come back ----

  // No enum member and no open union's tag anywhere in the value is one this SDK does not know,
  // and every tagged union has exactly one arm.
  predicate Sendable(k: Kind, v: Value)
    requires Typed(k, v)
    decreases k, 0, 0
  {
    match k
    case Enum(_) => !v.VUnknown?
    case ListOf(elem) => SendableList(elem, v.items)
    case Model(fields) => SendableFields(fields, v.members)
    case Tagged(arms) => Engaged(v.members) == 1 && SendableFields(arms, v.members)
    case OpenUnion(_, known) => v.tag in known
    case _ => true
  }

  predicate SendableList(elem: Kind, vs: seq<Value>)
    requires TypedList(elem, vs)
    decreases elem, 1, |vs|
  {
    vs == [] || (Sendable(elem, vs[0]) && SendableList(elem, vs[1..]))
  }

  predicate SendableFields(fs: Fields, ms: Members)
    requires TypedFields(fs, ms)
    decreases fs, 0, 0
  {
    match fs
    case NoFields => true
    case Then(f, rest) =>
      && (ms.first.Set? ==> Sendable(f.kind, ms.first.value))
      && SendableFields(rest, ms.rest)
  }

  // The set members that do come back: not dropped, and not read as absent on the way in, which
  // happens to an optional JSON text that says null.
  predicate Survives(f: Field, v: Value)
  {
    !Dropped(f, v) && !(f.presence.Optional? && v == VDoc(Some(JNull)))
  }

  // The raw text is an object whose tag is the value's own.
  predicate RawSays(v: Value, tag: string)
    requires v.VUnion?
  {
    && v.raw.Some? && v.raw.value.JObject?
    && tag in v.raw.value.members && v.raw.value.members[tag] == JString(v.tag)
  }

  predicate Faithful(k: Kind, v: Value)
    requires Typed(k, v)
    decreases k, 0, 0
  {
    match k
    case Doc => v.parsed.Some?
    case ListOf(elem) => FaithfulList(elem, v.items)
    case Model(fields) => FaithfulFields(fields, v.members)
    case Tagged(arms) => FaithfulFields(arms, v.members)
    case Union(tag) => RawSays(v, tag)
    case OpenUnion(tag, _) => RawSays(v, tag) && v.raw.value.members.Keys !! RESPONSE_SECRETS
    case _ => true
  }

  predicate FaithfulList(elem: Kind, vs: seq<Value>)
    requires TypedList(elem, vs)
    decreases elem, 1, |vs|
  {
    vs == [] || (Faithful(elem, vs[0]) && FaithfulList(elem, vs[1..]))
  }

  predicate FaithfulFields(fs: Fields, ms: Members)
    requires TypedFields(fs, ms)
    decreases fs, 0, 0
  {
    match fs
    case NoFields => true
    case Then(f, rest) =>
      && (ms.first.Set? ==> Survives(f, ms.first.value) && Faithful(f.kind, ms.first.value))
      && FaithfulFields(rest, ms.rest)
  }

  // Refused before any request exactly when an enum value or an open union's tag is not known, or
  // a tagged union has not exactly one arm.
  lemma {:induction false} EncodesIff(k: Kind, v: Value)
    requires Typed(k, v)
    ensures Encode(k, v).Ok? <==> Sendable(k, v)
    decreases k, 0, 0
  {
    match k
    case ListOf(elem) => EncodesListIff(elem, v.items);
    case Model(fields) => EncodesFieldsIff(fields, v.members);
    case Tagged(arms) => EncodesFieldsIff(arms, v.members);
    case _ =>
  }

  lemma {:induction false} EncodesListIff(elem: Kind, vs: seq<Value>)
    requires TypedList(elem, vs)
    ensures EncodeList(elem, vs).Ok? <==> SendableList(elem, vs)
    decreases elem, 1, |vs|
  {
    if vs != [] {
      EncodesIff(elem, vs[0]);
      EncodesListIff(elem, vs[1..]);
    }
  }

  lemma {:induction false} EncodesFieldsIff(fs: Fields, ms: Members)
    requires TypedFields(fs, ms)
    ensures EncodeFields(fs, ms).Ok? <==> SendableFields(fs, ms)
    decreases fs, 0, 0
  {
    match fs
    case NoFields =>
    case Then(f, rest) =>
      EncodesFieldsIff(rest, ms.rest);
      if ms.first.Set? {
        EncodesIff(f.kind, ms.first.value);
        if Dropped(f, ms.first.value) { DroppedSendable(f, ms.first.value); }
      }
  }

  lemma DroppedSendable(f: Field, v: Value)
    requires Typed(f.kind, v) && Dropped(f, v)
    ensures Sendable(f.kind, v)
  {
  }

  // The encoder writes under the wire names it was given and no other.
  lemma {:induction false} EncodedKeys(fs: Fields, ms: Members)
    requires TypedFields(fs, ms) && EncodeFields(fs, ms).Ok?
    ensures EncodeFields(fs, ms).value.Keys <= Wires(fs)
  {
    match fs
    case NoFields =>
    case Then(f, rest) => EncodedKeys(rest, ms.rest);
  }

  // Members under other names do not disturb a decoding.
  lemma {:induction false} DecodeIgnoresOthers(fs: Fields, j: map<string, Json>, j': map<string, Json>)
    requires forall w :: w in Wires(fs) ==> (w in j <==> w in j') && (w in j ==> j[w] == j'[w])
    ensures DecodeFields(fs, j) == DecodeFields(fs, j')
  {
    match fs
    case NoFields =>
    case Then(f, rest) =>
      assert f.wire in Wires(fs);
      DecodeIgnoresOthers(rest, j, j');
  }

  // Only a JSON text encodes to null, and a union whose raw text says null.
  lemma EncodedNull(k: Kind, v: Value)
    requires Typed(k, v) && Encode(k, v).Ok? && Encode(k, v).value.JNull?
    ensures k.Doc? || (k.Union? && !Faithful(k, v))
  {
  }

  // Decoding what was encoded gives the value back exactly when it is faithful: every JSON text
  // in it parses, no optional one says null, no list that must not be sent empty is empty, and the
  // raw text of every union is an object with the union's tag, and of an open one without secrets.
  // Absent, null and present stay apart on the tri-state members.
  lemma {:induction false} RoundTripIff(k: Kind, v: Value)
    requires SchemaOk(k) && Typed(k, v) && Encode(k, v).Ok?
    ensures Decode(k, Encode(k, v).value) == Ok(v) <==> Faithful(k, v)
    decreases k, 0, 0
  {
    match k
    case ListOf(elem) => RoundTripListIff(elem, v.items);
    case Model(fields) => RoundTripFieldsIff(fields, v.members);
    case Tagged(arms) => RoundTripFieldsIff(arms, v.members);
    case Union(tag) => UnionIff(tag, v);
    case OpenUnion(tag, known) => OpenUnionIff(tag, known, v);
    case _ =>
  }

  lemma UnionIff(tag: string, v: Value)
    requires v.VUnion?
    ensures Decode(Union(tag), v.raw.GetOr(JObject(map[]))) == Ok(v) <==> RawSays(v, tag)
  {
    var j := v.raw.GetOr(JObject(map[]));
    if j.JObject? { assert j.members - {} == j.members; }
  }

  lemma OpenUnionIff(tag: string, known: seq<string>, v: Value)
    requires v.VUnion? && v.tag in known && tag !in RESPONSE_SECRETS
    ensures var j := JObject(RawMembers(v.raw)[tag := JString(v.tag)]);
            Decode(OpenUnion(tag, known), j) == Ok(v) <==>
            RawSays(v, tag) && v.raw.value.members.Keys !! RESPONSE_SECRETS
  {
    var sent := RawMembers(v.raw)[tag := JString(v.tag)];
    var kept := sent - RESPONSE_SECRETS;
    assert kept.Keys !! RESPONSE_SECRETS;
    if RawSays(v, tag) && v.raw.value.members.Keys !! RESPONSE_SECRETS {
      assert sent == v.raw.value.members && kept == sent;
    }
    if v.raw == Some(JObject(kept)) {
      assert tag in kept && kept[tag] == JString(v.tag);
    }
  }

  // A closed union is forwarded exactly as it was received.
  lemma UnionForwarded(tag: string, j: Json)
    requires Decode(Union(tag), j).Ok?
    ensures Encode(Union(tag), Decode(Union(tag), j).value) == Ok(j)
  {
    assert j.members - {} == j.members;
  }

  // An open one without the secrets it wrongly carried, and not at all when its tag is unknown.
  lemma OpenUnionForwarded(tag: string, known: seq<string>, j: Json)
    requires tag !in RESPONSE_SECRETS && Decode(OpenUnion(tag, known), j).Ok?
    ensures Encode(OpenUnion(tag, known), Decode(OpenUnion(tag, known), j).value) ==
            if j.members[tag].text in known then Ok(JObject(j.members - RESPONSE_SECRETS)) else Err(UnknownTag)
  {
    var kept := j.members - RESPONSE_SECRETS;
    assert kept[tag] == j.members[tag];
    assert kept[tag := JString(j.members[tag].text)] == kept;
  }

  // What is decoded is a value of the declared type.
  lemma {:induction false} DecodedTyped(k: Kind, j: Json)
    requires SchemaOk(k) && Decode(k, j).Ok?
    ensures Typed(k, Decode(k, j).value)
    decreases k, 0, 0
  {
    match k
    case ListOf(elem) => DecodedListTyped(elem, j.items);
    case Model(fields) => DecodedFieldsTyped(fields, j.members);
    case Tagged(arms) => DecodedFieldsTyped(arms, j.members);
    case _ =>
  }

  lemma {:induction false} DecodedListTyped(elem: Kind, js: seq<Json>)
    requires SchemaOk(elem) && DecodeList(elem, js).Ok?
    ensures TypedList(elem, DecodeList(elem, js).value)
    decreases elem, 1, |js|
  {
    if js != [] {
      DecodedTyped(elem, js[0]);
      DecodedListTyped(elem, js[1..]);
      assert DecodeList(elem, js).value[1..] == DecodeList(elem, js[1..]).value;
    }
  }

  lemma {:induction false} DecodedFieldsTyped(fs: Fields, j: map<string, Json>)
    requires FieldsOk(fs) && DecodeFields(fs, j).Ok?
    ensures TypedFields(fs, DecodeFields(fs, j).value)
    decreases fs, 0, 0
  {
    match fs
    case NoFields =>
    case Then(f, rest) =>
      DecodedFieldsTyped(rest, j);
      if f.wire in j && Decode(f.kind, j[f.wire]).Ok? { DecodedTyped(f.kind, j[f.wire]); }
  }

  // The arms an object has: the members it states, null not counting.
  function ArmsIn(arms: Fields, j: map<string, Json>): (ws: set<string>)
    ensures forall w :: w in ws <==> w in Wires(arms) && States(j, w)
  {
    match arms
    case NoFields => {}
    case Then(f, rest) => if States(j, f.wire) then {f.wire} + ArmsIn(rest, j) else ArmsIn(rest, j)
  }

  predicate States(j: map<string, Json>, wire: string) { wire in j && !j[wire].JNull? }

  lemma {:induction false} DecodedArms(arms: Fields, j: map<string, Json>)
    requires FieldsOk(arms) && AllOptional(arms) && DecodeFields(arms, j).Ok?
    ensures Engaged(DecodeFields(arms, j).value) == |ArmsIn(arms, j)|
  {
    match arms
    case NoFields =>
    case Then(f, rest) =>
      DecodedArms(rest, j);
      assert f.wire !in ArmsIn(rest, j);
  }

  // A tagged union decodes whatever arms it has; it is sent on exactly when that is one, and the
  // value can be sent.
  lemma TaggedForwardedIff(arms: Fields, j: Json)
    requires SchemaOk(Tagged(arms)) && Decode(Tagged(arms), j).Ok?
    ensures Typed(Tagged(arms), Decode(Tagged(arms), j).value)
    ensures var v := Decode(Tagged(arms), j).value;
            Encode(Tagged(arms), v).Ok? <==> |ArmsIn(arms, j.members)| == 1 && SendableFields(arms, v.members)
  {
    DecodedTyped(Tagged(arms), j);
    DecodedArms(arms, j.members);
    EncodesIff(Tagged(arms), Decode(Tagged(arms), j).value);
  }

  lemma {:induction false} RoundTripListIff(elem: Kind, vs: seq<Value>)
    requires SchemaOk(elem) && TypedList(elem, vs) && EncodeList(elem, vs).Ok?
    ensures DecodeList(elem, EncodeList(elem, vs).value) == Ok(vs) <==> FaithfulList(elem, vs)
    decreases elem, 1, |vs|
  {
    if vs != [] {
      RoundTripIff(elem, vs[0]);
      RoundTripListIff(elem, vs[1..]);
      var js := EncodeList(elem, vs).value;
      assert js[1..] == EncodeList(elem, vs[1..]).value;
      assert vs == [vs[0]] + vs[1..];
    }
  }

  // The member of one field comes back on its own.
  lemma MemberIff(f: Field, m: Member, j: map<string, Json>)
    requires SchemaOk(f.kind) && PresenceOk(f)
    requires m.Unset? ==> (f.presence.Optional? || f.presence.TriState?) && f.wire !in j
    requires m.Null? ==> f.presence.TriState? && f.wire in j && j[f.wire] == JNull
    requires m.Set? ==> Typed(f.kind, m.value)
                        && (if Dropped(f, m.value) then f.wire !in j
                            else f.wire in j && Encode(f.kind, m.value) == Ok(j[f.wire]))
    ensures DecodeMember(f, j) == Ok(m) <==>
            (m.Set? ==> Survives(f, m.value) && Faithful(f.kind, m.value))
    decreases f, 1, 0
  {
    if m.Set? && !Dropped(f, m.value) {
      RoundTripIff(f.kind, m.value);
      if j[f.wire].JNull? { EncodedNull(f.kind, m.value); }
    }
  }

  lemma {:induction false} RoundTripFieldsIff(fs: Fields, ms: Members)
    requires FieldsOk(fs) && TypedFields(fs, ms) && EncodeFields(fs, ms).Ok?
    ensures DecodeFields(fs, EncodeFields(fs, ms).value) == Ok(ms) <==> FaithfulFields(fs, ms)
    decreases fs, 0, 0
  {
    match fs
    case NoFields =>
    case Then(f, rest) =>
      var j := EncodeFields(fs, ms).value;
      var j' := EncodeFields(rest, ms.rest).value;
      EncodedKeys(rest, ms.rest);
      RoundTripFieldsIff(rest, ms.rest);
      DecodeIgnoresOthers(rest, j, j');
      MemberIff(f, ms.first, j);
  }
}
