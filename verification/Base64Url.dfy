// base64url without padding (section 5 of RFC 4648): the encoder's three-byte steps, and the
// decoder's masked accumulator.
module Base64Url {
  import opened Prelude

  type Byte = b: int | 0 <= b < 256
  type Sextet = v: int | 0 <= v < 64

  // ---- the alphabet ----

  function Symbol(v: Sextet): char
  {
    if v < 26 then ('A' as int + v) as char
    else if v < 52 then ('a' as int + (v - 26)) as char
    else if v < 62 then ('0' as int + (v - 52)) as char
    else if v == 62 then '-' else '_'
  }

  function ValueOf(c: char): Option<Sextet>
  {
    if 'A' <= c <= 'Z' then Some(c as int - 'A' as int)
    else if 'a' <= c <= 'z' then Some(c as int - 'a' as int + 26)
    else if '0' <= c <= '9' then Some(c as int - '0' as int + 52)
    else if c == '-' then Some(62)
    else if c == '_' then Some(63)
    else None
  }

  // ---- encoding ----

  // Up to three bytes as one 24-bit group, the first byte on top.
  function Word(chunk: seq<Byte>): (v: int)
    requires 1 <= |chunk| <= 3
    ensures 0 <= v < 0x100_0000
  {
    (chunk[0] as int) * 65536
    + (if |chunk| > 1 then (chunk[1] as int) * 256 else 0)
    + (if |chunk| > 2 then chunk[2] as int else 0)
  }

  // The symbols of one step: two for one byte, three for two, four for three. The source's
  // shifts and masks are division and remainder here.
  function Symbols(v: int, have: int): string
    requires 0 <= v
  {
    [Symbol(v / 262144 % 64), Symbol(v / 4096 % 64)]
    + (if have > 1 then [Symbol(v / 64 % 64)] else [])
    + (if have > 2 then [Symbol(v % 64)] else [])
  }

  function Encoded(bytes: seq<Byte>): string
  {
    if bytes == [] then ""
    else if |bytes| <= 3 then Symbols(Word(bytes), |bytes|)
    else Symbols(Word(bytes[..3]), 3) + Encoded(bytes[3..])
  }

  lemma LastGroup(rest: seq<Byte>)
    requires 1 <= |rest| <= 3
    ensures rest[..|rest|] == rest && rest[|rest|..] == []
  {
  }

  // A step: the group at the front, then the rest.
  lemma EncodedStep(rest: seq<Byte>, have: nat)
    requires rest != [] && have == if |rest| >= 3 then 3 else |rest|
    ensures Encoded(rest) == Symbols(Word(rest[..have]), have) + Encoded(rest[have..])
  {
    if |rest| <= 3 {
      LastGroup(rest);
      EncodedShort(rest);
    }
  }

  lemma EncodedShort(rest: seq<Byte>)
    requires 1 <= |rest| <= 3
    ensures Encoded(rest) == Symbols(Word(rest), |rest|) + Encoded([])
  {
    Regroup(Symbols(Word(rest), |rest|), "", "");
  }

  method ReadGroup(bytes: seq<Byte>, i: nat) returns (v: int, have: nat)
    requires i < |bytes|
    ensures 1 <= have <= 3 && have == if i + 3 <= |bytes| then 3 else |bytes| - i
    ensures v == Word(bytes[i..i + have])
  {
    v := (bytes[i] as int) * 65536;
    have := 1;
    if i + 1 < |bytes| {
      v := v + (bytes[i + 1] as int) * 256;
      have := 2;
    }
    if i + 2 < |bytes| {
      v := v + bytes[i + 2] as int;
      have := 3;
    }
  }

  method PushSymbols(before: string, v: int, have: int) returns (out: string)
    requires 0 <= v
    ensures out == before + Symbols(v, have)
  {
    out := before + [Symbol(v / 262144 % 64)];
    out := out + [Symbol(v / 4096 % 64)];
    if have > 1 { out := out + [Symbol(v / 64 % 64)]; }
    if have > 2 { out := out + [Symbol(v % 64)]; }
  }

  lemma Regroup(out: string, group: string, rest: string)
    ensures out + (group + rest) == out + group + rest
    ensures out + "" == out
  {
  }

  method Encode(bytes: seq<Byte>) returns (out: string)
    ensures out == Encoded(bytes)
  {
    out := "";
    var i := 0;
    ghost var rest := bytes;
    while i < |bytes|
      invariant 0 <= i && rest == if i <= |bytes| then bytes[i..] else []
      invariant out + Encoded(rest) == Encoded(bytes)
    {
      var v, have := ReadGroup(bytes, i);
      assert rest[..have] == bytes[i..i + have];
      EncodedStep(rest, have);
      Regroup(out, Symbols(v, have), Encoded(rest[have..]));
      out := PushSymbols(out, v, have);
      rest := rest[have..];
      i := i + 3;
    }
    assert out + "" == out;
  }

  // ---- decoding ----

  // What is left to decode with the accumulator at `buffer` and `bits` of it still owed; the
  // accumulator keeps its low `width` when it is masked, and everything when it is not.
  datatype Accumulator = Masked | Unbounded

  function Shift(kind: Accumulator, buffer: nat, v: Sextet): nat
  {
    if kind.Masked? then (buffer * 64 + v) % 0x100_0000 else buffer * 64 + v
  }

  function Pow2(bits: nat): nat
  {
    match bits
    case 0 => 1
    case 2 => 4
    case 4 => 16
    case _ => 64
  }

  function DecodeFrom(kind: Accumulator, text: string, buffer: nat, bits: nat): Option<seq<Byte>>
    requires bits in {0, 2, 4, 6}
  {
    if text == "" || text[0] == '=' then Some([])
    else
      var v := ValueOf(text[0]);
      if v.None? then None
      else
        var buffer' := Shift(kind, buffer, v.value);
        if bits + 6 >= 8 then
          var rest := DecodeFrom(kind, text[1..], buffer', bits - 2);
          if rest.None? then None else Some([buffer' / Pow2(bits - 2) % 256] + rest.value)
        else DecodeFrom(kind, text[1..], buffer', bits + 6)
  }

  method Decode(text: string) returns (r: Option<seq<Byte>>)
    ensures r == DecodeFrom(Masked, text, 0, 0)
  {
    var out: seq<Byte> := [];
    var buffer := 0;
    var bits := 0;
    var i := 0;
    assert text[0..] == text;
    PrependNothing(DecodeFrom(Masked, text, 0, 0), []);
    while i < |text|
      invariant 0 <= i <= |text| && buffer >= 0 && bits in {0, 2, 4, 6}
      invariant Prepend(out, DecodeFrom(Masked, text[i..], buffer, bits)) == DecodeFrom(Masked, text, 0, 0)
    {
      assert text[i..][0] == text[i] && text[i..][1..] == text[i + 1..];
      if text[i] == '=' { break; }
      var v := ValueOf(text[i]);
      if v.None? { return None; }
      buffer := (buffer * 64 + v.value) % 0x100_0000;
      bits := bits + 6;
      if bits >= 8 {
        bits := bits - 8;
        PrependStep(out, buffer / Pow2(bits) % 256, DecodeFrom(Masked, text[i + 1..], buffer, bits));
        out := out + [buffer / Pow2(bits) % 256];
      }
      i := i + 1;
    }
    PrependNothing(None, out);
    r := Some(out);
  }

  function Prepend(front: seq<Byte>, rest: Option<seq<Byte>>): Option<seq<Byte>>
  {
    if rest.None? then None else Some(front + rest.value)
  }

  lemma PrependNothing(r: Option<seq<Byte>>, out: seq<Byte>)
    ensures Prepend([], r) == r && Prepend(out, Some([])) == Some(out)
  {
    assert out + [] == out;
    assert r.Some? ==> [] + r.value == r.value;
  }

  lemma PrependStep(front: seq<Byte>, b: Byte, rest: Option<seq<Byte>>)
    ensures Prepend(front, Prepend([b], rest)) == Prepend(front + [b], rest)
  {
    if rest.Some? {
      assert front + ([b] + rest.value) == front + [b] + rest.value;
    }
  }

  // ---- masking ----

  // Multiples of 256 do not show in the low byte.
  lemma LowByte(q: int, y: int)
    ensures (q * 256 + y) % 256 == y % 256
  {
  }

  lemma MaskedRead(x: nat, p: nat)
    requires p in {1, 4, 16}
    ensures x % 0x100_0000 / p % 256 == x / p % 256
  {
    var q, r := x / 0x100_0000, x % 0x100_0000;
    if p == 1 {
      LowByte(q * 0x1_0000, r);
    } else if p == 4 {
      assert x / 4 == q * 0x40_0000 + r / 4;
      LowByte(q * 0x4000, r / 4);
    } else {
      assert x / 16 == q * 0x10_0000 + r / 16;
      LowByte(q * 0x1000, r / 16);
    }
  }

  lemma MaskedShift(x: nat, v: Sextet)
    ensures (x % 0x100_0000 * 64 + v) % 0x100_0000 == (x * 64 + v) % 0x100_0000
  {
    var q, r := x / 0x100_0000, x % 0x100_0000;
    assert x * 64 + v == q * 64 * 0x100_0000 + (r * 64 + v);
  }

  // Keeping 24 bits of the accumulator loses nothing that is ever read: on every input, valid or
  // not, the answer is that of an accumulator that never wraps.
  lemma {:induction false} MaskingHarmless(text: string, wide: nat, bits: nat)
    requires bits in {0, 2, 4, 6}
    ensures DecodeFrom(Masked, text, wide % 0x100_0000, bits) == DecodeFrom(Unbounded, text, wide, bits)
    decreases |text|
  {
    if text != "" && text[0] != '=' && ValueOf(text[0]).Some? {
      var v := ValueOf(text[0]).value;
      MaskedShift(wide, v);
      if bits > 0 {
        MaskedRead(wide * 64 + v, Pow2(bits - 2));
        MaskingHarmless(text[1..], wide * 64 + v, bits - 2);
      } else {
        MaskingHarmless(text[1..], wide * 64 + v, 6);
      }
    }
  }

  lemma MaskedIsUnbounded(text: string)
    ensures DecodeFrom(Masked, text, 0, 0) == DecodeFrom(Unbounded, text, 0, 0)
  {
    MaskingHarmless(text, 0, 0);
  }

  // ---- which inputs decode ----

  // The symbols before the first padding character.
  function Payload(text: string): string
  {
    if text == "" || text[0] == '=' then "" else [text[0]] + Payload(text[1..])
  }

  predicate InAlphabet(text: string) { forall i :: 0 <= i < |text| ==> ValueOf(text[i]).Some? }

  lemma {:induction false} DecodesIff(kind: Accumulator, text: string, buffer: nat, bits: nat)
    requires bits in {0, 2, 4, 6}
    ensures DecodeFrom(kind, text, buffer, bits).Some? <==> InAlphabet(Payload(text))
    ensures DecodeFrom(kind, text, buffer, bits).Some? ==>
              |DecodeFrom(kind, text, buffer, bits).value| == (6 * |Payload(text)| + bits) / 8
    decreases |text|
  {
    if text != "" && text[0] != '=' {
      var p := Payload(text);
      assert p[0] == text[0] && p[1..] == Payload(text[1..]);
      assert InAlphabet(p) <==> ValueOf(p[0]).Some? && InAlphabet(p[1..]) by {
        assert forall i :: 0 < i < |p| ==> p[i] == p[1..][i - 1];
        assert forall i :: 0 <= i < |p[1..]| ==> p[1..][i] == p[i + 1];
      }
      if ValueOf(text[0]).Some? {
        var next := Shift(kind, buffer, ValueOf(text[0]).value);
        DecodesIff(kind, text[1..], next, if bits > 0 then bits - 2 else 6);
      }
    }
  }

  // ---- the round trip ----

  lemma SymbolValue(v: Sextet)
    ensures ValueOf(Symbol(v)) == Some(v) && Symbol(v) != '='
  {
  }

  // Sextets pushed one after another rebuild the quotients of the group.
  lemma Quotients(v: nat)
    requires v < 0x100_0000
    ensures v / 262144 % 64 * 64 + v / 4096 % 64 == v / 4096
    ensures v / 4096 * 64 + v / 64 % 64 == v / 64
    ensures v / 64 * 64 + v % 64 == v
  {
    assert v / 262144 == v / 4096 / 64 && v / 4096 == v / 64 / 64;
    assert v / 262144 < 64;
  }

  lemma FirstByte(v: nat, acc: nat)
    requires v < 0x100_0000
    ensures (acc * 4096 + v / 4096) / 16 % 256 == v / 65536
  {
    assert v / 4096 / 16 == v / 65536;
    assert (acc * 4096 + v / 4096) / 16 == acc * 256 + v / 65536;
    LowByte(acc, v / 65536);
  }

  lemma SecondByte(v: nat, acc: nat)
    ensures (acc * 262144 + v / 64) / 4 % 256 == v / 256 % 256
  {
    assert v / 64 / 4 == v / 256;
    assert (acc * 262144 + v / 64) / 4 == acc * 65536 + v / 256;
    LowByte(acc * 256, v / 256);
  }

  lemma WordBytes(chunk: seq<Byte>)
    requires 1 <= |chunk| <= 3
    ensures Word(chunk) / 65536 == chunk[0]
    ensures |chunk| > 1 ==> Word(chunk) / 256 % 256 == chunk[1]
    ensures |chunk| > 2 ==> Word(chunk) % 256 == chunk[2]
  {
  }

  predicate EndsInput(tail: string) { tail == "" || tail[0] == '=' }

  // One symbol read.
  lemma ReadSymbol(v: Sextet, rest: string, acc: nat, bits: nat)
    requires bits in {0, 2, 4, 6}
    ensures var text := [Symbol(v)] + rest;
            DecodeFrom(Unbounded, text, acc, bits) ==
            if bits == 0 then DecodeFrom(Unbounded, rest, acc * 64 + v, 6)
            else Prepend([(acc * 64 + v) / Pow2(bits - 2) % 256], DecodeFrom(Unbounded, rest, acc * 64 + v, bits - 2))
  {
    var text := [Symbol(v)] + rest;
    SymbolValue(v);
    assert text[0] == Symbol(v) && text[1..] == rest;
  }

  // The first two symbols of a group give its first byte, over any older bits.
  lemma DecodeTwo(v: nat, rest: string, acc: nat)
    requires v < 0x100_0000
    ensures DecodeFrom(Unbounded, [Symbol(v / 262144 % 64)] + ([Symbol(v / 4096 % 64)] + rest), acc, 0)
            == Prepend([v / 65536], DecodeFrom(Unbounded, rest, acc * 4096 + v / 4096, 4))
  {
    var s0, s1 := v / 262144 % 64, v / 4096 % 64;
    Quotients(v);
    FirstByte(v, acc);
    ReadSymbol(s0, [Symbol(s1)] + rest, acc, 0);
    ReadSymbol(s1, rest, acc * 64 + s0, 6);
    assert (acc * 64 + s0) * 64 + s1 == acc * 4096 + v / 4096;
  }

  lemma DecodeThird(v: nat, rest: string, acc: nat)
    requires v < 0x100_0000
    ensures DecodeFrom(Unbounded, [Symbol(v / 64 % 64)] + rest, acc * 4096 + v / 4096, 4)
            == Prepend([v / 256 % 256], DecodeFrom(Unbounded, rest, acc * 262144 + v / 64, 2))
  {
    Quotients(v);
    SecondByte(v, acc);
    ReadSymbol(v / 64 % 64, rest, acc * 4096 + v / 4096, 4);
    assert (acc * 4096 + v / 4096) * 64 + v / 64 % 64 == acc * 262144 + v / 64;
  }

  lemma DecodeFourth(v: nat, rest: string, acc: nat)
    requires v < 0x100_0000
    ensures DecodeFrom(Unbounded, [Symbol(v % 64)] + rest, acc * 262144 + v / 64, 2)
            == Prepend([v % 256], DecodeFrom(Unbounded, rest, acc * 0x100_0000 + v, 0))
  {
    Quotients(v);
    ReadSymbol(v % 64, rest, acc * 262144 + v / 64, 2);
    assert (acc * 262144 + v / 64) * 64 + v % 64 == acc * 0x100_0000 + v;
    LowByte(acc * 0x1_0000, v);
  }

  // A short group decodes to its bytes when nothing but padding follows.
  lemma DecodeShort(chunk: seq<Byte>, rest: string, acc: nat)
    requires 1 <= |chunk| <= 2 && EndsInput(rest)
    ensures DecodeFrom(Unbounded, Symbols(Word(chunk), |chunk|) + rest, acc, 0) == Some(chunk)
  {
    var v := Word(chunk);
    WordBytes(chunk);
    var third := if |chunk| > 1 then [Symbol(v / 64 % 64)] else [];
    assert Symbols(v, |chunk|) + rest == [Symbol(v / 262144 % 64)] + ([Symbol(v / 4096 % 64)] + (third + rest));
    DecodeTwo(v, third + rest, acc);
    if |chunk| == 1 {
      assert third + rest == rest && chunk == [chunk[0]] + [];
    } else {
      DecodeThird(v, rest, acc);
      assert chunk == [chunk[0]] + ([chunk[1]] + []);
    }
  }

  // A whole group decodes to its bytes, whatever came before and whatever follows.
  lemma DecodeWhole(v: nat, rest: string, acc: nat)
    requires v < 0x100_0000
    ensures DecodeFrom(Unbounded, Symbols(v, 3) + rest, acc, 0)
            == Prepend([v / 65536, v / 256 % 256, v % 256], DecodeFrom(Unbounded, rest, acc * 0x100_0000 + v, 0))
  {
    var s2, s3 := [Symbol(v / 64 % 64)], [Symbol(v % 64)];
    var last := DecodeFrom(Unbounded, rest, acc * 0x100_0000 + v, 0);
    assert Symbols(v, 3) + rest == [Symbol(v / 262144 % 64)] + ([Symbol(v / 4096 % 64)] + (s2 + (s3 + rest)));
    DecodeTwo(v, s2 + (s3 + rest), acc);
    DecodeThird(v, s3 + rest, acc);
    DecodeFourth(v, rest, acc);
    PrependThree(v / 65536, v / 256 % 256, v % 256, last);
  }

  lemma PrependThree(b0: Byte, b1: Byte, b2: Byte, rest: Option<seq<Byte>>)
    ensures Prepend([b0], Prepend([b1], Prepend([b2], rest))) == Prepend([b0, b1, b2], rest)
  {
    if rest.Some? {
      assert [b0] + ([b1] + ([b2] + rest.value)) == [b0, b1, b2] + rest.value;
    }
  }

  lemma {:induction false} EncodedDecodes(bytes: seq<Byte>, tail: string, acc: nat)
    requires EndsInput(tail)
    ensures DecodeFrom(Unbounded, Encoded(bytes) + tail, acc, 0) == Some(bytes)
    decreases |bytes|
  {
    if bytes == [] {
      assert "" + tail == tail;
    } else if |bytes| <= 2 {
      DecodeShort(bytes, tail, acc);
    } else {
      var chunk, more := bytes[..3], bytes[3..];
      if more == [] { assert chunk == bytes; assert Encoded(bytes) == Symbols(Word(chunk), 3) + Encoded(more); }
      assert Encoded(bytes) + tail == Symbols(Word(chunk), 3) + (Encoded(more) + tail);
      DecodeWhole(Word(chunk), Encoded(more) + tail, acc);
      WordBytes(chunk);
      assert chunk == [chunk[0], chunk[1], chunk[2]];
      EncodedDecodes(more, tail, acc * 0x100_0000 + Word(chunk));
      assert bytes == chunk + more;
    }
  }

  // Decoding an encoding gives the bytes back, padded or not.
  lemma RoundTrip(bytes: seq<Byte>, tail: string)
    requires EndsInput(tail)
    ensures DecodeFrom(Masked, Encoded(bytes) + tail, 0, 0) == Some(bytes)
  {
    var text := Encoded(bytes) + tail;
    EncodedDecodes(bytes, tail, 0);
    MaskedIsUnbounded(text);
  }

  // Four symbols for three bytes, rounded up, and none of them padding.
  lemma {:induction false} EncodedShape(bytes: seq<Byte>)
    ensures |Encoded(bytes)| == (4 * |bytes| + 2) / 3
    ensures forall i :: 0 <= i < |Encoded(bytes)| ==> ValueOf(Encoded(bytes)[i]).Some?
    decreases |bytes|
  {
    if bytes != [] {
      var v := Word(if |bytes| <= 3 then bytes else bytes[..3]);
      SymbolValue(v / 262144 % 64);
      SymbolValue(v / 4096 % 64);
      SymbolValue(v / 64 % 64);
      SymbolValue(v % 64);
      if |bytes| > 3 {
        EncodedShape(bytes[3..]);
      }
    }
  }
}
