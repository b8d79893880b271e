/** Which byte strings are UTF-8 (section 4 of RFC 3629), as the decoder of part names checks it. */
module Utf8 {
  import opened Bytes

  predicate Tail(b: Byte) { 0x80 <= b <= 0xBF }

  /** Whether `b` may follow the lead byte `lead` of a multi-byte scalar. */
  predicate SecondByte(lead: Byte, b: Byte) {
    && Tail(b)
    && (lead == 0xE0 ==> 0xA0 <= b)
    && (lead == 0xED ==> b <= 0x9F)
    && (lead == 0xF0 ==> 0x90 <= b)
    && (lead == 0xF4 ==> b <= 0x8F)
  }

  /** How many bytes a scalar starting with `lead` takes; 0 when none starts so. */
  function LeadSize(lead: Byte): (n: nat)
    ensures n <= 4
  {
    if lead <= 0x7F then 1
    else if 0xC2 <= lead <= 0xDF then 2
    else if 0xE0 <= lead <= 0xEF then 3
    else if 0xF0 <= lead <= 0xF4 then 4
    else 0
  }

  /** The size of the well-formed scalar `s` starts with; 0 when there is none. */
  function ScalarSize(s: seq<Byte>): (n: nat)
    ensures n <= |s|
  {
    if s == [] then 0 else
      var n := LeadSize(s[0]);
      if n <= |s| && (n >= 2 ==> SecondByte(s[0], s[1])) && (forall k :: 2 <= k < n ==> Tail(s[k]))
      then n else 0
  }

  predicate ValidUtf8(s: seq<Byte>) {
    s == [] || (ScalarSize(s) > 0 && ValidUtf8(s[ScalarSize(s)..]))
  }

  lemma {:induction false} ValidConcat(a: seq<Byte>, b: seq<Byte>)
    requires ValidUtf8(a) && ValidUtf8(b)
    ensures ValidUtf8(a + b)
  {
    if a == [] {
      assert a + b == b;
    } else {
      var n := ScalarSize(a);
      assert ScalarSize(a + b) == n;
      ValidConcat(a[n..], b);
      assert (a + b)[n..] == a[n..] + b;
    }
  }

  lemma {:induction false} AsciiValid(s: seq<Byte>)
    requires forall k :: 0 <= k < |s| ==> s[k] < 0x80
    ensures ValidUtf8(s)
  {
    if s != [] {
      AsciiValid(s[1..]);
    }
  }

  // ---------------------------------------------------------------- against the encoder

  /** A Unicode scalar value: a code point that is no surrogate. */
  predicate IsScalar(c: nat) {
    c < 0xD800 || 0xE000 <= c < 0x11_0000
  }

  /** Its encoding (section 3 of RFC 3629). */
  function Encode(c: nat): (s: seq<Byte>)
    requires IsScalar(c)
    ensures 1 <= |s| <= 4
  {
    if c < 0x80 then [c]
    else if c < 0x800 then [0xC0 + c / 64, 0x80 + c % 64]
    else if c < 0x1_0000 then [0xE0 + c / 4096, 0x80 + c / 64 % 64, 0x80 + c % 64]
    else [0xF0 + c / 26_2144, 0x80 + c / 4096 % 64, 0x80 + c / 64 % 64, 0x80 + c % 64]
  }

  ghost predicate AllScalars(cs: seq<nat>) {
    forall i :: 0 <= i < |cs| ==> IsScalar(cs[i])
  }

  function Text(cs: seq<nat>): seq<Byte>
    requires AllScalars(cs)
  {
    if cs == [] then [] else Encode(cs[0]) + Text(cs[1..])
  }

  lemma {:induction false} EncodedShape(c: nat)
    requires IsScalar(c)
    ensures var e := Encode(c);
            && LeadSize(e[0]) == |e| && (|e| >= 2 ==> SecondByte(e[0], e[1]))
            && (forall k :: 2 <= k < |e| ==> Tail(e[k]))
  {
  }

  lemma {:induction false} EncodedSize(c: nat, rest: seq<Byte>)
    requires IsScalar(c)
    ensures ScalarSize(Encode(c) + rest) == |Encode(c)|
    ensures (Encode(c) + rest)[|Encode(c)|..] == rest
  {
    hide Encode, LeadSize, SecondByte, Tail;
    EncodedShape(c);
    var e, s := Encode(c), Encode(c) + rest;
    assert s[0] == e[0] && (|e| >= 2 ==> s[1] == e[1]);
    assert forall k :: 2 <= k < |e| ==> s[k] == e[k];
  }

  /** The scalar whose encoding has this shape. */
  function Decode(s: seq<Byte>): int
    requires 1 <= |s| <= 4
  {
    var b0: int := s[0];
    if |s| == 1 then b0 else
      var b1: int := s[1];
      if |s| == 2 then (b0 - 0xC0) * 64 + (b1 - 0x80) else
        var b2: int := s[2];
        if |s| == 3 then (b0 - 0xE0) * 4096 + (b1 - 0x80) * 64 + (b2 - 0x80) else
          var b3: int := s[3];
          (b0 - 0xF0) * 26_2144 + (b1 - 0x80) * 4096 + (b2 - 0x80) * 64 + (b3 - 0x80)
  }

  lemma {:induction false} DecodeEncode(c: nat)
    requires IsScalar(c)
    ensures Decode(Encode(c)) == c
  {
    assert c == c / 64 * 64 + c % 64;
    assert c / 64 == c / 64 / 64 * 64 + c / 64 % 64 && c / 64 / 64 == c / 4096;
    assert c / 4096 == c / 4096 / 64 * 64 + c / 4096 % 64 && c / 4096 / 64 == c / 26_2144;
  }

  /** Every well-formed lead and tail come from a scalar. */
  lemma {:induction false} Decoded(s: seq<Byte>) returns (c: nat)
    requires ScalarSize(s) > 0
    ensures IsScalar(c) && Encode(c) == s[..ScalarSize(s)]
  {
    var n := ScalarSize(s);
    var e := s[..n];
    assert LeadSize(e[0]) == n && (n >= 2 ==> SecondByte(e[0], e[1])) && forall k :: 2 <= k < n ==> Tail(e[k]);
    c := EncodeDecode(e);
  }

  lemma {:induction false} Digit(q: nat, r: nat)
    requires r < 64
    ensures (q * 64 + r) / 64 == q && (q * 64 + r) % 64 == r
  {
  }

  lemma {:induction false} EncodeDecode(e: seq<Byte>) returns (c: nat)
    requires 1 <= |e| <= 4 && LeadSize(e[0]) == |e| && (|e| >= 2 ==> SecondByte(e[0], e[1]))
    requires forall k :: 2 <= k < |e| ==> Tail(e[k])
    ensures IsScalar(c) && Encode(c) == e
  {
    if |e| <= 2 {
      c := Decode(e);
    } else if |e| == 3 {
      c := EncodeThree(e);
    } else {
      c := EncodeFour(e);
    }
  }

  lemma {:induction false} EncodeThree(e: seq<Byte>) returns (c: nat)
    requires |e| == 3 && LeadSize(e[0]) == 3 && SecondByte(e[0], e[1]) && Tail(e[2])
    ensures IsScalar(c) && Encode(c) == e
  {
    var x: int, y: int, z: int := e[0] - 0xE0, e[1] - 0x80, e[2] - 0x80;
    c := (x * 64 + y) * 64 + z;
    Digit(x * 64 + y, z);
    Digit(x, y);
  }

  lemma {:induction false} EncodeFour(e: seq<Byte>) returns (c: nat)
    requires |e| == 4 && LeadSize(e[0]) == 4 && SecondByte(e[0], e[1]) && Tail(e[2]) && Tail(e[3])
    ensures IsScalar(c) && Encode(c) == e
  {
    var w: int, x: int, y: int, z: int := e[0] - 0xF0, e[1] - 0x80, e[2] - 0x80, e[3] - 0x80;
    c := ((w * 64 + x) * 64 + y) * 64 + z;
    Digit((w * 64 + x) * 64 + y, z);
    Digit(w * 64 + x, y);
    Digit(w, x);
  }

  lemma {:induction false} TextValid(cs: seq<nat>)
    requires AllScalars(cs)
    ensures ValidUtf8(Text(cs))
  {
    hide Encode, ScalarSize;
    if cs != [] {
      TextValid(cs[1..]);
      EncodedSize(cs[0], Text(cs[1..]));
    }
  }

  lemma {:induction false} ValidText(s: seq<Byte>) returns (cs: seq<nat>)
    requires ValidUtf8(s)
    ensures AllScalars(cs) && Text(cs) == s
  {
    hide Encode, ScalarSize;
    cs := [];
    if s != [] {
      var n := ScalarSize(s);
      var c := Decoded(s);
      var rest := ValidText(s[n..]);
      cs := [c] + rest;
      assert cs[1..] == rest;
      assert s == s[..n] + s[n..];
    }
  }

  /** A byte string is valid exactly when it encodes some text. */
  lemma {:induction false} ValidExactly(s: seq<Byte>)
    ensures ValidUtf8(s) <==> exists cs :: AllScalars(cs) && Text(cs) == s
  {
    hide ValidUtf8, Text;
    if ValidUtf8(s) {
      var cs := ValidText(s);
    }
    if cs :| AllScalars(cs) && Text(cs) == s {
      TextValid(cs);
    }
  }

  /** And of only one: names are told apart by their bytes. */
  lemma {:induction false} TextInjective(a: seq<nat>, b: seq<nat>)
    requires AllScalars(a) && AllScalars(b) && Text(a) == Text(b)
    ensures a == b
  {
    hide Encode, ScalarSize;
    if a != [] && b != [] {
      EncodedSize(a[0], Text(a[1..]));
      EncodedSize(b[0], Text(b[1..]));
      var s, n := Text(a), |Encode(a[0])|;
      assert s[..n] == Encode(a[0]) && s[..n] == Encode(b[0]);
      DecodeEncode(a[0]);
      DecodeEncode(b[0]);
      TextInjective(a[1..], b[1..]);
    }
  }
}
