/**
 * The encoder itself (RFC 3629), whose output is as long as `Utf8` says: the
 * bytes of a text read back as its characters by a decoder that takes only
 * shortest forms.
 */
module Encoder {
  import opened Wrappers
  import opened Canonical
  import opened Utf8

  newtype Byte = b: int | 0 <= b < 256

  /** A Unicode scalar value: a code point that is no surrogate. */
  newtype Scalar = c: int | 0 <= c < 0xD800 || 0xE000 <= c < 0x11_0000 witness 0

  const REPLACEMENT: Scalar := 0xFFFD

  /** The characters of a text; a surrogate that stands alone is replaced. */
  function Scalars(t: Text): seq<Scalar> {
    if t == [] then []
    else if High(t[0]) && |t| > 1 && Low(t[1]) then
      [(0x1_0000 + (t[0] as int - 0xD800) * 0x400 + (t[1] as int - 0xDC00)) as Scalar] + Scalars(t[2..])
    else if High(t[0]) || Low(t[0]) then [REPLACEMENT] + Scalars(t[1..])
    else [t[0] as Scalar] + Scalars(t[1..])
  }

  /** The code units of characters: a pair of surrogates from 0x10000 on. */
  function Units(s: seq<Scalar>): Text {
    if s == [] then []
    else
      var c := s[0] as int;
      (if c < 0x1_0000 then [c as Unit]
       else [(0xD800 + (c - 0x1_0000) / 0x400) as Unit, (0xDC00 + (c - 0x1_0000) % 0x400) as Unit]) + Units(s[1..])
  }

  /** Nothing of a text is lost whose surrogates are all paired. */
  lemma {:induction false} ScalarsKeepTheText(t: Text)
    requires WellPaired(t)
    ensures Units(Scalars(t)) == t
    decreases |t|
  {
    if t != [] {
      var s := Scalars(t);
      if High(t[0]) {
        assert PairedAfter(t[1..], true) && Low(t[1]);
        assert t[1..][1..] == t[2..];
        ScalarsKeepTheText(t[2..]);
        assert s[1..] == Scalars(t[2..]) && t == [t[0], t[1]] + t[2..];
      } else {
        ScalarsKeepTheText(t[1..]);
        assert s[1..] == Scalars(t[1..]) && t == [t[0]] + t[1..];
      }
    }
  }

  // ---------------------------------------------------------------- encoding (section 3)

  function EncodeOne(scalar: Scalar): seq<Byte> {
    var c := scalar as int;
    if c < 0x80 then [c as Byte]
    else if c < 0x800 then [(0xC0 + c / 0x40) as Byte, (0x80 + c % 0x40) as Byte]
    else if c < 0x1_0000 then
      [(0xE0 + c / 0x1000) as Byte, (0x80 + c / 0x40 % 0x40) as Byte, (0x80 + c % 0x40) as Byte]
    else
      [(0xF0 + c / 0x4_0000) as Byte, (0x80 + c / 0x1000 % 0x40) as Byte, (0x80 + c / 0x40 % 0x40) as Byte,
       (0x80 + c % 0x40) as Byte]
  }

  function Encode(s: seq<Scalar>): seq<Byte> {
    if s == [] then [] else EncodeOne(s[0]) + Encode(s[1..])
  }

  // ---------------------------------------------------------------- decoding (sections 3 and 4)

  predicate Tail(b: Byte) {
    0x80 <= b <= 0xBF
  }

  predicate Tails(bytes: seq<Byte>, n: nat) {
    |bytes| > n && forall i :: 1 <= i <= n ==> Tail(bytes[i])
  }

  /** The number of bytes and the code point of the first character. */
  function First(bytes: seq<Byte>): (nat, int) {
    if bytes == [] then (0, 0)
    else
      var lead := bytes[0] as int;
      if lead < 0x80 then (1, lead)
      else if 0xC0 <= lead < 0xE0 && Tails(bytes, 1) then (2, (lead - 0xC0) * 0x40 + bytes[1] as int - 0x80)
      else if 0xE0 <= lead < 0xF0 && Tails(bytes, 2) then
        (3, (lead - 0xE0) * 0x1000 + (bytes[1] as int - 0x80) * 0x40 + bytes[2] as int - 0x80)
      else if 0xF0 <= lead < 0xF8 && Tails(bytes, 3) then
        (4, (lead - 0xF0) * 0x4_0000 + (bytes[1] as int - 0x80) * 0x1000 + (bytes[2] as int - 0x80) * 0x40
            + bytes[3] as int - 0x80)
      else (0, 0)
  }

  /** The code point needs that many bytes: no fewer hold it. */
  predicate Shortest(n: nat, c: int) {
    match n
    case 1 => 0 <= c <= 0x7F
    case 2 => 0x80 <= c <= 0x7FF
    case 3 => 0x800 <= c <= 0xFFFF
    case _ => 0x1_0000 <= c <= 0x10_FFFF
  }

  function Decode(bytes: seq<Byte>): Option<seq<Scalar>> {
    if bytes == [] then Some([])
    else
      var (n, c) := First(bytes);
      if n == 0 || n > |bytes| || !Shortest(n, c) || 0xD800 <= c <= 0xDFFF then None
      else
        var rest := Decode(bytes[n..]);
        if rest.None? then None else Some([c as Scalar] + rest.value)
  }

  lemma OneDecodes(c: Scalar, rest: seq<Byte>)
    ensures var n := |EncodeOne(c)|;
            First(EncodeOne(c) + rest) == (n, c as int) && Shortest(n, c as int)
  {
    var e := EncodeOne(c);
    var bytes := e + rest;
    assert forall i :: 0 <= i < |e| ==> bytes[i] == e[i];
    var v := c as int;
    assert v == v / 0x40 * 0x40 + v % 0x40;
    assert v / 0x40 == v / 0x1000 * 0x40 + v / 0x40 % 0x40;
    assert v / 0x1000 == v / 0x4_0000 * 0x40 + v / 0x1000 % 0x40;
  }

  /** Every text of characters decodes from its bytes, which are its shortest form. */
  lemma {:induction false} EncodeDecodes(s: seq<Scalar>)
    ensures Decode(Encode(s)) == Some(s)
    decreases |s|
  {
    if s != [] {
      var e, rest := EncodeOne(s[0]), Encode(s[1..]);
      OneDecodes(s[0], rest);
      EncodeDecodes(s[1..]);
      assert (e + rest)[|e|..] == rest;
      assert [s[0]] + s[1..] == s;
    }
  }

  /** The encoder's output for a text has the length the model gives it. */
  lemma {:induction false} LengthIsEncoded(t: Text)
    ensures EncodedLength(t) == |Encode(Scalars(t))|
    decreases |t|
  {
    if t != [] {
      var s := Scalars(t);
      if High(t[0]) && |t| > 1 && Low(t[1]) {
        LengthIsEncoded(t[2..]);
        assert s[1..] == Scalars(t[2..]);
      } else {
        LengthIsEncoded(t[1..]);
        assert s[1..] == Scalars(t[1..]);
      }
    }
  }

  /** A declared length is the number of bytes a decoder takes to read the same text. */
  lemma DeclaredIsDecoded(t: Text)
    ensures Decode(Encode(Scalars(t))) == Some(Scalars(t)) && |Encode(Scalars(t))| == EncodedLength(t)
  {
    EncodeDecodes(Scalars(t));
    LengthIsEncoded(t);
  }
}
