/** percentDecode: the loop, its recursive reading, and that it inverts every percent-encoding. */
module PercentDecoding {
  import opened Sequences

  type Byte = x: int | 0 <= x < 256
  type Bytes = seq<Byte>

  const PERCENT: Byte := '%' as int

  /** std::isxdigit in the C locale: 0-9, A-F, a-f. */
  predicate IsHex(b: Byte) {
    48 <= b <= 57 || 65 <= b <= 70 || 97 <= b <= 102
  }

  /** The accepted bytes are the hex digits in either case. */
  lemma IsHexIff(b: Byte)
    ensures IsHex(b) <==> b as char in "0123456789abcdefABCDEF"
  {
    var digits := "0123456789abcdefABCDEF";
    if IsHex(b) {
      var i := if b <= 57 then b - 48 else if b <= 70 then b - 49 else b - 87;
      assert digits[i] == b as char;
    }
  }

  /** Each digit counts for its place among them. */
  lemma HexValueIs(i: nat)
    requires i < 16
    ensures var upper, lower := "0123456789ABCDEF"[i] as int, "0123456789abcdef"[i] as int;
            && upper < 256 && IsHex(upper) && HexValue(upper) == i
            && lower < 256 && IsHex(lower) && HexValue(lower) == i
  {
  }

  function HexValue(b: Byte): (v: int)
    requires IsHex(b)
    ensures 0 <= v < 16
  {
    if b <= 57 then b - 48 else if b <= 70 then b - 55 else b - 87
  }

  /** A '%' at position i with two hex digits after it. */
  predicate EscapeAt(s: Bytes, i: int) {
    0 <= i && i + 2 < |s| && s[i] == PERCENT && IsHex(s[i + 1]) && IsHex(s[i + 2])
  }

  function Escaped(s: Bytes, i: int): Byte
    requires EscapeAt(s, i)
  {
    16 * HexValue(s[i + 1]) + HexValue(s[i + 2])
  }

  /** Recursive reading of the decoder. */
  function Decode(s: Bytes): Bytes {
    if s == [] then []
    else if EscapeAt(s, 0) then [Escaped(s, 0)] + Decode(s[3..])
    else [s[0]] + Decode(s[1..])
  }

  /** One turn of the decoder at position i. */
  lemma DecodeFrom(s: Bytes, i: nat)
    requires i < |s|
    ensures EscapeAt(s, i) ==> Decode(s[i..]) == [Escaped(s, i)] + Decode(s[i + 3..])
    ensures !EscapeAt(s, i) ==> Decode(s[i..]) == [s[i]] + Decode(s[i + 1..])
  {
    var rest := s[i..];
    assert EscapeAt(rest, 0) <==> EscapeAt(s, i);
    assert rest[1..] == s[i + 1..];
    if EscapeAt(s, i) {
      assert rest[3..] == s[i + 3..];
    }
  }

  /** The first i bytes have been decoded into `out`. */
  ghost predicate Decoded(s: Bytes, i: int, out: Bytes) {
    0 <= i <= |s| && out + Decode(s[i..]) == Decode(s)
  }

  lemma DecodedStep(s: Bytes, i: int, out: Bytes)
    requires Decoded(s, i, out) && i < |s|
    ensures if EscapeAt(s, i) then Decoded(s, i + 3, out + [Escaped(s, i)]) else Decoded(s, i + 1, out + [s[i]])
  {
    DecodeFrom(s, i);
    if EscapeAt(s, i) {
      Associative(out, [Escaped(s, i)], Decode(s[i + 3..]));
    } else {
      Associative(out, [s[i]], Decode(s[i + 1..]));
    }
  }

  method PercentDecode(input: Bytes) returns (out: Bytes)
    ensures out == Decode(input)
  {
    out := [];
    var i := 0;
    assert input[0..] == input;
    while i < |input|
      invariant Decoded(input, i, out)
    {
      DecodedStep(input, i, out);
      if input[i] == PERCENT && i + 2 < |input| && IsHex(input[i + 1]) && IsHex(input[i + 2]) {
        out := out + [16 * HexValue(input[i + 1]) + HexValue(input[i + 2])];
        i := i + 2;
      } else {
        out := out + [input[i]];
      }
      i := i + 1;
    }
    assert input[i..] == [];
  }

  // ---------------------------------------------------------------- encodings

  /** How one byte is written: as itself, or escaped with either case for each hex digit. */
  datatype Choice = Plain | Escape(upperFirst: bool, upperSecond: bool)

  function HexDigit(v: int, upper: bool): (b: Byte)
    requires 0 <= v < 16
    ensures IsHex(b) && HexValue(b) == v
  {
    if v < 10 then 48 + v else if upper then 55 + v else 87 + v
  }

  function EncodeByte(b: Byte, c: Choice): Bytes {
    match c
    case Plain => [b]
    case Escape(first, second) => [PERCENT, HexDigit(b / 16, first), HexDigit(b % 16, second)]
  }

  function Encode(s: Bytes, cs: seq<Choice>): Bytes
    requires |s| == |cs|
  {
    if s == [] then [] else EncodeByte(s[0], cs[0]) + Encode(s[1..], cs[1..])
  }

  /** Section 2.1 of RFC 3986: a '%' must itself be escaped; any other byte may be. */
  predicate Permitted(s: Bytes, cs: seq<Choice>) {
    |s| == |cs| && forall i :: 0 <= i < |s| && s[i] == PERCENT ==> cs[i].Escape?
  }

  /** Decoding gives every string back from every way of encoding it. */
  lemma {:induction false} DecodeInvertsEncode(s: Bytes, cs: seq<Choice>)
    requires Permitted(s, cs)
    ensures Decode(Encode(s, cs)) == s
  {
    if s != [] {
      DecodeInvertsEncode(s[1..], cs[1..]);
      var e := Encode(s, cs);
      if cs[0].Plain? {
        assert e[1..] == Encode(s[1..], cs[1..]);
      } else {
        assert e[3..] == Encode(s[1..], cs[1..]);
        assert Escaped(e, 0) == 16 * (s[0] / 16) + s[0] % 16;
      }
    }
  }

  /** The output has between a third of the input's length and all of it. */
  lemma {:induction false} DecodeLength(s: Bytes)
    ensures |Decode(s)| <= |s| <= 3 * |Decode(s)|
  {
    if s != [] {
      DecodeLength(if EscapeAt(s, 0) then s[3..] else s[1..]);
    }
  }

  /** The string comes back unchanged exactly if no position holds a well-formed escape. */
  lemma {:induction false} UnchangedIff(s: Bytes)
    ensures Decode(s) == s <==> (forall i :: 0 <= i < |s| ==> !EscapeAt(s, i))
  {
    if s != [] {
      if EscapeAt(s, 0) {
        DecodeLength(s[3..]);
        assert |Decode(s)| < |s|;
      } else {
        UnchangedIff(s[1..]);
        forall i | 1 <= i < |s| ensures EscapeAt(s, i) <==> EscapeAt(s[1..], i - 1) {}
        forall i | 0 <= i < |s| - 1 ensures EscapeAt(s[1..], i) <==> EscapeAt(s, i + 1) {}
        assert s == [s[0]] + s[1..];
        assert Decode(s)[1..] == Decode(s[1..]);
      }
    }
  }

  /** Bytes before the first well-formed escape are copied; the escape becomes one byte. */
  lemma {:induction false} FirstEscape(s: Bytes, i: nat)
    requires EscapeAt(s, i) && forall j :: 0 <= j < i ==> !EscapeAt(s, j)
    ensures Decode(s) == s[..i] + [Escaped(s, i)] + Decode(s[i + 3..])
  {
    if i > 0 {
      forall j | 0 <= j < i - 1 ensures !EscapeAt(s[1..], j) {
        assert EscapeAt(s[1..], j) ==> EscapeAt(s, j + 1);
      }
      FirstEscape(s[1..], i - 1);
      assert s[1..][i + 2..] == s[i + 3..];
      assert s[..i] == [s[0]] + s[1..][..i - 1];
    }
  }
}
