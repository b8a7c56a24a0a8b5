/** The encodings against their own standards: examples, shortest forms and code
    points. */
module Spellings {
  import opened Prelude
  import opened Encodings

  // ---- Base64 (RFC 4648, section 10 and tables 1 and 2) --------------------

  /** "foo" is "Zm9v", and the two symbols that the alphabets do not share. */
  lemma GroupVectors()
    ensures Group(Standard, 102, 111, 111) == [90, 109, 57, 118] == Group(UrlSafe, 102, 111, 111)
    ensures Group(Standard, 251, 255, 190) == [43, 47, 43, 43]
    ensures Group(UrlSafe, 251, 255, 190) == [45, 95, 45, 45]
  {
  }

  /** "f" is "Zg==", "fo" is "Zm8=", and "foof" is "Zm9vZg==". */
  lemma Base64Vectors()
    ensures Encode(Standard, true, [102]) == [90, 103, 61, 61] && Encode(Standard, false, [102]) == [90, 103]
    ensures Encode(UrlSafe, true, [102, 111]) == [90, 109, 56, 61] && Encode(UrlSafe, false, [102, 111]) == [90, 109, 56]
    ensures Encode(Standard, true, [102, 111, 111, 102]) == [90, 109, 57, 118, 90, 103, 61, 61]
  {
    GroupVectors();
    assert [102, 111, 111, 102][3..] == [102];
    assert Group(Standard, 102, 0, 0) == [90, 103, 65, 65];
    assert Group(UrlSafe, 102, 111, 0) == [90, 109, 56, 65];
  }

  // ---- Hexadecimal ---------------------------------------------------------

  const LOWER: Bytes := [48, 49, 50, 51, 52, 53, 54, 55, 56, 57, 97, 98, 99, 100, 101, 102]
  const UPPER: Bytes := [48, 49, 50, 51, 52, 53, 54, 55, 56, 57, 65, 66, 67, 68, 69, 70]

  lemma DigitTable(v: byte)
    requires v < 16
    ensures HexDigit(v, false) == LOWER[v as int] && HexDigit(v, true) == UPPER[v as int]
  {
    assert v as int < 16;
    assert LOWER[..10] == [48, 49, 50, 51, 52, 53, 54, 55, 56, 57];
  }

  /** Two digits of either case, and nothing else, name a byte: their values are its
      halves. */
  lemma HexExactly(hi: byte, lo: byte, b: byte)
    ensures HexByte(hi, lo) == Some(b) <==>
              && (hi == HexDigit(b >> 4, false) || hi == HexDigit(b >> 4, true))
              && (lo == HexDigit(b & 15, false) || lo == HexDigit(b & 15, true))
  {
  }

  // ---- Shortest forms ------------------------------------------------------

  /** What may stand for itself in a query or path: letters, digits and "-._~". */
  predicate Safe(b: byte) {
    48 <= b <= 57 || 65 <= b <= 90 || 97 <= b <= 122 || b in [45, 46, 95, 126]
  }

  /** Text of safe bytes, percent signs and, in a form, plus signs. */
  predicate Escaped(t: Bytes, form: bool) {
    forall k :: 0 <= k < |t| ==> Safe(t[k]) || t[k] == 37 || (form && t[k] == 43)
  }

  lemma {:induction false} EncodedEscaped(s: Bytes, form: bool, upper: bool)
    ensures Escaped(PercentEncode(s, form, upper), form)
  {
    if s != [] { EncodedEscaped(s[1..], form, upper); }
  }

  /** Of all such texts that decode to `s`, percent encoding gives a shortest one. */
  lemma {:induction false} PercentShortest(t: Bytes, form: bool, upper: bool)
    requires Escaped(t, form) && PercentDecode(t, form).Some?
    ensures |PercentEncode(PercentDecode(t, form).value, form, upper)| <= |t|
    decreases |t|
  {
    if t != [] {
      var n := if t[0] == PERCENT then 3 else 1;
      PercentShortest(t[n..], form, upper);
      var s := PercentDecode(t, form).value;
      assert s[1..] == PercentDecode(t[n..], form).value;
    }
  }

  /** The hexadecimal digits are of the case asked for. */
  lemma {:induction false} PercentCase(s: Bytes, form: bool, upper: bool, k: nat)
    requires k + 2 < |PercentEncode(s, form, upper)| && PercentEncode(s, form, upper)[k] == 37
    ensures var hi, lo := PercentEncode(s, form, upper)[k + 1], PercentEncode(s, form, upper)[k + 2];
            && (48 <= hi <= 57 || (if upper then 65 <= hi <= 70 else 97 <= hi <= 102))
            && (48 <= lo <= 57 || (if upper then 65 <= lo <= 70 else 97 <= lo <= 102))
  {
    var head := PercentByte(s[0], form, upper);
    if k >= |head| {
      PercentCase(s[1..], form, upper, k - |head|);
    }
  }

  lemma {:induction false} EscapedDecodes(s: Bytes)
    ensures JsonUnescape(JsonEscape(s)).Some?
  {
    JsonRound(s);
  }

  /** Of all insides of JSON strings that denote `s`, escaping gives a shortest one. */
  lemma {:induction false} JsonShortest(t: Bytes)
    requires JsonUnescape(t).Some?
    ensures |JsonEscape(JsonUnescape(t).value)| <= |t|
    decreases |t|
  {
    if t != [] {
      var n := if t[0] != BACKSLASH then 1 else if |t| >= 2 && Unescaped(t[1]).Some? then 2 else 6;
      JsonShortest(t[n..]);
      var s := JsonUnescape(t).value;
      assert s[1..] == JsonUnescape(t[n..]).value;
      ByteShortest(t, n, s[0]);
    }
  }

  lemma ByteShortest(t: Bytes, n: nat, b: byte)
    requires t != [] && n == (if t[0] != BACKSLASH then 1 else if |t| >= 2 && Unescaped(t[1]).Some? then 2 else 6)
    requires t[0] != BACKSLASH ==> t[0] == b && b != QUOTE && b >= 32
    requires n == 2 ==> Unescaped(t[1]) == Some(b)
    ensures |JsonByte(b)| <= n
  {
  }

  // ---- UTF-8 (RFC 3629, section 3) -----------------------------------------

  /** A Unicode scalar value. */
  predicate Scalar(c: bv21) {
    c <= 0x10FFFF && !(0xD800 <= c <= 0xDFFF)
  }

  /** The bits of `c`, in one to four bytes. */
  function Utf8Of(c: bv21): Bytes {
    if c < 0x80 then [c as bv8]
    else if c < 0x800 then [0xC0 | (c >> 6) as bv8, 0x80 | (c & 0x3F) as bv8]
    else if c < 0x10000 then [0xE0 | (c >> 12) as bv8, 0x80 | ((c >> 6) & 0x3F) as bv8, 0x80 | (c & 0x3F) as bv8]
    else [0xF0 | (c >> 18) as bv8, 0x80 | ((c >> 12) & 0x3F) as bv8, 0x80 | ((c >> 6) & 0x3F) as bv8, 0x80 | (c & 0x3F) as bv8]
  }

  function Utf8Text(text: seq<bv21>): Bytes {
    if text == [] then [] else Utf8Of(text[0]) + Utf8Text(text[1..])
  }

  predicate Scalars(text: seq<bv21>) {
    forall k :: 0 <= k < |text| ==> Scalar(text[k])
  }

  lemma LengthOf(c: bv21, rest: Bytes)
    requires Scalar(c)
    ensures Utf8Length(Utf8Of(c) + rest) == |Utf8Of(c)| > 0 && (Utf8Of(c) + rest)[|Utf8Of(c)|..] == rest
  {
    var s := Utf8Of(c) + rest;
    assert s[0] == Utf8Of(c)[0];
  }

  /** What is well-formed is the encoding of scalar values, */
  lemma {:induction false} TextIsUtf8(text: seq<bv21>)
    requires Scalars(text)
    ensures Utf8(Utf8Text(text))
  {
    if text != [] {
      hide Utf8Of, Utf8Length;
      TextIsUtf8(text[1..]);
      LengthOf(text[0], Utf8Text(text[1..]));
    }
  }

  /** The bits of a sequence of two, three and four bytes. */
  function Two(a: byte, b: byte): bv21 {
    ((a & 0x1F) as bv21 << 6) | (b & 0x3F) as bv21
  }

  function Three(a: byte, b: byte, c: byte): bv21 {
    ((a & 0xF) as bv21 << 12) | ((b & 0x3F) as bv21 << 6) | (c & 0x3F) as bv21
  }

  function Four(a: byte, b: byte, c: byte, d: byte): bv21 {
    ((a & 7) as bv21 << 18) | ((b & 0x3F) as bv21 << 12) | ((c & 0x3F) as bv21 << 6) | (d & 0x3F) as bv21
  }

  lemma TwoRound(a: byte, b: byte)
    requires 194 <= a <= 223 && Continues(b)
    ensures 0x80 <= Two(a, b) < 0x800 && Utf8Of(Two(a, b)) == [a, b]
  {
  }

  lemma ThreeRound(a: byte, b: byte, c: byte)
    requires 224 <= a <= 239 && Continues(b) && Continues(c) && (a == 224 ==> b >= 160) && (a == 237 ==> b < 160)
    ensures Scalar(Three(a, b, c)) && 0x800 <= Three(a, b, c) < 0x10000
    ensures Utf8Of(Three(a, b, c)) == [a, b, c]
  {
    ThreeScalar(a, b, c);
  }

  lemma ThreeScalar(a: byte, b: byte, c: byte)
    requires 224 <= a <= 239 && Continues(b) && Continues(c) && (a == 224 ==> b >= 160) && (a == 237 ==> b < 160)
    ensures Scalar(Three(a, b, c)) && 0x800 <= Three(a, b, c) < 0x10000
  {
  }

  lemma FourScalar(a: byte, b: byte, c: byte, d: byte)
    requires 240 <= a <= 244 && Continues(b) && Continues(c) && Continues(d) && (a == 240 ==> b >= 144) && (a == 244 ==> b < 144)
    ensures 0x10000 <= Four(a, b, c, d) <= 0x10FFFF
  {
  }

  lemma FourRound(a: byte, b: byte, c: byte, d: byte)
    requires 240 <= a <= 244 && Continues(b) && Continues(c) && Continues(d) && (a == 240 ==> b >= 144) && (a == 244 ==> b < 144)
    ensures Scalar(Four(a, b, c, d)) && Utf8Of(Four(a, b, c, d)) == [a, b, c, d]
  {
    FourScalar(a, b, c, d);
    FourHigh(a, b, c, d);
    FourLow(a, b, c, d);
    hide Four;
  }

  lemma FourHigh(a: byte, b: byte, c: byte, d: byte)
    requires 240 <= a <= 244 && Continues(b)
    ensures 0xF0 | (Four(a, b, c, d) >> 18) as bv8 == a
    ensures 0x80 | ((Four(a, b, c, d) >> 12) & 0x3F) as bv8 == b
  {
  }

  lemma FourLow(a: byte, b: byte, c: byte, d: byte)
    requires Continues(c) && Continues(d)
    ensures 0x80 | ((Four(a, b, c, d) >> 6) & 0x3F) as bv8 == c
    ensures 0x80 | (Four(a, b, c, d) & 0x3F) as bv8 == d
  {
  }

  /** The scalar value of the sequence that `s` starts with. */
  lemma FirstScalar(s: Bytes) returns (c: bv21)
    requires Utf8Length(s) > 0
    ensures Scalar(c) && Utf8Of(c) == s[..Utf8Length(s)]
  {
    hide Two, Three, Four, Utf8Of, Scalar;
    var n := Utf8Length(s);
    if n == 1 {
      c := s[0] as bv21;
      OneRound(s[0]);
    } else if n == 2 {
      c := Two(s[0], s[1]);
      TwoRound(s[0], s[1]);
      TwoScalar(c);
    } else if n == 3 {
      c := Three(s[0], s[1], s[2]);
      ThreeRound(s[0], s[1], s[2]);
    } else {
      c := Four(s[0], s[1], s[2], s[3]);
      FourRound(s[0], s[1], s[2], s[3]);
    }
  }

  lemma OneRound(a: byte)
    requires a < 128
    ensures Scalar(a as bv21) && Utf8Of(a as bv21) == [a]
  {
  }

  lemma TwoScalar(c: bv21)
    requires c < 0x800
    ensures Scalar(c)
  {
  }

  lemma TextCons(c: bv21, text: seq<bv21>)
    requires Scalar(c) && Scalars(text)
    ensures Scalars([c] + text) && Utf8Text([c] + text) == Utf8Of(c) + Utf8Text(text)
  {
    hide Utf8Of, Scalar;
    assert ([c] + text)[1..] == text;
  }

  lemma Utf8Splits(s: Bytes)
    requires Utf8(s) && s != []
    ensures 0 < Utf8Length(s) <= |s| && Utf8(s[Utf8Length(s)..])
  {
    hide Utf8Length;
  }

  lemma Halves<T>(s: seq<T>, n: nat)
    requires n <= |s|
    ensures s[..n] + s[n..] == s
  {
  }

  /** and nothing else is. */
  lemma {:induction false} Utf8IsText(s: Bytes) returns (text: seq<bv21>)
    requires Utf8(s)
    ensures Scalars(text) && Utf8Text(text) == s
    decreases |s|
  {
    if s == [] {
      text := [];
    } else {
      hide Utf8, Utf8Of, Utf8Length, Scalar, Scalars, Utf8Text;
      Utf8Splits(s);
      var c := FirstScalar(s);
      var rest := Utf8IsText(s[Utf8Length(s)..]);
      TextCons(c, rest);
      Halves(s, Utf8Length(s));
      text := [c] + rest;
    }
  }

  /** Well-formed bytes are exactly the encodings of sequences of scalar values. */
  lemma Utf8Exactly(s: Bytes)
    ensures Utf8(s) <==> exists text :: Scalars(text) && Utf8Text(text) == s
  {
    hide Utf8Text, Utf8, Scalars;
    if Utf8(s) { var text := Utf8IsText(s); }
    forall text | Scalars(text) && Utf8Text(text) == s ensures Utf8(s) { TextIsUtf8(text); }
  }
}
