/** Byte encodings: hexadecimal, percent and form encoding, JSON string
    escapes, canonical base64 and UTF-8 well-formedness. */
module Encodings {
  import opened Prelude

  predicate Digit(b: byte) { 48 <= b <= 57 }
  predicate Upper(b: byte) { 65 <= b <= 90 }
  predicate Lower(b: byte) { 97 <= b <= 122 }
  predicate Alphanumeric(b: byte) { Digit(b) || Upper(b) || Lower(b) }

  // ---- Hexadecimal ---------------------------------------------------------

  function HexDigit(v: byte, upper: bool): byte {
    if v < 10 then 48 + v else if upper then 55 + v else 87 + v
  }

  function HexValue(b: byte): Option<byte> {
    if Digit(b) then Some(b - 48)
    else if 97 <= b <= 102 then Some(b - 87)
    else if 65 <= b <= 70 then Some(b - 55)
    else None
  }

  /** The byte that two hexadecimal digits name, in either case. */
  function HexByte(hi: byte, lo: byte): Option<byte> {
    if HexValue(hi).Some? && HexValue(lo).Some? then Some(HexValue(hi).value * 16 + HexValue(lo).value) else None
  }

  lemma HexRound(b: byte, upper: bool)
    ensures HexByte(HexDigit(b >> 4, upper), HexDigit(b & 15, upper)) == Some(b)
  {
  }

  // ---- Percent and form encoding -------------------------------------------

  const PERCENT: byte := 37
  const PLUS: byte := 43
  const SPACE: byte := 32

  predicate Unreserved(b: byte) {
    Alphanumeric(b) || b == 45 || b == 46 || b == 95 || b == 126
  }

  /** One byte, percent-encoded unless unreserved; in a form, a space is `+`. */
  function PercentByte(b: byte, form: bool, upper: bool): Bytes {
    if Unreserved(b) then [b]
    else if form && b == SPACE then [PLUS]
    else [PERCENT, HexDigit(b >> 4, upper), HexDigit(b & 15, upper)]
  }

  function PercentEncode(s: Bytes, form: bool, upper: bool): Bytes {
    if s == [] then [] else PercentByte(s[0], form, upper) + PercentEncode(s[1..], form, upper)
  }

  function PercentDecode(s: Bytes, form: bool): Option<Bytes> {
    if s == [] then Some([])
    else if s[0] == PERCENT then
      if |s| < 3 || HexByte(s[1], s[2]).None? then None
      else Prepend(HexByte(s[1], s[2]).value, PercentDecode(s[3..], form))
    else Prepend(if form && s[0] == PLUS then SPACE else s[0], PercentDecode(s[1..], form))
  }

  function Prepend(b: byte, rest: Option<Bytes>): Option<Bytes> {
    if rest.None? then None else Some([b] + rest.value)
  }

  lemma PercentStep(b: byte, tail: Bytes, form: bool, upper: bool)
    ensures PercentDecode(PercentByte(b, form, upper) + tail, form) == Prepend(b, PercentDecode(tail, form))
  {
    HexRound(b, upper);
    var head := PercentByte(b, form, upper);
    assert (head + tail)[|head|..] == tail;
  }

  /** Decoding undoes percent and form encoding in either letter case. */
  lemma {:induction false} PercentRound(s: Bytes, form: bool, upper: bool)
    ensures PercentDecode(PercentEncode(s, form, upper), form) == Some(s)
  {
    if s != [] {
      hide PercentDecode, PercentByte;
      PercentRound(s[1..], form, upper);
      PercentStep(s[0], PercentEncode(s[1..], form, upper), form, upper);
      assert [s[0]] + s[1..] == s;
    }
  }

  // ---- JSON string escapes -------------------------------------------------

  const BACKSLASH: byte := 92
  const QUOTE: byte := 34

  /** The letter of a two-character escape. */
  function ShortEscape(b: byte): Option<byte> {
    if b == QUOTE || b == BACKSLASH then Some(b)
    else if b == 8 then Some(98)
    else if b == 9 then Some(116)
    else if b == 10 then Some(110)
    else if b == 12 then Some(102)
    else if b == 13 then Some(114)
    else None
  }

  function JsonByte(b: byte): Bytes {
    if ShortEscape(b).Some? then [BACKSLASH, ShortEscape(b).value]
    else if b < 32 then [BACKSLASH, 117, 48, 48, HexDigit(b >> 4, false), HexDigit(b & 15, false)]
    else [b]
  }

  /** The inside of the JSON string that denotes the text `s`. */
  function JsonEscape(s: Bytes): Bytes {
    if s == [] then [] else JsonByte(s[0]) + JsonEscape(s[1..])
  }

  function Unescaped(b: byte): Option<byte> {
    if b == QUOTE || b == BACKSLASH || b == 47 then Some(b)
    else if b == 98 then Some(8)
    else if b == 116 then Some(9)
    else if b == 110 then Some(10)
    else if b == 102 then Some(12)
    else if b == 114 then Some(13)
    else None
  }

  /** Reads the inside of a JSON string whose \u escapes stay below U+0100. */
  function JsonUnescape(s: Bytes): Option<Bytes> {
    if s == [] then Some([])
    else if s[0] == QUOTE || s[0] < 32 then None
    else if s[0] != BACKSLASH then Prepend(s[0], JsonUnescape(s[1..]))
    else if |s| >= 2 && Unescaped(s[1]).Some? then Prepend(Unescaped(s[1]).value, JsonUnescape(s[2..]))
    else if LongEscape(s).Some? then Prepend(LongEscape(s).value, JsonUnescape(s[6..]))
    else None
  }

  /** The byte of a six-character escape of the form \u00XX. */
  function LongEscape(s: Bytes): (r: Option<byte>)
    ensures r.Some? ==> |s| >= 6 && s[1] == 117
  {
    if |s| >= 6 && s[0] == BACKSLASH && s[1] == 117 && s[2] == 48 && s[3] == 48 then HexByte(s[4], s[5]) else None
  }

  lemma ShortStep(c: byte, tail: Bytes)
    requires Unescaped(c).Some?
    ensures JsonUnescape([BACKSLASH, c] + tail) == Prepend(Unescaped(c).value, JsonUnescape(tail))
  {
    hide Unescaped;
    assert ([BACKSLASH, c] + tail)[2..] == tail;
  }

  lemma LongStep(hi: byte, lo: byte, tail: Bytes)
    requires HexByte(hi, lo).Some?
    ensures JsonUnescape([BACKSLASH, 117, 48, 48, hi, lo] + tail) == Prepend(HexByte(hi, lo).value, JsonUnescape(tail))
  {
    var s := [BACKSLASH, 117, 48, 48, hi, lo] + tail;
    assert LongEscape(s) == HexByte(hi, lo);
    hide HexByte, LongEscape;
    assert s[6..] == tail;
    assert s[0] == BACKSLASH && s[1] == 117;
    assert Unescaped(117).None?;
  }

  lemma PlainStep(b: byte, tail: Bytes)
    requires b != BACKSLASH && b != QUOTE && b >= 32
    ensures JsonUnescape([b] + tail) == Prepend(b, JsonUnescape(tail))
  {
    assert ([b] + tail)[1..] == tail;
  }

  lemma JsonStep(b: byte, tail: Bytes)
    ensures JsonUnescape(JsonByte(b) + tail) == Prepend(b, JsonUnescape(tail))
  {
    hide JsonUnescape, HexDigit, HexByte;
    HexRound(b, false);
    if ShortEscape(b).Some? {
      ShortStep(ShortEscape(b).value, tail);
    } else if b < 32 {
      LongStep(HexDigit(b >> 4, false), HexDigit(b & 15, false), tail);
    } else {
      PlainStep(b, tail);
    }
  }

  /** Unescaping undoes escaping. */
  lemma {:induction false} JsonRound(s: Bytes)
    ensures JsonUnescape(JsonEscape(s)) == Some(s)
  {
    if s != [] {
      hide JsonUnescape, JsonByte;
      JsonRound(s[1..]);
      JsonStep(s[0], JsonEscape(s[1..]));
      assert [s[0]] + s[1..] == s;
    }
  }

  // ---- Base64 (RFC 4648, sections 4 and 5) ---------------------------------

  datatype Alphabet = Standard | UrlSafe

  const PAD: byte := 61

  function Symbol(a: Alphabet, v: byte): byte {
    if v < 26 then 65 + v
    else if v < 52 then 71 + v
    else if v < 62 then v - 4
    else if v == 62 then (if a == Standard then 43 else 45)
    else if a == Standard then 47 else 95
  }

  function SymbolValue(a: Alphabet, c: byte): Option<byte> {
    if Upper(c) then Some(c - 65)
    else if Lower(c) then Some(c - 71)
    else if Digit(c) then Some(c + 4)
    else if c == (if a == Standard then 43 else 45) then Some(62)
    else if c == (if a == Standard then 47 else 95) then Some(63)
    else None
  }

  /** The symbols of a group of one to three bytes, absent bytes being zero. */
  function Group(a: Alphabet, x: byte, y: byte, z: byte): Bytes {
    [Symbol(a, x >> 2), Symbol(a, ((x & 3) << 4) | (y >> 4)), Symbol(a, ((y & 15) << 2) | (z >> 6)), Symbol(a, z & 63)]
  }

  function Encode(a: Alphabet, padded: bool, d: Bytes): Bytes {
    if d == [] then []
    else if |d| == 1 then Group(a, d[0], 0, 0)[..2] + (if padded then [PAD, PAD] else [])
    else if |d| == 2 then Group(a, d[0], d[1], 0)[..3] + (if padded then [PAD] else [])
    else Group(a, d[0], d[1], d[2]) + Encode(a, padded, d[3..])
  }

  /** The 24 bits of four symbols, as three bytes; `None` for a foreign symbol. */
  function Ungroup(a: Alphabet, s: Bytes): Option<Bytes>
    requires |s| == 4
  {
    var p, q, r, t := SymbolValue(a, s[0]), SymbolValue(a, s[1]), SymbolValue(a, s[2]), SymbolValue(a, s[3]);
    if p.None? || q.None? || r.None? || t.None? then None
    else Some([(p.value << 2) | (q.value >> 4), (q.value << 4) | (r.value >> 2), (r.value << 6) | t.value])
  }

  /** Canonical unpadded decoding: unused trailing bits must be zero. */
  function Decode(a: Alphabet, s: Bytes): Option<Bytes> {
    if s == [] then Some([])
    else if |s| == 1 then None
    else if |s| == 2 then
      var d := Ungroup(a, s + [65, 65]);
      if d.Some? && d.value[1] == 0 then Some(d.value[..1]) else None
    else if |s| == 3 then
      var d := Ungroup(a, s + [65]);
      if d.Some? && d.value[2] == 0 then Some(d.value[..2]) else None
    else
      var d := Ungroup(a, s[..4]);
      var rest := Decode(a, s[4..]);
      if d.None? || rest.None? then None else Some(d.value + rest.value)
  }

  lemma SymbolRound(a: Alphabet, v: byte)
    requires v < 64
    ensures SymbolValue(a, Symbol(a, v)) == Some(v)
  {
  }

  lemma SymbolInverse(a: Alphabet, c: byte)
    requires SymbolValue(a, c).Some?
    ensures SymbolValue(a, c).value < 64 && Symbol(a, SymbolValue(a, c).value) == c
  {
  }

  lemma GroupRound(a: Alphabet, x: byte, y: byte, z: byte)
    ensures Ungroup(a, Group(a, x, y, z)) == Some([x, y, z])
  {
    hide Symbol, SymbolValue;
    SymbolRound(a, x >> 2);
    SymbolRound(a, ((x & 3) << 4) | (y >> 4));
    SymbolRound(a, ((y & 15) << 2) | (z >> 6));
    SymbolRound(a, z & 63);
  }

  lemma GroupInverse(a: Alphabet, s: Bytes)
    requires |s| == 4 && Ungroup(a, s).Some?
    ensures |Ungroup(a, s).value| == 3
    ensures var d := Ungroup(a, s).value; Group(a, d[0], d[1], d[2]) == s
  {
    hide Symbol, SymbolValue;
    forall k | 0 <= k < 4 ensures SymbolValue(a, s[k]).value < 64 && Symbol(a, SymbolValue(a, s[k]).value) == s[k] {
      SymbolInverse(a, s[k]);
    }
  }

  /** Decoding undoes unpadded encoding, */
  lemma {:induction false} DecodeEncode(a: Alphabet, d: Bytes)
    ensures Decode(a, Encode(a, false, d)) == Some(d)
  {
    hide Group, Ungroup;
    GroupShape(a, d);
    if |d| >= 3 {
      DecodeEncode(a, d[3..]);
      GroupRound(a, d[0], d[1], d[2]);
      var head, tail := Group(a, d[0], d[1], d[2]), Encode(a, false, d[3..]);
      assert (head + tail)[..4] == head && (head + tail)[4..] == tail;
      assert [d[0], d[1], d[2]] + d[3..] == d;
    } else if |d| == 2 {
      GroupRound(a, d[0], d[1], 0);
      var g := Group(a, d[0], d[1], 0);
      assert g[..3] + [] + [65] == g;
      assert [d[0], d[1], 0][..2] == d;
    } else if |d| == 1 {
      GroupRound(a, d[0], 0, 0);
      var g := Group(a, d[0], 0, 0);
      assert g[..2] + [] + [65, 65] == g;
      assert [d[0], 0, 0][..1] == d;
    }
  }

  lemma GroupShape(a: Alphabet, d: Bytes)
    ensures forall x: byte, y: byte, z: byte :: |Group(a, x, y, z)| == 4
    ensures |d| == 2 ==> Group(a, d[0], d[1], 0)[3] == 65
    ensures |d| == 1 ==> Group(a, d[0], 0, 0)[2] == 65 && Group(a, d[0], 0, 0)[3] == 65
  {
  }

  /** and accepts nothing else: decoding is injective, each value canonical. */
  lemma {:induction false} EncodeDecode(a: Alphabet, s: Bytes)
    requires Decode(a, s).Some?
    ensures Encode(a, false, Decode(a, s).value) == s
    decreases |s|
  {
    hide Group, Ungroup;
    if |s| >= 4 {
      EncodeDecode(a, s[4..]);
      GroupInverse(a, s[..4]);
      var d := Ungroup(a, s[..4]).value;
      var whole := Decode(a, s).value;
      assert whole[3..] == Decode(a, s[4..]).value;
      assert s[..4] + s[4..] == s;
    } else if |s| == 3 {
      GroupInverse(a, s + [65]);
      assert (s + [65])[..3] == s;
    } else if |s| == 2 {
      var d := Ungroup(a, s + [65, 65]).value;
      GroupInverse(a, s + [65, 65]);
      TwoSymbols(a, s);
      assert (s + [65, 65])[..2] == s;
    }
  }

  lemma TwoSymbols(a: Alphabet, s: Bytes)
    requires |s| == 2 && Ungroup(a, s + [65, 65]).Some?
    ensures Ungroup(a, s + [65, 65]).value[2] == 0
  {
  }

  /** Padding completes the last group of four symbols and changes nothing else. */
  lemma {:induction false} PaddedEncode(a: Alphabet, d: Bytes)
    ensures Encode(a, true, d) == Encode(a, false, d) + (if |d| % 3 == 0 then [] else if |d| % 3 == 1 then [PAD, PAD] else [PAD])
    ensures |Encode(a, true, d)| % 4 == 0
  {
    hide Group;
    GroupShape(a, d);
    if |d| >= 3 {
      PaddedEncode(a, d[3..]);
      var pad: Bytes := if |d| % 3 == 0 then [] else if |d| % 3 == 1 then [PAD, PAD] else [PAD];
      JoinAssociates(Group(a, d[0], d[1], d[2]), Encode(a, false, d[3..]), pad);
    }
  }

  lemma {:induction false} EncodeLength(a: Alphabet, d: Bytes)
    ensures |Encode(a, false, d)| == (4 * |d| + 2) / 3
  {
    if |d| >= 3 { EncodeLength(a, d[3..]); }
  }

  /** A canonical unpadded base64url identifier of `n` random bytes. */
  predicate ValidId(s: Bytes, n: nat) {
    var d := Decode(UrlSafe, s);
    d.Some? && |d.value| == n && Encode(UrlSafe, false, d.value) == s
  }

  /** The valid identifiers are exactly the encodings of `n` bytes. */
  lemma ValidIdExactly(s: Bytes, n: nat)
    ensures ValidId(s, n) <==> exists d: Bytes :: |d| == n && Encode(UrlSafe, false, d) == s
    ensures ValidId(s, n) ==> |s| == (4 * n + 2) / 3
  {
    if ValidId(s, n) { EncodeLength(UrlSafe, Decode(UrlSafe, s).value); }
    forall d: Bytes | |d| == n && Encode(UrlSafe, false, d) == s ensures ValidId(s, n) {
      DecodeEncode(UrlSafe, d);
    }
  }

  // ---- UTF-8 (RFC 3629) ----------------------------------------------------

  predicate Continues(b: byte) { 128 <= b <= 191 }

  /** The length of the well-formed sequence that `s` starts with, or zero. */
  function Utf8Length(s: Bytes): (n: nat)
    ensures n <= |s|
  {
    if s == [] then 0
    else if s[0] < 128 then 1
    else if |s| >= 2 && 194 <= s[0] <= 223 && Continues(s[1]) then 2
    else if |s| >= 3 && 224 <= s[0] <= 239 && Continues(s[1]) && Continues(s[2])
            && (s[0] == 224 ==> s[1] >= 160) && (s[0] == 237 ==> s[1] < 160) then 3
    else if |s| >= 4 && 240 <= s[0] <= 244 && Continues(s[1]) && Continues(s[2]) && Continues(s[3])
            && (s[0] == 240 ==> s[1] >= 144) && (s[0] == 244 ==> s[1] < 144) then 4
    else 0
  }

  predicate Utf8(s: Bytes)
    decreases |s|
  {
    s == [] || (Utf8Length(s) > 0 && Utf8(s[Utf8Length(s)..]))
  }
}
