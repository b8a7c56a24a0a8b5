/** Recognizing secret placeholders in observed bytes, in any mix of their raw,
    percent-encoded, JSON-escaped or base64 spellings. */
module Placeholders {
  import opened Prelude
  import opened Scanning
  import opened Encodings

  const DECODED_LEN: nat := 51
  const BASE64_LEN: nat := 68
  const MAX_ENCODED: nat := 306
  const PREFIX_LEN: nat := 8

  /** `aap_un1_`, `aap_pw1_` and `aap_cs1_`. */
  const KINDS: seq<Bytes> := [[97, 97, 112, 95, 117, 110, 49, 95], [97, 97, 112, 95, 112, 119, 49, 95], [97, 97, 112, 95, 99, 115, 49, 95]]

  /** `YWFw`, the base64 form of `aap`. */
  const BASE64_START: Bytes := [89, 87, 70, 119]

  /** A placeholder token: a kind and a canonical 32-byte identifier. */
  predicate Valid(token: Bytes) {
    |token| == DECODED_LEN && token[..PREFIX_LEN] in KINDS && ValidId(token[PREFIX_LEN..], 32)
  }

  /** A token is "aap_un1_", "aap_pw1_" or "aap_cs1_" and the base64url form of any
      32 bytes. */
  lemma TokenExactly(token: Bytes)
    ensures Valid(token) <==>
              exists kind: Bytes, id: Bytes ::
                && (kind == [97, 97, 112, 95, 117, 110, 49, 95] || kind == [97, 97, 112, 95, 112, 119, 49, 95]
                    || kind == [97, 97, 112, 95, 99, 115, 49, 95])
                && |id| == 32 && token == kind + Encode(UrlSafe, false, id)
  {
    hide ValidId;
    if Valid(token) {
      var kind, tail := token[..8], token[8..];
      ValidIdExactly(tail, 32);
      var id: Bytes :| |id| == 32 && Encode(UrlSafe, false, id) == tail;
      assert token == kind + Encode(UrlSafe, false, id);
    }
    forall kind: Bytes, id: Bytes
      | (kind == [97, 97, 112, 95, 117, 110, 49, 95] || kind == [97, 97, 112, 95, 112, 119, 49, 95] || kind == [97, 97, 112, 95, 99, 115, 49, 95])
        && |id| == 32 && token == kind + Encode(UrlSafe, false, id)
      ensures Valid(token)
    {
      assert token[..8] == kind && token[8..] == Encode(UrlSafe, false, id);
      ValidIdExactly(token[8..], 32);
      EncodeLength(UrlSafe, id);
    }
  }

  predicate TokenByte(b: byte) {
    Alphanumeric(b) || b == 95 || b == 45
  }

  // ---- The recognizer ------------------------------------------------------

  datatype Piece = Piece(value: byte, count: nat)

  /** One raw, percent-encoded or \u00XX byte at the start of `s`. */
  function NextPiece(s: Bytes): (p: Option<Piece>)
    ensures p.Some? ==> 0 < p.value.count <= |s| && p.value.count <= 6
  {
    if s == [] then None
    else if s[0] == PERCENT then
      if |s| < 3 || HexByte(s[1], s[2]).None? then None else Some(Piece(HexByte(s[1], s[2]).value, 3))
    else if s[0] == BACKSLASH && |s| >= 4 && s[1] == 117 && s[2] == 48 && s[3] == 48 then
      if |s| < 6 || HexByte(s[4], s[5]).None? then None else Some(Piece(HexByte(s[4], s[5]).value, 6))
    else Some(Piece(s[0], 1))
  }

  datatype Pieces = Pieces(decoded: Bytes, count: nat)

  /** `n` token bytes at the start of `s`, however each is spelled. */
  function TakePieces(s: Bytes, n: nat): (r: Option<Pieces>)
    ensures r.Some? ==> |r.value.decoded| == n && r.value.count <= |s| && n <= r.value.count <= 6 * n
  {
    if n == 0 then Some(Pieces([], 0))
    else
      var p := NextPiece(s);
      if p.None? || !TokenByte(p.value.value) then None
      else
        var rest := TakePieces(s[p.value.count..], n - 1);
        if rest.None? then None else Some(Pieces([p.value.value] + rest.value.decoded, p.value.count + rest.value.count))
  }

  predicate Base64Token(a: Alphabet, s: Bytes)
    requires |s| == BASE64_LEN
  {
    var d := Decode(a, s);
    d.Some? && |d.value| == DECODED_LEN && Valid(d.value)
  }

  /** How many leading bytes spell a placeholder; zero for none. */
  function Recognized(s: Bytes): (n: nat)
    ensures n <= |s|
  {
    if BASE64_START <= s && |s| >= BASE64_LEN
       && (Base64Token(Standard, s[..BASE64_LEN]) || Base64Token(UrlSafe, s[..BASE64_LEN])) then BASE64_LEN
    else if s == [] || (s[0] != 97 && s[0] != PERCENT && s[0] != BACKSLASH) then 0
    else
      var r := TakePieces(s, DECODED_LEN);
      if r.Some? && Valid(r.value.decoded) then r.value.count else 0
  }

  // ---- It looks ahead at most 306 bytes ------------------------------------

  lemma NextPieceLocal(s: Bytes, t: Bytes)
    requires |s| >= 6
    ensures NextPiece(s + t) == NextPiece(s)
  {
  }

  lemma {:induction false} TakePiecesLocal(s: Bytes, t: Bytes, n: nat)
    requires |s| >= 6 * n
    ensures TakePieces(s + t, n) == TakePieces(s, n)
    decreases n
  {
    hide NextPiece, TakePieces;
    if n == 0 {
      TakeNone(s);
      TakeNone(s + t);
    } else {
      NextPieceLocal(s, t);
      TakeOne(s, n);
      TakeOne(s + t, n);
      var p := NextPiece(s);
      if p.Some? {
        DropJoin(s, t, p.value.count);
        TakePiecesLocal(s[p.value.count..], t, n - 1);
      }
    }
  }

  lemma TakeNone(s: Bytes)
    ensures TakePieces(s, 0) == Some(Pieces([], 0))
  {
  }

  lemma TakeOne(s: Bytes, n: nat)
    requires n > 0
    ensures var p := NextPiece(s);
            TakePieces(s, n)
            == if p.None? || !TokenByte(p.value.value) then None
               else
                 var rest := TakePieces(s[p.value.count..], n - 1);
                 if rest.None? then None else Some(Pieces([p.value.value] + rest.value.decoded, p.value.count + rest.value.count))
  {
  }

  lemma RecognizedLocal(s: Bytes, t: Bytes)
    requires |s| >= MAX_ENCODED
    ensures Recognized(s + t) == Recognized(s)
  {
    hide Base64Token, Valid, TakePieces;
    assert (s + t)[..BASE64_LEN] == s[..BASE64_LEN];
    assert BASE64_START <= s + t <==> BASE64_START <= s by { assert (s + t)[..4] == s[..4]; }
    TakePiecesLocal(s, t, DECODED_LEN);
  }

  function Recognizer(): Matcher {
    (s: Bytes) => Recognized(s)
  }

  /** Recognition never depends on more than the longest spelling. */
  lemma RecognizerBounded()
    ensures Bounded(Recognizer(), MAX_ENCODED)
  {
    hide Recognized;
    forall s: Bytes, t: Bytes | |s| >= MAX_ENCODED ensures Recognizer()(s + t) == Recognizer()(s) {
      RecognizedLocal(s, t);
    }
  }

  // ---- It accepts exactly the spellings of valid tokens --------------------

  /** The raw, percent-encoded and \u00XX spellings of one byte. */
  ghost predicate Spells(text: Bytes, b: byte) {
    || text == [b]
    || (|text| == 3 && text[0] == PERCENT && HexByte(text[1], text[2]) == Some(b))
    || (|text| == 6 && text[..4] == [BACKSLASH, 117, 48, 48] && HexByte(text[4], text[5]) == Some(b))
  }

  /** `text` spells `token` byte by byte, each byte in any form. */
  ghost predicate SpellsAll(text: Bytes, token: Bytes)
    decreases |token|
  {
    if token == [] then text == []
    else exists k :: 0 <= k <= |text| && Spells(text[..k], token[0]) && SpellsAll(text[k..], token[1..])
  }

  lemma PieceSpells(s: Bytes)
    requires NextPiece(s).Some?
    ensures Spells(s[..NextPiece(s).value.count], NextPiece(s).value.value)
  {
    hide HexByte;
    var p := NextPiece(s).value;
    if p.count == 1 { assert s[..1] == [s[0]]; }
    if p.count == 6 { assert s[..6][..4] == [BACKSLASH, 117, 48, 48]; }
  }

  lemma SpellsPiece(text: Bytes, b: byte, rest: Bytes)
    requires Spells(text, b) && TokenByte(b)
    ensures NextPiece(text + rest) == Some(Piece(b, |text|))
  {
    hide HexByte;
    if |text| == 6 { assert text[..4][1] == text[1] && text[..4][2] == text[2] && text[..4][3] == text[3] && text[..4][0] == text[0]; }
  }

  lemma {:induction false} TakenSpells(s: Bytes, n: nat)
    requires TakePieces(s, n).Some?
    ensures SpellsAll(s[..TakePieces(s, n).value.count], TakePieces(s, n).value.decoded)
    ensures forall k :: 0 <= k < n ==> TokenByte(TakePieces(s, n).value.decoded[k])
    decreases n
  {
    hide NextPiece, Spells, TokenByte;
    if n > 0 {
      var p := NextPiece(s).value;
      var rest := TakePieces(s[p.count..], n - 1).value;
      TakenSpells(s[p.count..], n - 1);
      PieceSpells(s);
      var text := s[..p.count + rest.count];
      assert text[..p.count] == s[..p.count];
      assert text[p.count..] == s[p.count..][..rest.count];
      assert ([p.value] + rest.decoded)[1..] == rest.decoded;
    }
  }

  lemma {:induction false} SpellsTaken(text: Bytes, token: Bytes, rest: Bytes)
    requires SpellsAll(text, token) && forall k :: 0 <= k < |token| ==> TokenByte(token[k])
    ensures TakePieces(text + rest, |token|) == Some(Pieces(token, |text|))
    decreases |token|
  {
    hide NextPiece, Spells, TokenByte, TakePieces;
    if token == [] {
      TakeNone(text + rest);
    } else {
      var k :| 0 <= k <= |text| && Spells(text[..k], token[0]) && SpellsAll(text[k..], token[1..]);
      SpellsTaken(text[k..], token[1..], rest);
      SplitAt(text, rest, k);
      SpellsPiece(text[..k], token[0], text[k..] + rest);
      TakePiece(text + rest, token, k, |text| - k);
    }
  }

  /** One piece, and the pieces after it. */
  lemma TakePiece(s: Bytes, token: Bytes, k: nat, more: nat)
    requires token != [] && TokenByte(token[0]) && k <= |s| && NextPiece(s) == Some(Piece(token[0], k))
    requires TakePieces(s[k..], |token| - 1) == Some(Pieces(token[1..], more))
    ensures TakePieces(s, |token|) == Some(Pieces(token, k + more))
  {
    hide NextPiece, TokenByte, TakePieces;
    TakeOne(s, |token|);
    assert [token[0]] + token[1..] == token;
  }

  lemma SplitAt(text: Bytes, rest: Bytes, k: nat)
    requires k <= |text|
    ensures text + rest == text[..k] + (text[k..] + rest) && (text + rest)[k..] == text[k..] + rest
  {
  }

  /** `text` is a placeholder in some spelling. */
  ghost predicate Placeholder(text: Bytes) {
    || (exists a, token :: Valid(token) && text == Encode(a, false, token))
    || (exists token :: Valid(token) && SpellsAll(text, token))
  }

  lemma {:induction false} SymbolsAreTokenBytes(s: Bytes)
    requires Decode(UrlSafe, s).Some?
    ensures forall k :: 0 <= k < |s| ==> TokenByte(s[k])
    decreases |s|
  {
    hide Symbol;
    if |s| >= 4 {
      SymbolsAreTokenBytes(s[4..]);
      assert forall k :: 0 <= k < 4 ==> s[..4][k] == s[k];
      assert s == s[..4] + s[4..];
    } else if |s| == 3 {
      assert forall k :: 0 <= k < 3 ==> (s + [65])[k] == s[k];
    } else if |s| == 2 {
      assert forall k :: 0 <= k < 2 ==> (s + [65, 65])[k] == s[k];
    }
  }

  lemma ValidBytes(token: Bytes)
    requires Valid(token)
    ensures forall k :: 0 <= k < |token| ==> TokenByte(token[k])
    ensures |token| == DECODED_LEN && token[0] == 97 && token[1] == 97 && token[2] == 112
  {
    hide Encode, Decode;
    SymbolsAreTokenBytes(token[PREFIX_LEN..]);
    var head := token[..PREFIX_LEN];
    assert head == KINDS[0] || head == KINDS[1] || head == KINDS[2];
    assert token == head + token[PREFIX_LEN..];
    forall k | 0 <= k < |token| ensures TokenByte(token[k]) {
      if k < PREFIX_LEN { assert token[k] == head[k]; } else { assert token[k] == token[PREFIX_LEN..][k - PREFIX_LEN]; }
    }
    assert head[0] == 97 && head[1] == 97 && head[2] == 112;
  }

  /** What is recognized is a placeholder, of exactly that length. */
  lemma RecognizedIsPlaceholder(s: Bytes)
    requires Recognized(s) > 0
    ensures Placeholder(s[..Recognized(s)])
  {
    hide Valid, SpellsAll, Encode, Decode;
    var n := Recognized(s);
    if BASE64_START <= s && |s| >= BASE64_LEN && Base64Token(Standard, s[..BASE64_LEN]) {
      EncodeDecode(Standard, s[..BASE64_LEN]);
    } else if BASE64_START <= s && |s| >= BASE64_LEN && Base64Token(UrlSafe, s[..BASE64_LEN]) {
      EncodeDecode(UrlSafe, s[..BASE64_LEN]);
    } else {
      TakenSpells(s, DECODED_LEN);
    }
  }

  lemma Base64Begins(a: Alphabet, token: Bytes)
    requires Valid(token)
    ensures |Encode(a, false, token)| == BASE64_LEN && BASE64_START <= Encode(a, false, token)
  {
    hide Valid;
    ValidBytes(token);
    EncodeLength(a, token);
    hide Symbol;
    assert Group(a, 97, 97, 112) == BASE64_START by { AapGroup(a); }
    assert Encode(a, false, token)[..4] == Group(a, token[0], token[1], token[2]);
  }

  lemma Base64Recognized(a: Alphabet, token: Bytes, rest: Bytes)
    requires Valid(token)
    ensures Recognized(Encode(a, false, token) + rest) == BASE64_LEN == |Encode(a, false, token)|
  {
    hide Valid, Encode, Decode, TakePieces;
    var text := Encode(a, false, token);
    var s := text + rest;
    Base64Begins(a, token);
    DecodeEncode(a, token);
    ValidBytes(token);
    assert s[..BASE64_LEN] == text;
    assert BASE64_START <= s by { assert s[..4] == text[..4]; }
    assert Base64Token(a, text);
    assert a == Standard || a == UrlSafe;
  }

  lemma AapGroup(a: Alphabet)
    ensures Group(a, 97, 97, 112) == BASE64_START
  {
  }

  lemma SpellingBegins(text: Bytes, token: Bytes)
    requires Valid(token) && SpellsAll(text, token)
    ensures text != [] && (text[0] == 97 || text[0] == PERCENT || text[0] == BACKSLASH)
  {
    hide Valid, HexByte;
    ValidBytes(token);
    var k :| 0 <= k <= |text| && Spells(text[..k], token[0]) && SpellsAll(text[k..], token[1..]);
    assert k > 0;
    assert text[0] == text[..k][0];
    if k == 6 { assert text[..k][..4][0] == text[0]; }
  }

  /** Every spelling of a valid token is recognized wherever it appears, with
      exactly its own length, whatever follows it. */
  lemma PlaceholderIsRecognized(text: Bytes, rest: Bytes)
    requires Placeholder(text)
    ensures Recognized(text + rest) == |text|
  {
    hide Valid, SpellsAll, Encode, Decode, TakePieces;
    if exists a, token :: Valid(token) && text == Encode(a, false, token) {
      var a, token :| Valid(token) && text == Encode(a, false, token);
      Base64Recognized(a, token, rest);
    } else {
      var token :| Valid(token) && SpellsAll(text, token);
      ValidBytes(token);
      SpellingBegins(text, token);
      SpellsTaken(text, token, rest);
      assert !(BASE64_START <= text + rest) by { assert (text + rest)[0] == text[0]; }
    }
  }

  // ---- The stream ----------------------------------------------------------

  class PlaceholderRedactor {
    var pending: Bytes
    var done: bool

    constructor ()
      ensures pending == [] && !done
    {
      pending, done := [], false;
    }

    /** Sanitize what can be decided; also the number of original bytes that
        have now been decided, counting retained ones. */
    method Feed(chunk: Bytes, end: bool) returns (r: Result<(Bytes, nat)>)
      modifies this
      ensures Fed(Recognizer(), MAX_ENCODED, old(Stream(pending, done)), Feeding(chunk, end, if r.Ok? then Some(r.value.0) else None),
                  Stream(pending, done))
      ensures old(done) || |chunk| > MAX_CHUNK ==> r == Err(LimitExceeded) && pending == old(pending) && done == old(done)
      ensures !old(done) && |chunk| <= MAX_CHUNK ==>
                var d := Decided(Recognizer(), MAX_ENCODED, old(pending) + chunk, end);
                && r == Ok((Emit(d.0), |Source(d.0)|))
                && pending == d.1 && done == end
                && old(pending) + chunk == Source(d.0) + pending
                && |pending| < MAX_ENCODED && (end ==> pending == [])
    {
      hide Decided, Emit, Source, Recognized, Progress, NextToken, Text;
      if done || |chunk| > MAX_CHUNK { return Err(LimitExceeded); }
      pending := pending + chunk;
      var output: Bytes, position := [], 0;
      ghost var m := Recognizer();
      ghost var tokens: seq<Token> := [];
      ghost var all := pending;
      EmitNone();
      ProgressStart(m, MAX_ENCODED, all, end);
      while position < |pending| && (end || |pending| - position >= MAX_ENCODED)
        invariant position <= |pending| && pending == all
        invariant output == Emit(tokens)
        invariant Progress(m, MAX_ENCODED, all, end, tokens, position)
      {
        var rest := pending[position..];
        ProgressStep(m, MAX_ENCODED, all, end, tokens, position);
        var n := Recognize(rest);
        ghost var t := NextToken(m, rest);
        EmitNext(m, rest, tokens);
        tokens := tokens + [t];
        if n > 0 {
          output, position := output + REDACTED, position + n;
        } else {
          output, position := output + [pending[position]], position + 1;
        }
      }
      ProgressEnd(m, MAX_ENCODED, all, end, tokens, position);
      DecidedSource(m, MAX_ENCODED, all, end);
      DecidedLength(tokens, all, position);
      pending, done := pending[position..], end;
      return Ok((output, position));
    }

    /** The recognizer, as one pass over the input. */
    method Recognize(input: Bytes) returns (n: nat)
      ensures n == Recognized(input)
    {
      hide Valid, Decode, NextPiece, TakePieces;
      if BASE64_START <= input && |input| >= BASE64_LEN {
        if Base64Token(Standard, input[..BASE64_LEN]) || Base64Token(UrlSafe, input[..BASE64_LEN]) { return BASE64_LEN; }
      }
      if input == [] || (input[0] != 97 && input[0] != PERCENT && input[0] != BACKSLASH) { return 0; }
      var decoded: Bytes, position: nat := [], 0;
      assert input[0..] == input;
      TakenStart(input);
      while |decoded| < DECODED_LEN
        invariant |decoded| <= DECODED_LEN && position <= |input|
        invariant TakePieces(input, DECODED_LEN) == Joined(Pieces(decoded, position), TakePieces(input[position..], DECODED_LEN - |decoded|))
      {
        TakeOne(input[position..], DECODED_LEN - |decoded|);
        var p := NextPiece(input[position..]);
        if p.None? || !TokenByte(p.value.value) { return 0; }
        TakenMore(input, position, decoded, p.value, DECODED_LEN - |decoded|);
        decoded, position := decoded + [p.value.value], position + p.value.count;
      }
      TakeNone(input[position..]);
      assert decoded + [] == decoded;
      return if Valid(decoded) then position else 0;
    }
  }

  function Joined(done: Pieces, rest: Option<Pieces>): Option<Pieces> {
    if rest.None? then None else Some(Pieces(done.decoded + rest.value.decoded, done.count + rest.value.count))
  }

  lemma TakenStart(input: Bytes)
    ensures TakePieces(input, DECODED_LEN) == Joined(Pieces([], 0), TakePieces(input[0..], DECODED_LEN))
  {
    hide TakePieces;
    assert input[0..] == input;
    var r := TakePieces(input, DECODED_LEN);
    if r.Some? { assert [] + r.value.decoded == r.value.decoded; }
  }

  lemma TakenMore(input: Bytes, position: nat, decoded: Bytes, p: Piece, n: nat)
    requires position <= |input| && n > 0
    requires NextPiece(input[position..]) == Some(p) && TokenByte(p.value)
    ensures Joined(Pieces(decoded, position), TakePieces(input[position..], n))
            == Joined(Pieces(decoded + [p.value], position + p.count), TakePieces(input[position + p.count..], n - 1))
  {
    hide TakePieces;
    TakeOne(input[position..], n);
    assert input[position..][p.count..] == input[position + p.count..];
    var rest := TakePieces(input[position + p.count..], n - 1);
    if rest.Some? { JoinAssociates(decoded, [p.value], rest.value.decoded); }
  }

  lemma DecidedLength(tokens: seq<Token>, all: Bytes, position: nat)
    requires position <= |all| && Source(tokens) + all[position..] == all
    ensures |Source(tokens)| == position
  {
    assert |Source(tokens) + all[position..]| == |Source(tokens)| + |all| - position;
  }

  /** A run of the placeholder redactor returns the redaction of its whole input. */
  lemma FeedIsOneScan(streams: seq<Stream>, feeds: seq<Feeding>)
    requires IsFeeding(Recognizer(), MAX_ENCODED, streams, feeds) && streams[|feeds|].done
    ensures Outputs(feeds) == Emit(Scan(Recognizer(), Inputs(feeds)))
  {
    hide Scan, Emit, IsFeeding, Recognized;
    RecognizerBounded();
    OutputsAreOneScan(Recognizer(), MAX_ENCODED, streams, feeds);
  }
}
