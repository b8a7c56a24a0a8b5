/** Which texts are forms, and of which fields: the parser against the text, in the
    terms of sections 5.1 and 5.2 of the WHATWG URL standard. */
module FormTexts {
  import opened Prelude
  import opened Encodings
  import opened Forms

  // ---- Components ----------------------------------------------------------

  /** `piece` stands for `b`: a plus for a space, two hexadecimal digits of either
      case behind a percent sign for any byte, and any other byte for itself. */
  ghost predicate StandsFor(piece: Bytes, b: byte) {
    || (piece == [43] && b == 32)
    || (|piece| == 3 && piece[0] == 37 && HexByte(piece[1], piece[2]) == Some(b))
    || (piece == [b] && b != 43 && b != 37)
  }

  ghost predicate Denotes(text: Bytes, s: Bytes)
    decreases |s|
  {
    if s == [] then text == []
    else exists k :: 0 <= k <= |text| && StandsFor(text[..k], s[0]) && Denotes(text[k..], s[1..])
  }

  lemma {:induction false} DecodedDenotes(text: Bytes)
    requires PercentDecode(text, true).Some?
    ensures Denotes(text, PercentDecode(text, true).value)
    decreases |text|
  {
    if text != [] {
      hide HexByte;
      var n := if text[0] == PERCENT then 3 else 1;
      DecodedDenotes(text[n..]);
      var s := PercentDecode(text, true).value;
      assert s[1..] == PercentDecode(text[n..], true).value;
      if n == 1 { assert text[..1] == [text[0]]; }
      assert StandsFor(text[..n], s[0]);
    }
  }

  lemma {:induction false} DenotedDecodes(text: Bytes, s: Bytes)
    requires Denotes(text, s)
    ensures PercentDecode(text, true) == Some(s)
    decreases |s|
  {
    hide HexByte;
    if s != [] {
      var k :| 0 <= k <= |text| && StandsFor(text[..k], s[0]) && Denotes(text[k..], s[1..]);
      DenotedDecodes(text[k..], s[1..]);
      PieceDecodes(text[..k], s[0], text[k..]);
      assert text == text[..k] + text[k..];
      assert [s[0]] + s[1..] == s;
    }
  }

  lemma PieceDecodes(piece: Bytes, b: byte, rest: Bytes)
    requires StandsFor(piece, b)
    ensures PercentDecode(piece + rest, true) == Prepend(b, PercentDecode(rest, true))
  {
    hide HexByte;
    var text := piece + rest;
    assert text[0] == piece[0] && text[|piece|..] == rest;
    if |piece| == 3 { assert text[1] == piece[1] && text[2] == piece[2]; }
  }

  /** A component is read exactly if it denotes bytes, piece by piece, and those are
      UTF-8; it is read as them. */
  lemma ComponentExactly(text: Bytes, s: Bytes)
    ensures Component(text) == Some(s) <==> Denotes(text, s) && Utf8(s)
  {
    hide PercentDecode, Denotes, Utf8;
    if Denotes(text, s) { DenotedDecodes(text, s); }
    if PercentDecode(text, true) == Some(s) { DecodedDenotes(text); }
  }

  // ---- Fields --------------------------------------------------------------

  /** The pairs with ampersands between them. */
  function JoinedPairs(pairs: seq<Bytes>): Bytes {
    if pairs == [] then [] else if |pairs| == 1 then pairs[0] else pairs[0] + [38] + JoinedPairs(pairs[1..])
  }

  /** The body is its pairs joined, and no pair contains an ampersand. */
  lemma {:induction false} PairsExactly(body: Bytes)
    ensures Pairs(body) != [] && JoinedPairs(Pairs(body)) == body
    ensures forall k :: 0 <= k < |Pairs(body)| ==> 38 !in Pairs(body)[k]
    decreases |body|
  {
    hide Find, Pairs;
    PairsStep(body);
    var k := Find(body, AMPERSAND);
    assert 38 !in body[..k];
    if k < |body| {
      PairsExactly(body[k + 1..]);
      Around(body, k);
    } else {
      assert body[..k] == body;
    }
  }

  lemma Around(s: Bytes, k: nat)
    requires k < |s|
    ensures s == s[..k] + [s[k]] + s[k + 1..]
  {
  }

  /** A pair is a field exactly if its part before the first equals sign is a name
      and the rest a value. */
  lemma FieldExactly(name: Bytes, value: Bytes)
    requires 61 !in name
    ensures ReadField(name + [61] + value)
            == if Component(name).Some? && Component(value).Some? then Some(Field(Component(name).value, Component(value).value)) else None
    ensures ReadField(name).None?
  {
    hide Component;
    forall k | 0 <= k < |name| ensures name[k] != EQUALS { assert name[k] in name; }
    FindJoin(name, EQUALS, value);
    NoFind(name);
  }

  lemma NoFind(s: Bytes)
    requires forall k :: 0 <= k < |s| ==> s[k] != EQUALS
    ensures Find(s, EQUALS) == |s|
  {
    hide Find;
  }

  lemma {:induction false} PairsReadExactly(pairs: seq<Bytes>, done: seq<Field>, fields: seq<Field>)
    requires WellFormed(done)
    ensures ReadPairs(pairs, done) == Ok(done + fields) <==>
              && |fields| == |pairs| && WellFormed(done + fields)
              && forall k :: 0 <= k < |pairs| ==> ReadField(pairs[k]) == Some(fields[k])
    decreases |pairs|
  {
    hide ReadField, WellFormedField;
    if pairs == [] {
      if ReadPairs(pairs, done) == Ok(done + fields) { assert |done| == |done + fields|; }
      if fields == [] { assert done + fields == done; }
    } else {
      FirstRead(pairs, done, fields);
      if fields != [] && ReadField(pairs[0]) == Some(fields[0]) && |done| < MAX_FIELDS && GoodName(done, fields[0].name) {
        var f := fields[0];
        FieldParts(pairs[0]);
        GoodField(done, f);
        OneMore(done, f);
        PairsReadExactly(pairs[1..], done + [f], fields[1..]);
        assert done + fields == done + [f] + fields[1..];
        FieldsShift(pairs, fields);
      }
    }
  }

  lemma FieldsShift(pairs: seq<Bytes>, fields: seq<Field>)
    requires pairs != [] && fields != [] && ReadField(pairs[0]) == Some(fields[0])
    ensures |fields| == |pairs| ==>
              ((forall k :: 0 <= k < |pairs| ==> ReadField(pairs[k]) == Some(fields[k]))
               <==> forall k :: 0 <= k < |pairs[1..]| ==> ReadField(pairs[1..][k]) == Some(fields[1..][k]))
  {
    hide ReadField;
    if |fields| == |pairs| && forall k :: 0 <= k < |pairs[1..]| ==> ReadField(pairs[1..][k]) == Some(fields[1..][k]) {
      forall k | 0 <= k < |pairs| ensures ReadField(pairs[k]) == Some(fields[k]) {
        if k > 0 { assert ReadField(pairs[1..][k - 1]) == Some(fields[1..][k - 1]); }
      }
    }
  }

  /** The first pair decides whether the fields can begin as they do. */
  lemma FirstRead(pairs: seq<Bytes>, done: seq<Field>, fields: seq<Field>)
    requires pairs != [] && WellFormed(done)
    ensures ReadPairs(pairs, done) == Ok(done + fields) ==>
              fields != [] && ReadField(pairs[0]) == Some(fields[0]) && |done| < MAX_FIELDS && GoodName(done, fields[0].name)
    ensures fields != [] && WellFormed(done + fields) ==> |done| < MAX_FIELDS && GoodName(done, fields[0].name)
  {
    hide ReadField, WellFormed, GoodName;
    if ReadPairs(pairs, done) == Ok(done + fields) {
      var f := ReadField(pairs[0]).value;
      assert ReadPairs(pairs, done) == ReadPairs(pairs[1..], done + [f]);
      FieldParts(pairs[0]);
      FewSoFar(done);
      GoodField(done, f);
      OneMore(done, f);
      ParsedWellFormed(pairs[1..], done + [f]);
      Begins(done, f, fields);
    }
    if fields != [] && WellFormed(done + fields) { NewName(done, fields); }
  }

  lemma Begins(done: seq<Field>, f: Field, fields: seq<Field>)
    requires done + [f] <= done + fields
    ensures fields != [] && fields[0] == f
  {
    assert |done + fields| == |done| + |fields|;
    assert (done + [f])[|done|] == f && (done + fields)[|done|] == fields[0];
  }

  lemma NewName(done: seq<Field>, fields: seq<Field>)
    requires fields != [] && WellFormed(done + fields)
    ensures |done| < MAX_FIELDS && GoodName(done, fields[0].name)
  {
    hide Utf8;
    var all := done + fields;
    assert all[|done|] == fields[0];
    assert WellFormedField(all[|done|]);
    forall k | 0 <= k < |done| ensures done[k].name != fields[0].name { assert all[k] == done[k]; }
  }

  /** A body is the form of exactly these fields if it has a pair for each, in order,
      and they are at most 128, with names that are distinct, not empty and at most
      1024 bytes, in UTF-8. */
  lemma ParsedExactly(body: Bytes, fields: seq<Field>)
    ensures Parsed(body) == Ok(fields) <==>
              && |fields| == |Pairs(body)| && |fields| <= 128
              && (forall k :: 0 <= k < |fields| ==>
                    ReadField(Pairs(body)[k]) == Some(fields[k]) && 0 < |fields[k].name| <= 1024 && Utf8(fields[k].name) && Utf8(fields[k].value))
              && (forall j, k :: 0 <= j < k < |fields| ==> fields[j].name != fields[k].name)
  {
    hide ReadField, Utf8, Pairs, ReadPairs, WellFormed;
    assert [] + fields == fields;
    NoneWellFormed();
    PairsReadExactly(Pairs(body), [], fields);
    FieldsMean(fields);
  }

  lemma NoneWellFormed()
    ensures WellFormed([])
  {
  }

  lemma FieldsMean(fields: seq<Field>)
    ensures WellFormed(fields) <==>
              && |fields| <= 128
              && (forall k :: 0 <= k < |fields| ==> 0 < |fields[k].name| <= 1024 && Utf8(fields[k].name) && Utf8(fields[k].value))
              && (forall j, k :: 0 <= j < k < |fields| ==> fields[j].name != fields[k].name)
  {
    hide Utf8;
    assert forall k :: 0 <= k < |fields| ==>
      (WellFormedField(fields[k]) <==> 0 < |fields[k].name| <= 1024 && Utf8(fields[k].name) && Utf8(fields[k].value));
  }

  // ---- Writing -------------------------------------------------------------

  /** What a serializer leaves as it is: letters, digits and "*-._". */
  predicate Kept(b: byte) {
    48 <= b <= 57 || 65 <= b <= 90 || 97 <= b <= 122 || b in [42, 45, 46, 95]
  }

  /** Text of such bytes, plus signs and percent signs. */
  predicate Written(t: Bytes) {
    forall k :: 0 <= k < |t| ==> Kept(t[k]) || t[k] == 43 || t[k] == 37
  }

  lemma {:induction false} SerializedWritten(s: Bytes)
    ensures Written(Serialized(s))
  {
    if s != [] { SerializedWritten(s[1..]); }
  }

  /** Of all such texts that denote `s`, serializing gives a shortest one. */
  lemma {:induction false} SerializedShortest(t: Bytes)
    requires Written(t) && PercentDecode(t, true).Some?
    ensures |Serialized(PercentDecode(t, true).value)| <= |t|
    decreases |t|
  {
    if t != [] {
      var n := if t[0] == PERCENT then 3 else 1;
      SerializedShortest(t[n..]);
      var s := PercentDecode(t, true).value;
      assert s[1..] == PercentDecode(t[n..], true).value;
    }
  }
}
