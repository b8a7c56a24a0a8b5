/** Form bodies (WHATWG URL, sections 5.1 and 5.2), parsed strictly: a body that
    a lenient parser would repair is refused.

    Parsing undoes serialization for every list of fields that a body may hold,
    so a form can be parsed, edited and written again without changing any
    field that was not edited. */
module Forms {
  import opened Prelude
  import opened Encodings

  datatype Field = Field(name: Bytes, value: Bytes)

  const AMPERSAND: byte := 38
  const EQUALS: byte := 61
  const MAX_FIELDS: nat := 128
  const MAX_NAME: nat := 1024

  // ---- Components ----------------------------------------------------------

  /** A form component: percent-decoded text, which must be UTF-8. */
  function Component(s: Bytes): Option<Bytes> {
    var d := PercentDecode(s, true);
    if d.Some? && Utf8(d.value) then d else None
  }

  function Extended(done: Bytes, rest: Option<Bytes>): Option<Bytes> {
    if rest.None? then None else Some(done + rest.value)
  }

  lemma ExtendedOne(done: Bytes, b: byte, rest: Option<Bytes>)
    ensures Extended(done, Prepend(b, rest)) == Extended(done + [b], rest)
  {
    if rest.Some? { JoinAssociates(done, [b], rest.value); }
  }

  lemma ExtendedEnds(s: Bytes, rest: Option<Bytes>)
    ensures Extended([], rest) == rest && Extended(s, Some([])) == Some(s)
  {
    if rest.Some? { assert [] + rest.value == rest.value; }
    assert s + [] == s;
  }

  /** Decode one component, in one pass. */
  method DecodeComponent(input: Bytes) returns (r: Option<Bytes>)
    ensures r == Component(input)
  {
    var output: Bytes := [];
    var position := 0;
    assert input[0..] == input;
    ghost var whole := PercentDecode(input, true);
    ExtendedEnds([], whole);
    while position < |input|
      invariant position <= |input|
      invariant whole == Extended(output, PercentDecode(input[position..], true))
    {
      ghost var rest := input[position..];
      var b := input[position];
      assert rest[0] == b && rest[1..] == input[position + 1..];
      if b == PLUS {
        ExtendedOne(output, SPACE, PercentDecode(rest[1..], true));
        output := output + [SPACE];
      } else if b == PERCENT {
        if position + 2 >= |input| || HexByte(input[position + 1], input[position + 2]).None? {
          assert PercentDecode(rest, true).None?;
          return None;
        }
        var decoded := HexByte(input[position + 1], input[position + 2]).value;
        assert rest[3..] == input[position + 3..];
        ExtendedOne(output, decoded, PercentDecode(rest[3..], true));
        output := output + [decoded];
        position := position + 2;
      } else {
        ExtendedOne(output, b, PercentDecode(rest[1..], true));
        output := output + [b];
      }
      position := position + 1;
    }
    ExtendedEnds(output, None);
    r := if Utf8(output) then Some(output) else None;
  }

  // ---- Fields --------------------------------------------------------------

  /** The position of the first `b`, or the length. */
  function Find(s: Bytes, b: byte): (k: nat)
    ensures k <= |s|
    ensures k < |s| ==> s[k] == b
    ensures forall j :: 0 <= j < k ==> s[j] != b
  {
    if s == [] || s[0] == b then 0 else 1 + Find(s[1..], b)
  }

  function Pairs(body: Bytes): seq<Bytes> {
    var k := Find(body, AMPERSAND);
    if k == |body| then [body] else [body[..k]] + Pairs(body[k + 1..])
  }

  function ReadField(pair: Bytes): Option<Field> {
    var k := Find(pair, EQUALS);
    if k == |pair| then None
    else
      var name, value := Component(pair[..k]), Component(pair[k + 1..]);
      if name.None? || value.None? then None else Some(Field(name.value, value.value))
  }

  predicate Named(fields: seq<Field>, name: Bytes) {
    exists k :: 0 <= k < |fields| && fields[k].name == name
  }

  predicate GoodName(done: seq<Field>, name: Bytes) {
    0 < |name| <= MAX_NAME && !Named(done, name)
  }

  function ReadPairs(pairs: seq<Bytes>, done: seq<Field>): Result<seq<Field>> {
    if pairs == [] then Ok(done)
    else if |done| == MAX_FIELDS then Err(LimitExceeded)
    else
      var f := ReadField(pairs[0]);
      if f.None? || !GoodName(done, f.value.name) then Err(RequestInvalid)
      else ReadPairs(pairs[1..], done + [f.value])
  }

  function Parsed(body: Bytes): Result<seq<Field>> {
    ReadPairs(Pairs(body), [])
  }

  lemma PairsStep(body: Bytes)
    ensures var k := Find(body, AMPERSAND);
            Pairs(body) != [] && Pairs(body)[0] == body[..k] && Pairs(body)[1..] == if k == |body| then [] else Pairs(body[k + 1..])
  {
    hide Find;
    var k := Find(body, AMPERSAND);
    if k < |body| {
      var rest := Pairs(body[k + 1..]);
      assert Pairs(body) == [body[..k]] + rest;
    }
  }

  /** Parse a body, pair by pair. */
  method ParseForm(body: Bytes) returns (r: Result<seq<Field>>)
    ensures r == Parsed(body)
  {
    var fields: seq<Field> := [];
    var rest, more := body, true;
    while more
      invariant Parsed(body) == ReadPairs(if more then Pairs(rest) else [], fields)
      decreases if more then |rest| + 1 else 0
    {
      hide Component;
      PairsStep(rest);
      if |fields| == MAX_FIELDS { return Err(LimitExceeded); }
      var k := Find(rest, AMPERSAND);
      var pair := rest[..k];
      var equal := Find(pair, EQUALS);
      if equal == |pair| { return Err(RequestInvalid); }
      var name := DecodeComponent(pair[..equal]);
      if name.None? || !GoodName(fields, name.value) { return Err(RequestInvalid); }
      var value := DecodeComponent(pair[equal + 1..]);
      if value.None? { return Err(RequestInvalid); }
      fields := fields + [Field(name.value, value.value)];
      more := k < |rest|;
      rest := if more then rest[k + 1..] else [];
    }
    return Ok(fields);
  }

  /** The lists of fields that a body may hold. */
  predicate WellFormed(fields: seq<Field>) {
    && |fields| <= MAX_FIELDS
    && (forall k :: 0 <= k < |fields| ==> WellFormedField(fields[k]))
    && DistinctNames(fields)
  }

  predicate WellFormedField(f: Field) {
    0 < |f.name| <= MAX_NAME && Utf8(f.name) && Utf8(f.value)
  }

  predicate DistinctNames(fields: seq<Field>) {
    forall j, k :: 0 <= j < k < |fields| ==> fields[j].name != fields[k].name
  }

  lemma OneMore(done: seq<Field>, f: Field)
    requires WellFormed(done) && WellFormedField(f) && GoodName(done, f.name) && |done| < MAX_FIELDS
    ensures WellFormed(done + [f])
  {
    hide WellFormedField;
  }

  /** Everything parsed is well-formed, */
  lemma {:induction false} ParsedWellFormed(pairs: seq<Bytes>, done: seq<Field>)
    requires WellFormed(done) && ReadPairs(pairs, done).Ok?
    ensures WellFormed(ReadPairs(pairs, done).value)
    ensures |ReadPairs(pairs, done).value| == |done| + |pairs|
    ensures done <= ReadPairs(pairs, done).value
  {
    if pairs != [] {
      hide ReadField, WellFormed, GoodName;
      var f := ReadField(pairs[0]).value;
      FieldParts(pairs[0]);
      FewSoFar(done);
      GoodField(done, f);
      OneMore(done, f);
      ParsedWellFormed(pairs[1..], done + [f]);
    }
  }

  lemma FewSoFar(done: seq<Field>)
    requires WellFormed(done)
    ensures |done| <= MAX_FIELDS
  {
  }

  lemma GoodField(done: seq<Field>, f: Field)
    requires GoodName(done, f.name) && Utf8(f.name) && Utf8(f.value)
    ensures WellFormedField(f)
  {
  }

  lemma FieldParts(pair: Bytes)
    requires ReadField(pair).Some?
    ensures Utf8(ReadField(pair).value.name) && Utf8(ReadField(pair).value.value)
  {
  }

  // ---- Serialization -------------------------------------------------------

  predicate Kept(b: byte) {
    Alphanumeric(b) || b == 42 || b == 45 || b == 46 || b == 95
  }

  function FormByte(b: byte): Bytes {
    if Kept(b) then [b]
    else if b == SPACE then [PLUS]
    else [PERCENT, HexDigit(b >> 4, true), HexDigit(b & 15, true)]
  }

  function Serialized(s: Bytes): Bytes {
    if s == [] then [] else FormByte(s[0]) + Serialized(s[1..])
  }

  function EncodePair(f: Field): Bytes {
    Serialized(f.name) + [EQUALS] + Serialized(f.value)
  }

  function EncodeForm(fields: seq<Field>): Bytes {
    if fields == [] then []
    else if |fields| == 1 then EncodePair(fields[0])
    else EncodePair(fields[0]) + [AMPERSAND] + EncodeForm(fields[1..])
  }

  predicate Plain(s: Bytes) {
    forall k :: 0 <= k < |s| ==> s[k] != AMPERSAND && s[k] != EQUALS
  }

  lemma FormStep(b: byte, tail: Bytes)
    ensures PercentDecode(FormByte(b) + tail, true) == Prepend(b, PercentDecode(tail, true))
  {
    HexRound(b, true);
    var head := FormByte(b);
    assert (head + tail)[|head|..] == tail;
  }

  lemma FormBytePlain(b: byte)
    ensures Plain(FormByte(b))
  {
  }

  lemma PlainJoin(a: Bytes, b: Bytes)
    requires Plain(a) && Plain(b)
    ensures Plain(a + b)
  {
  }

  lemma {:induction false} ComponentRound(s: Bytes)
    ensures PercentDecode(Serialized(s), true) == Some(s)
    ensures Plain(Serialized(s))
  {
    if s != [] {
      hide PercentDecode, FormByte, Plain;
      ComponentRound(s[1..]);
      FormStep(s[0], Serialized(s[1..]));
      FormBytePlain(s[0]);
      PlainJoin(FormByte(s[0]), Serialized(s[1..]));
      assert [s[0]] + s[1..] == s;
    }
  }

  lemma FindJoin(a: Bytes, b: byte, rest: Bytes)
    requires forall k :: 0 <= k < |a| ==> a[k] != b
    ensures Find(a + [b] + rest, b) == |a|
    ensures (a + [b] + rest)[..|a|] == a && (a + [b] + rest)[|a| + 1..] == rest
  {
    var s := a + [b] + rest;
    assert s[|a|] == b;
    assert forall k :: 0 <= k < |a| ==> s[k] == a[k];
  }

  lemma PairRound(f: Field)
    requires WellFormedField(f)
    ensures ReadField(EncodePair(f)) == Some(f)
    ensures forall k :: 0 <= k < |EncodePair(f)| ==> EncodePair(f)[k] != AMPERSAND
  {
    hide PercentDecode, Serialized, Utf8;
    ComponentRound(f.name);
    ComponentRound(f.value);
    FindJoin(Serialized(f.name), EQUALS, Serialized(f.value));
  }

  /** The pairs of a form that is written field by field. */
  function Encoded(fields: seq<Field>): seq<Bytes> {
    seq(|fields|, i requires 0 <= i < |fields| => EncodePair(fields[i]))
  }

  lemma {:induction false} PairsEncode(fields: seq<Field>)
    requires fields != [] && (forall k :: 0 <= k < |fields| ==> WellFormedField(fields[k]))
    ensures Pairs(EncodeForm(fields)) == Encoded(fields)
  {
    hide EncodePair, WellFormedField, Pairs, Find, Encoded, EncodeForm;
    var body := EncodeForm(fields);
    var first := EncodePair(fields[0]);
    PairRound(fields[0]);
    EncodedFirst(fields);
    PairsStep(body);
    if |fields| == 1 {
      NoAmpersand(first);
    } else {
      FindJoin(first, AMPERSAND, EncodeForm(fields[1..]));
      PairsEncode(fields[1..]);
    }
    assert Pairs(body) == [Pairs(body)[0]] + Pairs(body)[1..];
  }

  lemma NoAmpersand(s: Bytes)
    requires forall k :: 0 <= k < |s| ==> s[k] != AMPERSAND
    ensures Find(s, AMPERSAND) == |s| && s[..|s|] == s
  {
  }

  /** The first pair of a form, and the rest of it. */
  lemma EncodedFirst(fields: seq<Field>)
    requires fields != []
    ensures Encoded(fields) == [EncodePair(fields[0])] + Encoded(fields[1..])
    ensures |fields| == 1 ==> EncodeForm(fields) == EncodePair(fields[0]) && Encoded(fields[1..]) == []
    ensures |fields| > 1 ==> EncodeForm(fields) == EncodePair(fields[0]) + [AMPERSAND] + EncodeForm(fields[1..])
  {
    hide EncodePair, Encoded;
    EncodedStep(fields);
    if |fields| == 1 { assert fields[1..] == []; }
  }

  lemma EncodedStep(fields: seq<Field>)
    requires fields != []
    ensures Encoded(fields) == [EncodePair(fields[0])] + Encoded(fields[1..])
    ensures |Encoded(fields[1..])| == |fields| - 1
  {
    hide EncodePair;
  }

  /** and every well-formed list can be written and read back. */
  lemma RoundTrip(fields: seq<Field>)
    requires fields != [] && WellFormed(fields)
    ensures Parsed(EncodeForm(fields)) == Ok(fields)
  {
    hide EncodePair;
    PairsEncode(fields);
    var pairs := Pairs(EncodeForm(fields));
    forall k | 0 <= k < |fields| ensures ReadField(pairs[k]) == Some(fields[k]) {
      PairRound(fields[k]);
    }
    ReadBack(pairs, fields, 0);
    assert fields[..0] == [] && pairs[0..] == pairs;
  }

  lemma {:induction false} ReadBack(pairs: seq<Bytes>, fields: seq<Field>, k: nat)
    requires WellFormed(fields) && |pairs| == |fields| && k <= |fields|
    requires forall i :: 0 <= i < |fields| ==> ReadField(pairs[i]) == Some(fields[i])
    ensures ReadPairs(pairs[k..], fields[..k]) == Ok(fields)
    decreases |fields| - k
  {
    hide ReadField, Utf8;
    if k < |fields| {
      assert WellFormedField(fields[k]);
      assert fields[..k] + [fields[k]] == fields[..k + 1];
      assert pairs[k..][1..] == pairs[k + 1..];
      ReadBack(pairs, fields, k + 1);
    } else {
      assert fields[..k] == fields;
    }
  }

  /** So a parsed body, written again, changes in spelling only. */
  lemma ParsesToWellFormed(body: Bytes)
    requires Parsed(body).Ok?
    ensures WellFormed(Parsed(body).value) && Parsed(body).value != []
    ensures Parsed(EncodeForm(Parsed(body).value)) == Parsed(body)
  {
    ParsedWellFormed(Pairs(body), []);
    RoundTrip(Parsed(body).value);
  }
}
