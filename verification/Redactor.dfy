/** Streaming longest-match redaction of secret values and their encodings. */
module Redactor {
  import opened Prelude
  import opened Scanning
  import opened Encodings

  const MAX_VALUES: nat := 16
  const MAX_VALUE: nat := 4096
  const MAX_PATTERNS: nat := 1024
  const MAX_PATTERN_BYTES: nat := 1024 * 1024

  // ---- Matching ------------------------------------------------------------

  /** The length of the first pattern that `s` starts with, or zero. */
  function Found(patterns: seq<Bytes>, s: Bytes): (n: nat)
    ensures n <= |s|
  {
    if patterns == [] then 0
    else if patterns[0] <= s then |patterns[0]|
    else Found(patterns[1..], s)
  }

  function Finder(patterns: seq<Bytes>): Matcher {
    (s: Bytes) => Found(patterns, s)
  }

  /** Nonempty patterns, longest first. */
  ghost predicate LongestFirst(patterns: seq<Bytes>) {
    && (forall i :: 0 <= i < |patterns| ==> patterns[i] != [])
    && (forall i, j :: 0 <= i < j < |patterns| ==> |patterns[i]| >= |patterns[j]|)
  }

  function Longest(patterns: seq<Bytes>): nat {
    if patterns == [] then 1 else |patterns[0]|
  }

  /** The first pattern found is the longest one present. */
  lemma {:induction false} FoundLongest(patterns: seq<Bytes>, s: Bytes)
    requires LongestFirst(patterns)
    ensures Found(patterns, s) > 0 ==> s[..Found(patterns, s)] in patterns
    ensures forall p :: p in patterns && p <= s ==> 0 < |p| <= Found(patterns, s)
  {
    if patterns != [] {
      assert patterns == [patterns[0]] + patterns[1..];
      if patterns[0] <= s {
        assert s[..|patterns[0]|] == patterns[0];
      } else {
        FoundLongest(patterns[1..], s);
      }
    }
  }

  lemma {:induction false} FoundLocal(patterns: seq<Bytes>, s: Bytes, t: Bytes)
    requires forall p :: p in patterns ==> |p| <= |s|
    ensures Found(patterns, s + t) == Found(patterns, s)
  {
    if patterns != [] {
      assert patterns[0] in patterns;
      assert patterns[0] <= s + t <==> patterns[0] <= s by {
        if patterns[0] <= s + t { assert (s + t)[..|patterns[0]|] == s[..|patterns[0]|]; }
      }
      assert forall p :: p in patterns[1..] ==> p in patterns;
      FoundLocal(patterns[1..], s, t);
    }
  }

  /** The matcher needs no more than the longest pattern's length. */
  lemma FinderBounded(patterns: seq<Bytes>)
    requires LongestFirst(patterns)
    ensures Bounded(Finder(patterns), Longest(patterns))
  {
    var m := Finder(patterns);
    forall s: Bytes, t: Bytes | |s| >= Longest(patterns) ensures m(s + t) == m(s) {
      FoundLocal(patterns, s, t);
    }
  }

  /** Which texts are found depends on the set of patterns alone. */
  lemma FoundBySet(a: seq<Bytes>, b: seq<Bytes>, s: Bytes)
    requires LongestFirst(a) && LongestFirst(b)
    requires forall p :: p in a <==> p in b
    ensures Found(a, s) == Found(b, s)
  {
    FoundLongest(a, s);
    FoundLongest(b, s);
    if Found(a, s) > 0 { assert s[..Found(a, s)] in b; }
    if Found(b, s) > 0 { assert s[..Found(b, s)] in a; }
  }

  // ---- No pattern survives -------------------------------------------------

  ghost predicate Occurs(p: Bytes, s: Bytes) {
    exists o :: 0 <= o <= |s| && p <= s[o..]
  }

  ghost predicate AllLiteral(tokens: seq<Token>) {
    forall k :: 0 <= k < |tokens| ==> tokens[k].Literal?
  }

  lemma {:induction false} LiteralSource(tokens: seq<Token>, o: nat)
    requires AllLiteral(tokens) && o <= |tokens|
    ensures |Source(tokens)| == |tokens| && Source(tokens)[o..] == Source(tokens[o..])
  {
    if o > 0 {
      LiteralSource(tokens[1..], o - 1);
      assert tokens[1..][o - 1..] == tokens[o..];
      assert Source(tokens)[o..] == Source(tokens[1..])[o - 1..];
    } else {
      assert tokens[0..] == tokens;
      if tokens != [] { LiteralSource(tokens[1..], 0); }
    }
  }

  /** In the scan of any text, no run of copied bytes contains any pattern. */
  lemma NoPatternSurvives(patterns: seq<Bytes>, s: Bytes, i: nat, j: nat, p: Bytes)
    requires LongestFirst(patterns) && p in patterns
    requires i <= j <= |Scan(Finder(patterns), s)| && AllLiteral(Scan(Finder(patterns), s)[i..j])
    ensures !Occurs(p, Source(Scan(Finder(patterns), s)[i..j]))
  {
    hide Scan, Found;
    var tokens := Scan(Finder(patterns), s);
    var run := Source(tokens[i..j]);
    LiteralSource(tokens[i..j], 0);
    forall o | 0 <= o <= |run| ensures !(p <= run[o..]) {
      if p <= run[o..] {
        LiteralSource(tokens[i..j], o);
        assert tokens[i..j][o..] == tokens[i + o..j];
        assert tokens[i..j][o].Literal?;
        LiteralSource(tokens[i + o..j], 0);
        PatternBegins(patterns, s, i + o, j, p);
      }
    }
  }

  /** Where a pattern begins, there is a match. */
  lemma PatternBegins(patterns: seq<Bytes>, s: Bytes, k: nat, j: nat, p: Bytes)
    requires LongestFirst(patterns) && p in patterns
    requires k < j <= |Scan(Finder(patterns), s)| && p <= Source(Scan(Finder(patterns), s)[k..j])
    ensures Scan(Finder(patterns), s)[k].Match?
  {
    hide Scan, Found, Source;
    var tokens := Scan(Finder(patterns), s);
    assert tokens[k..] == tokens[k..j] + tokens[j..];
    SourceJoin(tokens[k..j], tokens[j..]);
    TokenAt(Finder(patterns), s, k);
    var a, rest := Source(tokens[k..j]), Source(tokens[k..]);
    assert rest[..|p|] == a[..|p|];
    FoundLongest(patterns, rest);
  }

  /** Every replaced text is the longest pattern present at its place. */
  lemma ReplacedIsLongest(patterns: seq<Bytes>, s: Bytes, k: nat)
    requires LongestFirst(patterns)
    requires k < |Scan(Finder(patterns), s)| && Scan(Finder(patterns), s)[k].Match?
    ensures var t := Scan(Finder(patterns), s)[k]; var rest := Source(Scan(Finder(patterns), s)[k..]);
            && t.text in patterns && t.text <= rest
            && forall p :: p in patterns && p <= rest ==> |p| <= |t.text|
  {
    TokenAt(Finder(patterns), s, k);
    FoundLongest(patterns, Source(Scan(Finder(patterns), s)[k..]));
  }

  // ---- Pattern sets --------------------------------------------------------

  /** Insert by decreasing length, unless present. */
  function Insert(p: Bytes, patterns: seq<Bytes>): seq<Bytes> {
    if patterns == [] then [p]
    else if p == patterns[0] then patterns
    else if |p| > |patterns[0]| then [p] + patterns
    else [patterns[0]] + Insert(p, patterns[1..])
  }

  /** Sorted longest first, without duplicates. */
  function Arranged(all: seq<Bytes>): seq<Bytes> {
    if all == [] then [] else Insert(all[|all| - 1], Arranged(all[..|all| - 1]))
  }

  ghost predicate Distinct(patterns: seq<Bytes>) {
    forall i, j :: 0 <= i < j < |patterns| ==> patterns[i] != patterns[j]
  }

  lemma {:induction false} InsertMember(p: Bytes, patterns: seq<Bytes>, x: Bytes)
    ensures x in Insert(p, patterns) <==> x == p || x in patterns
  {
    if patterns != [] {
      assert x in patterns <==> x == patterns[0] || x in patterns[1..];
      InsertMember(p, patterns[1..], x);
    }
  }

  lemma {:induction false} InsertOrdered(p: Bytes, patterns: seq<Bytes>)
    requires LongestFirst(patterns) && Distinct(patterns) && p != []
    ensures LongestFirst(Insert(p, patterns)) && Distinct(Insert(p, patterns))
  {
    if patterns != [] && p != patterns[0] && |p| <= |patterns[0]| {
      InsertOrdered(p, patterns[1..]);
      var rest := Insert(p, patterns[1..]);
      forall k | 0 <= k < |rest| ensures |rest[k]| <= |patterns[0]| && rest[k] != patterns[0] {
        InsertMember(p, patterns[1..], rest[k]);
        assert rest[k] in rest;
      }
    } else if patterns != [] && p != patterns[0] {
      assert forall k :: 0 <= k < |patterns| ==> |patterns[k]| <= |patterns[0]|;
    }
  }

  /** Arranging keeps exactly the patterns, once each, longest first. */
  lemma {:induction false} ArrangedOrdered(all: seq<Bytes>)
    requires forall k :: 0 <= k < |all| ==> all[k] != []
    ensures LongestFirst(Arranged(all)) && Distinct(Arranged(all))
    ensures forall p :: p in Arranged(all) <==> p in all
  {
    if all != [] {
      var n := |all| - 1;
      ArrangedOrdered(all[..n]);
      InsertOrdered(all[n], Arranged(all[..n]));
      assert all == all[..n] + [all[n]];
      forall p ensures p in Arranged(all) <==> p in all { InsertMember(all[n], Arranged(all[..n]), p); }
    }
  }

  function TotalSize(patterns: seq<Bytes>): nat {
    if patterns == [] then 0 else |patterns[0]| + TotalSize(patterns[1..])
  }

  /** Every spelling of a secret that is suppressed. */
  function Spellings(v: Bytes): seq<Bytes> {
    [v, Encode(Standard, true, v), Encode(Standard, false, v), Encode(UrlSafe, true, v), Encode(UrlSafe, false, v),
     PercentEncode(v, false, false), PercentEncode(v, true, false), PercentEncode(v, false, true), PercentEncode(v, true, true)]
    + (if Utf8(v) then [JsonEscape(v)] else [])
  }

  lemma SpellingsNonempty(v: Bytes)
    requires v != []
    ensures forall k :: 0 <= k < |Spellings(v)| ==> Spellings(v)[k] != []
  {
    hide Symbol, HexDigit, Utf8;
  }

  function AllSpellings(values: seq<Bytes>): seq<Bytes> {
    if values == [] then [] else AllSpellings(values[..|values| - 1]) + Spellings(values[|values| - 1])
  }

  lemma {:induction false} AllSpellingsNonempty(values: seq<Bytes>)
    requires forall k :: 0 <= k < |values| ==> values[k] != []
    ensures forall k :: 0 <= k < |AllSpellings(values)| ==> AllSpellings(values)[k] != []
    decreases |values|
  {
    hide Spellings;
    if values != [] {
      AllSpellingsNonempty(values[..|values| - 1]);
      SpellingsNonempty(values[|values| - 1]);
    }
  }

  /** `e` is the secret `v`, or spells it: in base64 of either alphabet, padded or
      not, in percent or form encoding with digits of either case or, if it is text,
      as the inside of a JSON string. */
  ghost predicate IsSpelling(e: Bytes, v: Bytes) {
    || e == v
    || (exists a, padded :: e == Encode(a, padded, v))
    || (exists form, upper :: e == PercentEncode(v, form, upper))
    || (Utf8(v) && e == JsonEscape(v))
  }

  /** The patterns are the spellings of the secrets, each once, longest first. */
  ghost predicate Suppresses(patterns: seq<Bytes>, values: seq<Bytes>) {
    && LongestFirst(patterns) && Distinct(patterns)
    && forall p :: p in patterns <==> exists v :: v in values && IsSpelling(p, v)
  }

  lemma SpelledOut(e: Bytes, v: Bytes)
    ensures IsSpelling(e, v) <==> e in Spellings(v)
  {
    hide Encode, PercentEncode, JsonEscape, Utf8;
    var s := Spellings(v);
    assert s[0] == v && s[1] == Encode(Standard, true, v) && s[2] == Encode(Standard, false, v);
    assert s[3] == Encode(UrlSafe, true, v) && s[4] == Encode(UrlSafe, false, v);
    assert s[5] == PercentEncode(v, false, false) && s[6] == PercentEncode(v, true, false);
    assert s[7] == PercentEncode(v, false, true) && s[8] == PercentEncode(v, true, true);
    assert Utf8(v) ==> s[9] == JsonEscape(v);
    forall a: Alphabet, padded | e == Encode(a, padded, v) ensures e in s { assert a.Standard? || a.UrlSafe?; }
  }

  lemma {:induction false} AllSpelledOut(values: seq<Bytes>, p: Bytes)
    ensures p in AllSpellings(values) <==> exists v :: v in values && IsSpelling(p, v)
    decreases |values|
  {
    hide Spellings, IsSpelling;
    if values != [] {
      var n := |values| - 1;
      AllSpelledOut(values[..n], p);
      SpelledOut(p, values[n]);
      assert values == values[..n] + [values[n]];
    }
  }

  lemma ArrangedSuppress(values: seq<Bytes>)
    requires forall k :: 0 <= k < |values| ==> values[k] != []
    ensures Suppresses(Arranged(AllSpellings(values)), values)
  {
    hide AllSpellings, Arranged, IsSpelling;
    AllSpellingsNonempty(values);
    ArrangedOrdered(AllSpellings(values));
    forall p ensures p in Arranged(AllSpellings(values)) <==> exists v :: v in values && IsSpelling(p, v) { AllSpelledOut(values, p); }
  }

  /** A spelling of a secret never survives in a run of copied bytes, and nothing
      but spellings of secrets is replaced. */
  lemma SecretsSuppressed(patterns: seq<Bytes>, values: seq<Bytes>, v: Bytes, e: Bytes, s: Bytes, i: nat, j: nat)
    requires Suppresses(patterns, values) && v in values && IsSpelling(e, v)
    requires i <= j <= |Scan(Finder(patterns), s)|
    ensures AllLiteral(Scan(Finder(patterns), s)[i..j]) ==> !Occurs(e, Source(Scan(Finder(patterns), s)[i..j]))
    ensures i < j && Scan(Finder(patterns), s)[i].Match? ==>
              exists w :: w in values && IsSpelling(Scan(Finder(patterns), s)[i].text, w)
  {
    hide Occurs, Scan, IsSpelling;
    if AllLiteral(Scan(Finder(patterns), s)[i..j]) { NoPatternSurvives(patterns, s, i, j, e); }
    if i < j && Scan(Finder(patterns), s)[i].Match? { ReplacedIsLongest(patterns, s, i); }
  }

  /** So what a finished run of calls has returned is its input with pieces
      replaced, no spelling of a secret being left between them, nor anywhere if it
      cannot touch the text of the marker. */
  lemma FeedsHideSecrets(patterns: seq<Bytes>, values: seq<Bytes>, streams: seq<Stream>, feeds: seq<Feeding>, v: Bytes, e: Bytes)
    returns (tokens: seq<Token>)
    requires Suppresses(patterns, values) && v in values && IsSpelling(e, v)
    requires IsFeeding(Finder(patterns), Longest(patterns), streams, feeds) && streams[|feeds|].done
    ensures Source(tokens) == Inputs(feeds) && Emit(tokens) == Outputs(feeds)
    ensures forall i, j :: 0 <= i <= j <= |tokens| && AllLiteral(tokens[i..j]) ==> !Occurs(e, Source(tokens[i..j]))
    ensures !TouchesMarker(e) ==> !Occurs(e, Outputs(feeds))
  {
    hide Scan, Emit, Source, IsFeeding, IsSpelling, Occurs, TouchesMarker, AllLiteral;
    var s := Inputs(feeds);
    tokens := Scan(Finder(patterns), s);
    FeedIsOneScan(patterns, streams, feeds);
    ScanSource(Finder(patterns), s);
    forall i, j | 0 <= i <= j <= |tokens| && AllLiteral(tokens[i..j]) ensures !Occurs(e, Source(tokens[i..j])) {
      SecretsSuppressed(patterns, values, v, e, s, i, j);
    }
    if !TouchesMarker(e) { OutputHoldsNone(patterns, s, e); }
  }

  // ---- The whole output ----------------------------------------------------

  /** `p`, laid over the marker from position `d` on, agrees with it wherever both
      are. */
  predicate Agrees(p: Bytes, d: int) {
    forall j :: 0 <= j < |p| && 0 <= d + j < |REDACTED| ==> p[j] == REDACTED[d + j]
  }

  /** Some text can contain `p` in a place that touches a marker. */
  predicate TouchesMarker(p: Bytes) {
    exists d :: -|p| < d < |REDACTED| && Agrees(p, d)
  }

  lemma EmitFirst(tokens: seq<Token>)
    requires tokens != []
    ensures Emit(tokens) == (if tokens[0].Literal? then [tokens[0].value] else REDACTED) + Emit(tokens[1..])
  {
  }

  lemma MarkerBegins(tokens: seq<Token>, p: Bytes, k: int)
    requires tokens != [] && tokens[0].Match? && 0 <= k < |p| && p[k..] <= Emit(tokens)
    ensures TouchesMarker(p)
  {
    hide Emit;
    EmitFirst(tokens);
    assert Agrees(p, -k) by {
      forall j | 0 <= j < |p| && 0 <= -k + j < |REDACTED| ensures p[j] == REDACTED[-k + j] {
        assert p[k..][j - k] == Emit(tokens)[j - k];
      }
    }
  }

  /** An output that starts with `p`, after `k` copied bytes of it, has copied all
      of it. */
  lemma {:induction false} CopiedWhole(tokens: seq<Token>, p: Bytes, k: nat)
    requires k <= |p| && !TouchesMarker(p) && p[k..] <= Emit(tokens)
    ensures |p| - k <= |tokens| && AllLiteral(tokens[..|p| - k]) && Source(tokens[..|p| - k]) == p[k..]
    decreases |p| - k
  {
    if k < |p| {
      hide Emit;
      EmitNone();
      assert tokens != [];
      EmitFirst(tokens);
      if tokens[0].Match? {
        MarkerBegins(tokens, p, k);
      } else {
        assert p[k..][0] == Emit(tokens)[0];
        assert p[k..][1..] == p[k + 1..] && Emit(tokens)[1..] == Emit(tokens[1..]);
        CopiedWhole(tokens[1..], p, k + 1);
        var n := |p| - k;
        assert tokens[..n] == [tokens[0]] + tokens[1..][..n - 1];
        SourceCons(tokens[0], tokens[1..][..n - 1]);
        assert [p[k]] + p[k + 1..] == p[k..];
      }
    } else {
      assert tokens[..0] == [];
    }
  }

  /** Where the output contains a pattern that touches no marker, a run of copied
      bytes contains it. */
  lemma {:induction false} CopiedSomewhere(tokens: seq<Token>, p: Bytes, o: nat) returns (i: nat, j: nat)
    requires p != [] && !TouchesMarker(p) && o <= |Emit(tokens)| && p <= Emit(tokens)[o..]
    ensures i <= j <= |tokens| && AllLiteral(tokens[i..j]) && Source(tokens[i..j]) == p
    decreases |tokens|
  {
    hide Emit, Source, AllLiteral;
    if o == 0 {
      assert p[0..] == p && Emit(tokens)[0..] == Emit(tokens);
      CopiedWhole(tokens, p, 0);
      i, j := 0, |p|;
      assert tokens[0..|p|] == tokens[..|p|];
    } else {
      EmitNone();
      EmitFirst(tokens);
      var n := if tokens[0].Literal? then 1 else |REDACTED|;
      if o < n {
        if tokens[0].Match? { MarkerTouched(tokens, p, o); }
      } else {
        assert Emit(tokens)[o..] == Emit(tokens[1..])[o - n..];
        i, j := CopiedSomewhere(tokens[1..], p, o - n);
        assert tokens[1..][i..j] == tokens[i + 1..j + 1];
        i, j := i + 1, j + 1;
      }
    }
  }

  lemma MarkerTouched(tokens: seq<Token>, p: Bytes, o: nat)
    requires tokens != [] && tokens[0].Match? && 0 < o < |REDACTED| && p != [] && o <= |Emit(tokens)| && p <= Emit(tokens)[o..]
    ensures TouchesMarker(p)
  {
    hide Emit;
    EmitFirst(tokens);
    assert Agrees(p, o) by {
      forall j | 0 <= j < |p| && 0 <= o + j < |REDACTED| ensures p[j] == REDACTED[o + j] {
        assert p[j] == Emit(tokens)[o..][j];
      }
    }
  }

  lemma ItselfOccurs(p: Bytes)
    ensures Occurs(p, p)
  {
    assert p <= p[0..];
  }

  lemma PatternNonempty(patterns: seq<Bytes>, p: Bytes)
    requires LongestFirst(patterns) && p in patterns
    ensures p != []
  {
  }

  /** The redacted output, markers included, contains no pattern that does not
      touch the marker's own text. */
  lemma OutputHoldsNone(patterns: seq<Bytes>, s: Bytes, p: Bytes)
    requires LongestFirst(patterns) && p in patterns && !TouchesMarker(p)
    ensures !Occurs(p, Emit(Scan(Finder(patterns), s)))
  {
    hide Scan, Found, Emit, Source, AllLiteral, TouchesMarker;
    var tokens := Scan(Finder(patterns), s);
    forall o | 0 <= o <= |Emit(tokens)| ensures !(p <= Emit(tokens)[o..]) {
      if p <= Emit(tokens)[o..] {
        ItselfOccurs(p);
        PatternNonempty(patterns, p);
        var i, j := CopiedSomewhere(tokens, p, o);
        NoPatternSurvives(patterns, s, i, j, p);
      }
    }
  }

  /** The condition is needed: a pattern that is a letter of the marker is put back
      by the marker that replaces it. */
  lemma MarkerHolds(b: byte)
    requires b in REDACTED
    ensures LongestFirst([[b]]) && TouchesMarker([b])
    ensures Occurs([b], Emit(Scan(Finder([[b]]), [b])))
  {
    hide Scan, Emit, Found;
    var o :| 0 <= o < |REDACTED| && REDACTED[o] == b;
    assert Agrees([b], o);
    FoundItself(b);
    ScanOne(Finder([[b]]), b);
    EmitFirst([Match([b])]);
    EmitNone();
    assert [Match([b])][1..] == [];
    assert REDACTED + [] == REDACTED;
    assert [b] <= REDACTED[o..];
  }

  lemma FoundItself(b: byte)
    ensures Found([[b]], [b]) == 1
  {
  }

  lemma ScanOne(m: Matcher, b: byte)
    requires m([b]) == 1 && forall x: Bytes :: m(x) <= |x|
    ensures Scan(m, [b]) == [Match([b])]
  {
    assert [b][..1] == [b] && [b][1..] == [];
    assert Scan(m, []) == [];
  }

  // ---- The stream ----------------------------------------------------------

  /** Few enough values of a sensible size. */
  predicate Acceptable(values: seq<Bytes>) {
    && |values| <= MAX_VALUES && (forall k :: 0 <= k < |values| ==> 0 < |values[k]| <= MAX_VALUE)
    && TotalSize(Arranged(AllSpellings(values))) <= MAX_PATTERN_BYTES
  }

  class Redactor {
    const patterns: seq<Bytes>
    const longest: nat
    var pending: Bytes
    var done: bool

    ghost predicate Valid()
      reads this
    {
      LongestFirst(patterns) && longest == Longest(patterns)
    }

    constructor Over(patterns: seq<Bytes>)
      requires LongestFirst(patterns)
      ensures Valid() && this.patterns == patterns && pending == [] && !done
    {
      this.patterns, longest, pending, done := patterns, Longest(patterns), [], false;
    }

    /** A stream over the given values and all their spellings. */
    static method New(values: seq<Bytes>) returns (r: Result<Redactor>)
      ensures r.Ok? <==> Acceptable(values)
      ensures r.Err? ==> r.error == LimitExceeded
      ensures r.Ok? ==> fresh(r.value) && r.value.Valid() && r.value.pending == [] && !r.value.done
      ensures r.Ok? ==> r.value.patterns == Arranged(AllSpellings(values)) && Suppresses(r.value.patterns, values)
    {
      hide Spellings, AllSpellings, Arranged, IsSpelling;
      if |values| > MAX_VALUES || exists k :: 0 <= k < |values| && !(0 < |values[k]| <= MAX_VALUE) { return Err(LimitExceeded); }
      var patterns := Arranged(AllSpellings(values));
      if TotalSize(patterns) > MAX_PATTERN_BYTES { return Err(LimitExceeded); }
      ArrangedSuppress(values);
      var redactor := new Redactor.Over(patterns);
      return Ok(redactor);
    }

    /** The same patterns on a new stream. */
    method Fresh() returns (r: Redactor)
      requires Valid()
      ensures fresh(r) && r.Valid() && r.patterns == patterns && r.pending == [] && !r.done
    {
      r := new Redactor.Over(patterns);
    }

    /** A stream for the patterns of both. */
    method Merged(other: Redactor) returns (r: Result<Redactor>)
      requires Valid() && other.Valid()
      ensures r.Err? <==> |Arranged(patterns + other.patterns)| > MAX_PATTERNS
                          || TotalSize(Arranged(patterns + other.patterns)) > MAX_PATTERN_BYTES
      ensures r.Err? ==> r.error == LimitExceeded
      ensures r.Ok? ==> fresh(r.value) && r.value.Valid() && r.value.pending == [] && !r.value.done
      ensures r.Ok? ==> r.value.patterns == Arranged(patterns + other.patterns)
    {
      hide Arranged;
      var unique := Arranged(patterns + other.patterns);
      if |unique| > MAX_PATTERNS || TotalSize(unique) > MAX_PATTERN_BYTES { return Err(LimitExceeded); }
      ArrangedOrdered(patterns + other.patterns);
      var redactor := new Redactor.Over(unique);
      return Ok(redactor);
    }

    /** Feed one chunk; the sanitized bytes of everything it decides. */
    method Feed(chunk: Bytes, end: bool) returns (r: Result<Bytes>)
      requires Valid()
      modifies this
      ensures Valid()
      ensures r.Err? ==> r.error == LimitExceeded
      ensures Fed(Finder(patterns), longest, old(Stream(pending, done)), Feeding(chunk, end, if r.Ok? then Some(r.value) else None),
                  Stream(pending, done))
    {
      hide Decided, Emit, Found, Progress, NextToken, Text, Fed;
      ghost var m := Finder(patterns);
      ghost var before := Stream(pending, done);
      if done || |chunk| > MAX_CHUNK {
        FedRefused(m, longest, before, chunk, end);
        return Err(LimitExceeded);
      }
      pending := pending + chunk;
      var output: Bytes, position := [], 0;
      ghost var tokens: seq<Token> := [];
      EmitNone();
      ghost var all := pending;
      ProgressStart(m, longest, all, end);
      while position < |pending| && (end || |pending| - position >= longest)
        invariant position <= |pending|
        invariant output == Emit(tokens)
        invariant pending == all
        invariant Progress(m, longest, all, end, tokens, position)
      {
        var rest := pending[position..];
        ProgressStep(m, longest, all, end, tokens, position);
        var n := FirstMatch(rest);
        ghost var t := NextToken(m, rest);
        EmitNext(m, rest, tokens);
        tokens := tokens + [t];
        if n > 0 {
          output, position := output + REDACTED, position + n;
        } else {
          output, position := output + [pending[position]], position + 1;
        }
      }
      FedUpTo(m, longest, before, chunk, end, tokens, position);
      pending, done := pending[position..], end;
      return Ok(output);
    }

    /** The first pattern that `rest` starts with. */
    method FirstMatch(rest: Bytes) returns (n: nat)
      ensures n == Found(patterns, rest)
    {
      for k := 0 to |patterns|
        invariant Found(patterns, rest) == Found(patterns[k..], rest)
      {
        if patterns[k] <= rest { return |patterns[k]|; }
        assert patterns[k..][1..] == patterns[k + 1..];
      }
      return 0;
    }
  }

  /** Merging is independent of the order and covers both sets of patterns: the
      merged streams redact every text alike. */
  lemma MergedEitherWay(a: seq<Bytes>, b: seq<Bytes>, s: Bytes)
    requires LongestFirst(a) && LongestFirst(b)
    ensures Found(Arranged(a + b), s) == Found(Arranged(b + a), s)
    ensures LongestFirst(Arranged(a + b)) && forall p :: p in Arranged(a + b) <==> p in a || p in b
  {
    hide Arranged, Found;
    ArrangedOrdered(a + b);
    ArrangedOrdered(b + a);
    FoundBySet(Arranged(a + b), Arranged(b + a), s);
  }

  /** Whatever the chunks of a redactor's run are, what its calls returned is
      together the redaction of the whole text. */
  lemma FeedIsOneScan(patterns: seq<Bytes>, streams: seq<Stream>, feeds: seq<Feeding>)
    requires LongestFirst(patterns) && IsFeeding(Finder(patterns), Longest(patterns), streams, feeds) && streams[|feeds|].done
    ensures Outputs(feeds) == Emit(Scan(Finder(patterns), Inputs(feeds)))
  {
    hide Scan, Emit, IsFeeding;
    FinderBounded(patterns);
    OutputsAreOneScan(Finder(patterns), Longest(patterns), streams, feeds);
  }
}
