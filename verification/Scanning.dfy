/** Replacing recognized text in a byte stream: the one-shot scan of a whole
    input, and the buffered scan of the same input in chunks. */
module Scanning {
  import opened Prelude

  /** How many leading bytes are recognized; zero for none. */
  type Matcher = Bytes -> nat

  /** The matcher stays in its input and never looks beyond `lookahead` bytes. */
  ghost predicate Bounded(m: Matcher, lookahead: nat) {
    && lookahead > 0
    && (forall s: Bytes :: m(s) <= |s|)
    && (forall s: Bytes, t: Bytes :: |s| >= lookahead ==> m(s + t) == m(s))
  }

  /** A copied byte, or a recognized text that is replaced. */
  datatype Token = Literal(value: byte) | Match(text: Bytes)

  function Text(t: Token): Bytes {
    if t.Literal? then [t.value] else t.text
  }

  /** The original bytes of `tokens`. */
  function Source(tokens: seq<Token>): Bytes {
    if tokens == [] then [] else Text(tokens[0]) + Source(tokens[1..])
  }

  const REDACTED: Bytes := [91, 114, 101, 100, 97, 99, 116, 101, 100, 93]

  /** The sanitized bytes of `tokens`. */
  function Emit(tokens: seq<Token>): Bytes {
    if tokens == [] then []
    else (if tokens[0].Literal? then [tokens[0].value] else REDACTED) + Emit(tokens[1..])
  }

  function NextToken(m: Matcher, s: Bytes): (t: Token)
    requires s != [] && m(s) <= |s|
    ensures 0 < |Text(t)| <= |s| && Text(t) == s[..|Text(t)|]
    ensures t.Match? <==> m(s) > 0
  {
    if m(s) > 0 then Match(s[..m(s)]) else Literal(s[0])
  }

  /** The one-shot scan, left to right. */
  ghost function Scan(m: Matcher, s: Bytes): seq<Token>
    requires forall x: Bytes :: m(x) <= |x|
    decreases |s|
  {
    if s == [] then []
    else
      var t := NextToken(m, s);
      [t] + Scan(m, s[|Text(t)|..])
  }

  /** Whether a buffered scan may still decide the next byte of `pending`. */
  predicate Decidable(lookahead: nat, pending: Bytes, end: bool) {
    pending != [] && (end || |pending| >= lookahead)
  }

  /** What one buffered call decides, and what it keeps back. */
  ghost function Decided(m: Matcher, lookahead: nat, pending: Bytes, end: bool): (r: (seq<Token>, Bytes))
    requires forall x: Bytes :: m(x) <= |x|
    decreases |pending|
  {
    if !Decidable(lookahead, pending, end) then ([], pending)
    else
      var t := NextToken(m, pending);
      var r := Decided(m, lookahead, pending[|Text(t)|..], end);
      ([t] + r.0, r.1)
  }

  /** A call accounts for every pending byte and keeps back less than a lookahead. */
  lemma {:induction false} DecidedSource(m: Matcher, lookahead: nat, pending: Bytes, end: bool)
    requires forall x: Bytes :: m(x) <= |x|
    ensures var r := Decided(m, lookahead, pending, end);
            Source(r.0) + r.1 == pending && !Decidable(lookahead, r.1, end)
    decreases |pending|
  {
    if Decidable(lookahead, pending, end) {
      DecidedStep(m, lookahead, pending, end);
      hide Source, Text, Decidable, Decided;
      var t := NextToken(m, pending);
      var rest := pending[|Text(t)|..];
      var r := Decided(m, lookahead, rest, end);
      DecidedSource(m, lookahead, rest, end);
      SourceCons(t, r.0);
      JoinAssociates(Text(t), Source(r.0), r.1);
      Rejoins(pending, |Text(t)|);
    } else {
      Rejoins(pending, 0);
    }
  }

  lemma Rejoins(s: Bytes, n: nat)
    requires n <= |s|
    ensures s[..n] + s[n..] == s && [] + s == s
  {
  }

  lemma SourceCons(t: Token, rest: seq<Token>)
    ensures Source([t] + rest) == Text(t) + Source(rest)
  {
    assert ([t] + rest)[1..] == rest;
  }

  // ---- Every byte is copied, or lies in one replaced match -----------------

  /** A scan accounts for every byte once. */
  lemma {:induction false} ScanSource(m: Matcher, s: Bytes)
    requires forall x: Bytes :: m(x) <= |x|
    ensures Source(Scan(m, s)) == s
    decreases |s|
  {
    hide Source, Text, Scan, NextToken;
    ScanNothing(m);
    if s != [] {
      var t := NextToken(m, s);
      var n := |Text(t)|;
      ScanStep(m, s);
      ScanSource(m, s[n..]);
      SourceCons(t, Scan(m, s[n..]));
    }
  }

  lemma ScanNothing(m: Matcher)
    requires forall x: Bytes :: m(x) <= |x|
    ensures Scan(m, []) == [] && Source([]) == []
  {
  }

  lemma {:induction false} SourceJoin(a: seq<Token>, b: seq<Token>)
    ensures Source(a + b) == Source(a) + Source(b)
  {
    if a == [] {
      assert a + b == b;
    } else {
      assert (a + b)[1..] == a[1..] + b;
      SourceJoin(a[1..], b);
    }
  }

  lemma {:induction false} EmitJoin(a: seq<Token>, b: seq<Token>)
    ensures Emit(a + b) == Emit(a) + Emit(b)
  {
    if a == [] {
      assert a + b == b;
    } else {
      assert (a + b)[1..] == a[1..] + b;
      EmitJoin(a[1..], b);
    }
  }

  /** The scan from any token on is the scan of the text from there on. */
  lemma {:induction false} ScanTail(m: Matcher, s: Bytes, k: nat)
    requires forall x: Bytes :: m(x) <= |x|
    requires k <= |Scan(m, s)|
    ensures Scan(m, s)[k..] == Scan(m, Source(Scan(m, s)[k..]))
    decreases k
  {
    ScanSource(m, s);
    if k > 0 {
      var t := NextToken(m, s);
      assert Scan(m, s)[1..] == Scan(m, s[|Text(t)|..]);
      assert Scan(m, s)[k..] == Scan(m, s)[1..][k - 1..];
      ScanTail(m, s[|Text(t)|..], k - 1);
    } else {
      assert Scan(m, s)[0..] == Scan(m, s);
    }
  }

  /** The token at any place is a match exactly when the text from there on is
      recognized, and then it is the recognized text. */
  lemma TokenAt(m: Matcher, s: Bytes, k: nat)
    requires forall x: Bytes :: m(x) <= |x|
    requires k < |Scan(m, s)|
    ensures var rest := Source(Scan(m, s)[k..]);
            && rest != []
            && Scan(m, s)[k] == NextToken(m, rest)
  {
    ScanTail(m, s, k);
    var rest := Source(Scan(m, s)[k..]);
    assert Scan(m, s)[k..][0] == Scan(m, s)[k];
  }

  // ---- Chunks do not matter ------------------------------------------------

  /** What is decided early is what the whole input decides. */
  lemma {:induction false} DecidedEarly(m: Matcher, lookahead: nat, pending: Bytes, t: Bytes)
    requires Bounded(m, lookahead)
    ensures var r := Decided(m, lookahead, pending, false);
            Scan(m, pending + t) == r.0 + Scan(m, r.1 + t)
    decreases |pending|
  {
    hide Scan, Decided;
    if Decidable(lookahead, pending, false) {
      var token := NextToken(m, pending);
      var n := |Text(token)|;
      assert m(pending + t) == m(pending);
      DropJoin(pending, t, n);
      assert NextToken(m, pending + t) == token by { DropJoin(pending, t, m(pending)); }
      ScanStep(m, pending + t);
      DecidedStep(m, lookahead, pending, false);
      DecidedEarly(m, lookahead, pending[n..], t);
      var r := Decided(m, lookahead, pending[n..], false);
      JoinAssociates([token], r.0, Scan(m, r.1 + t));
    } else {
      DecidedNone(m, lookahead, pending, false);
      assert [] + Scan(m, pending + t) == Scan(m, pending + t);
    }
  }

  lemma ScanStep(m: Matcher, s: Bytes)
    requires (forall x: Bytes :: m(x) <= |x|) && s != []
    ensures var t := NextToken(m, s); Scan(m, s) == [t] + Scan(m, s[|Text(t)|..])
  {
  }

  lemma {:induction false} DecidedLast(m: Matcher, lookahead: nat, pending: Bytes)
    requires forall x: Bytes :: m(x) <= |x|
    ensures Decided(m, lookahead, pending, true) == (Scan(m, pending), [])
    decreases |pending|
  {
    if pending != [] {
      var token := NextToken(m, pending);
      DecidedLast(m, lookahead, pending[|Text(token)|..]);
    }
  }

  /** A stream fed chunk by chunk, the last chunk marked as the end. */
  ghost function Streamed(m: Matcher, lookahead: nat, pending: Bytes, chunks: seq<Bytes>): seq<Token>
    requires forall x: Bytes :: m(x) <= |x|
    requires chunks != []
    decreases |chunks|
  {
    if |chunks| == 1 then Decided(m, lookahead, pending + chunks[0], true).0
    else
      var r := Decided(m, lookahead, pending + chunks[0], false);
      r.0 + Streamed(m, lookahead, r.1, chunks[1..])
  }

  function Concat(chunks: seq<Bytes>): Bytes {
    if chunks == [] then [] else chunks[0] + Concat(chunks[1..])
  }

  /** However an input is cut into chunks, the stream decides it exactly as the
      one-shot scan does. */
  lemma {:induction false} StreamedIsScan(m: Matcher, lookahead: nat, pending: Bytes, chunks: seq<Bytes>)
    requires Bounded(m, lookahead) && chunks != []
    ensures Streamed(m, lookahead, pending, chunks) == Scan(m, pending + Concat(chunks))
    decreases |chunks|
  {
    hide Scan, Decided;
    if |chunks| == 1 {
      assert Concat(chunks[1..]) == [];
      assert pending + chunks[0] == pending + Concat(chunks);
      DecidedLast(m, lookahead, pending + chunks[0]);
    } else {
      var r := Decided(m, lookahead, pending + chunks[0], false);
      StreamedIsScan(m, lookahead, r.1, chunks[1..]);
      DecidedEarly(m, lookahead, pending + chunks[0], Concat(chunks[1..]));
      assert pending + (chunks[0] + Concat(chunks[1..])) == pending + chunks[0] + Concat(chunks[1..]);
    }
  }

  lemma DecidedNone(m: Matcher, lookahead: nat, pending: Bytes, end: bool)
    requires forall x: Bytes :: m(x) <= |x|
    requires !Decidable(lookahead, pending, end)
    ensures Decided(m, lookahead, pending, end) == ([], pending)
  {
  }

  /** A step of a buffered scan that is under way. */
  lemma DecidedStep(m: Matcher, lookahead: nat, pending: Bytes, end: bool)
    requires forall x: Bytes :: m(x) <= |x|
    requires Decidable(lookahead, pending, end)
    ensures var t := NextToken(m, pending);
            var r := Decided(m, lookahead, pending[|Text(t)|..], end);
            Decided(m, lookahead, pending, end) == ([t] + r.0, r.1)
  {
  }

  // ---- The loop of a buffered call -----------------------------------------

  lemma EmitNone()
    ensures Emit([]) == []
  {
  }

  lemma EmitMore(tokens: seq<Token>, t: Token)
    ensures Emit(tokens + [t]) == Emit(tokens) + (if t.Literal? then [t.value] else REDACTED)
  {
    EmitJoin(tokens, [t]);
    assert Emit([t]) == (if t.Literal? then [t.value] else REDACTED) + Emit([t][1..]);
  }

  /** One more token of `rest`, by the length that is matched there. */
  lemma EmitNext(m: Matcher, rest: Bytes, tokens: seq<Token>)
    requires rest != [] && m(rest) <= |rest|
    ensures var t := NextToken(m, rest);
            && |Text(t)| == (if m(rest) > 0 then m(rest) else 1)
            && Emit(tokens + [t]) == Emit(tokens) + (if m(rest) > 0 then REDACTED else [rest[0]])
  {
    hide Emit;
    EmitMore(tokens, NextToken(m, rest));
  }

  /** `tokens` is what the scan of `all` decides before `position`. */
  ghost predicate Progress(m: Matcher, lookahead: nat, all: Bytes, end: bool, tokens: seq<Token>, position: nat)
    requires forall x: Bytes :: m(x) <= |x|
  {
    && position <= |all|
    && var r := Decided(m, lookahead, all[position..], end);
       Decided(m, lookahead, all, end) == (tokens + r.0, r.1)
  }

  lemma ProgressStart(m: Matcher, lookahead: nat, all: Bytes, end: bool)
    requires forall x: Bytes :: m(x) <= |x|
    ensures Progress(m, lookahead, all, end, [], 0)
  {
    hide Decided;
    assert all[0..] == all;
    assert [] + Decided(m, lookahead, all, end).0 == Decided(m, lookahead, all, end).0;
  }

  lemma ProgressStep(m: Matcher, lookahead: nat, all: Bytes, end: bool, tokens: seq<Token>, position: nat)
    requires forall x: Bytes :: m(x) <= |x|
    requires Progress(m, lookahead, all, end, tokens, position) && Decidable(lookahead, all[position..], end)
    ensures var t := NextToken(m, all[position..]);
            Progress(m, lookahead, all, end, tokens + [t], position + |Text(t)|)
  {
    var rest := all[position..];
    DecidedStep(m, lookahead, rest, end);
    hide Decided;
    var t := NextToken(m, rest);
    var r := Decided(m, lookahead, rest[|Text(t)|..], end);
    assert rest[|Text(t)|..] == all[position + |Text(t)|..];
    JoinAssociates(tokens, [t], r.0);
  }

  lemma ProgressEnd(m: Matcher, lookahead: nat, all: Bytes, end: bool, tokens: seq<Token>, position: nat)
    requires forall x: Bytes :: m(x) <= |x|
    requires Progress(m, lookahead, all, end, tokens, position) && !Decidable(lookahead, all[position..], end)
    ensures Decided(m, lookahead, all, end) == (tokens, all[position..])
  {
    assert tokens + [] == tokens;
  }

  // ---- Runs of a stream ----------------------------------------------------

  const MAX_CHUNK: nat := 256 * 1024

  datatype Stream = Stream(pending: Bytes, done: bool)

  /** One call; `None` is a refusal. */
  datatype Feeding = Feeding(chunk: Bytes, end: bool, out: Option<Bytes>)

  ghost predicate Fed(m: Matcher, lookahead: nat, a: Stream, f: Feeding, b: Stream)
    requires forall x: Bytes :: m(x) <= |x|
  {
    if a.done || |f.chunk| > MAX_CHUNK then f.out.None? && b == a
    else
      var d := Decided(m, lookahead, a.pending + f.chunk, f.end);
      f.out == Some(Emit(d.0)) && b == Stream(d.1, f.end)
  }

  lemma FedRefused(m: Matcher, lookahead: nat, a: Stream, chunk: Bytes, end: bool)
    requires forall x: Bytes :: m(x) <= |x|
    requires a.done || |chunk| > MAX_CHUNK
    ensures Fed(m, lookahead, a, Feeding(chunk, end, None), a)
  {
  }

  /** A call is over once nothing more is decidable. */
  lemma FedUpTo(m: Matcher, lookahead: nat, a: Stream, chunk: Bytes, end: bool, tokens: seq<Token>, position: nat)
    requires forall x: Bytes :: m(x) <= |x|
    requires !a.done && |chunk| <= MAX_CHUNK
    requires Progress(m, lookahead, a.pending + chunk, end, tokens, position)
    requires position <= |a.pending + chunk| && !Decidable(lookahead, (a.pending + chunk)[position..], end)
    ensures Fed(m, lookahead, a, Feeding(chunk, end, Some(Emit(tokens))), Stream((a.pending + chunk)[position..], end))
  {
    hide Decided, Progress;
    ProgressEnd(m, lookahead, a.pending + chunk, end, tokens, position);
  }

  ghost predicate IsFeeding(m: Matcher, lookahead: nat, streams: seq<Stream>, feeds: seq<Feeding>)
    requires forall x: Bytes :: m(x) <= |x|
  {
    && |streams| == |feeds| + 1
    && streams[0] == Stream([], false)
    && forall k :: 0 <= k < |feeds| ==> Fed(m, lookahead, streams[k], feeds[k], streams[k + 1])
  }

  /** The bytes of the calls that were not refused, */
  function Inputs(feeds: seq<Feeding>): Bytes {
    if feeds == [] then []
    else Inputs(feeds[..|feeds| - 1]) + (if feeds[|feeds| - 1].out.Some? then feeds[|feeds| - 1].chunk else [])
  }

  /** and what those calls returned. */
  function Outputs(feeds: seq<Feeding>): Bytes {
    if feeds == [] then []
    else Outputs(feeds[..|feeds| - 1]) + (if feeds[|feeds| - 1].out.Some? then feeds[|feeds| - 1].out.value else [])
  }

  /** `tokens` is what every scan of `received`, however it continues, decides
      before `pending`. */
  ghost predicate DecidedSoFar(m: Matcher, received: Bytes, tokens: seq<Token>, pending: Bytes)
    requires forall x: Bytes :: m(x) <= |x|
  {
    forall t: Bytes :: Scan(m, received + t) == tokens + Scan(m, pending + t)
  }

  lemma NothingDecided(m: Matcher)
    requires forall x: Bytes :: m(x) <= |x|
    ensures DecidedSoFar(m, [], [], [])
  {
    forall t: Bytes ensures Scan(m, [] + t) == [] + Scan(m, [] + t) {
      assert [] + Scan(m, [] + t) == Scan(m, [] + t);
    }
  }

  /** One feed extends what is decided. */
  lemma DecidedMore(m: Matcher, lookahead: nat, received: Bytes, tokens: seq<Token>, pending: Bytes, chunk: Bytes, end: bool)
    requires Bounded(m, lookahead) && DecidedSoFar(m, received, tokens, pending)
    ensures var d := Decided(m, lookahead, pending + chunk, end);
            && (!end ==> DecidedSoFar(m, received + chunk, tokens + d.0, d.1))
            && (end ==> d.1 == [] && Scan(m, received + chunk) == tokens + d.0)
  {
    hide Scan, Decided;
    var d := Decided(m, lookahead, pending + chunk, end);
    if end {
      DecidedLast(m, lookahead, pending + chunk);
    } else {
      forall t: Bytes ensures Scan(m, received + chunk + t) == tokens + d.0 + Scan(m, d.1 + t) {
        JoinAssociates(received, chunk, t);
        JoinAssociates(pending, chunk, t);
        DecidedEarly(m, lookahead, pending + chunk, t);
        JoinAssociates(tokens, d.0, Scan(m, d.1 + t));
      }
    }
  }

  /** A stream that has returned the sanitized form of what it decided so far. */
  ghost predicate Returned(m: Matcher, input: Bytes, output: Bytes, tokens: seq<Token>, s: Stream)
    requires forall x: Bytes :: m(x) <= |x|
  {
    && output == Emit(tokens)
    && (s.done ==> Scan(m, input) == tokens)
    && (!s.done ==> DecidedSoFar(m, input, tokens, s.pending))
  }

  lemma {:induction false} RunReturns(m: Matcher, lookahead: nat, streams: seq<Stream>, feeds: seq<Feeding>, k: nat) returns (tokens: seq<Token>)
    requires Bounded(m, lookahead) && IsFeeding(m, lookahead, streams, feeds) && k <= |feeds|
    ensures Returned(m, Inputs(feeds[..k]), Outputs(feeds[..k]), tokens, streams[k])
    decreases k
  {
    hide Scan, Decided, Emit, DecidedSoFar;
    if k == 0 {
      NothingDecided(m);
      EmitNone();
      tokens := [];
    } else {
      tokens := RunReturns(m, lookahead, streams, feeds, k - 1);
      var a, f := streams[k - 1], feeds[k - 1];
      assert Fed(m, lookahead, a, f, streams[k]);
      assert feeds[..k][..k - 1] == feeds[..k - 1];
      var input, output := Inputs(feeds[..k - 1]), Outputs(feeds[..k - 1]);
      if f.out.Some? {
        var d := Decided(m, lookahead, a.pending + f.chunk, f.end);
        DecidedMore(m, lookahead, input, tokens, a.pending, f.chunk, f.end);
        EmitJoin(tokens, d.0);
        tokens := tokens + d.0;
      } else {
        assert input + [] == input && output + [] == output;
      }
    }
  }

  /** In every run of a stream, of whatever chunks and refusals, that has reached
      its end, the outputs are together the sanitized one-shot scan. */
  lemma OutputsAreOneScan(m: Matcher, lookahead: nat, streams: seq<Stream>, feeds: seq<Feeding>)
    requires Bounded(m, lookahead) && IsFeeding(m, lookahead, streams, feeds) && streams[|feeds|].done
    ensures Outputs(feeds) == Emit(Scan(m, Inputs(feeds)))
  {
    hide Scan, Emit;
    var tokens := RunReturns(m, lookahead, streams, feeds, |feeds|);
    assert feeds[..|feeds|] == feeds;
  }
}
