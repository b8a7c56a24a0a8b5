/** One flow's four ordered streams. The streams are numbered before recording
    and rolled back only when the caller's commit rejects the batch. */
module Flow {
  import opened Prelude
  import opened Events
  import opened Ledger
  import opened Recorder

  const STREAMS: nat := 4

  /** Sanitized event data for one stream of the flow. */
  datatype Emission = Emission(direction: Direction, view: View, category: ContentClass, fields: nat, encoded: Positive)

  function StreamOf(e: Emission): (k: nat)
    ensures k < STREAMS
  {
    match (e.direction, e.view)
    case (Outbound, Agent) => 0
    case (Outbound, Upstream) => 1
    case (Inbound, Agent) => 2
    case (Inbound, Upstream) => 3
  }

  function Count(emissions: seq<Emission>, k: nat): nat {
    if emissions == [] then 0
    else Count(emissions[..|emissions| - 1], k) + (if StreamOf(emissions[|emissions| - 1]) == k then 1 else 0)
  }

  function Advanced(sequences: seq<nat>, emissions: seq<Emission>): seq<nat> {
    seq(|sequences|, k requires 0 <= k < |sequences| => sequences[k] + Count(emissions, k))
  }

  function EventOf(origin: Origin, e: Emission, sequence: nat): Event {
    Event(origin.session, origin.flow, e.view, e.category, e.fields, e.encoded, StreamOf(e), sequence)
  }

  /** The batch, each event with the next number of its own stream. */
  function Stamped(origin: Origin, sequences: seq<nat>, emissions: seq<Emission>): (events: seq<Event>)
    requires |sequences| == STREAMS
    ensures |events| == |emissions|
  {
    if emissions == [] then []
    else
      var n := |emissions| - 1;
      var k := StreamOf(emissions[n]);
      Stamped(origin, sequences, emissions[..n])
      + [EventOf(origin, emissions[n], sequences[k] + Count(emissions[..n], k))]
  }

  predicate Exhausts(sequences: seq<nat>, emissions: seq<Emission>) {
    exists k :: 0 <= k < |sequences| && Count(emissions, k) > 0 && sequences[k] + Count(emissions, k) > U64_MAX
  }

  /** The emissions before `j` could be numbered, and the one at `j` could not. */
  predicate StopsAt(sequences: seq<nat>, emissions: seq<Emission>, j: int) {
    0 <= j < |emissions| && !Exhausts(sequences, emissions[..j]) && Exhausts(sequences, emissions[..j + 1])
  }

  /** What one call does to the flow's numbering, and the batch it offered to
      the recorder, if it came that far. */
  datatype Call = Call(emissions: seq<Emission>, offered: bool, rejected: bool)

  ghost predicate Numbering(a: seq<nat>, c: Call, b: seq<nat>) {
    && |a| == |b| == STREAMS
    && (c.offered && !c.rejected ==> b == Advanced(a, c.emissions))
    && (c.rejected ==> c.offered && b == a)
    && (!c.offered ==> exists j :: StopsAt(a, c.emissions, j) && b == Advanced(a, c.emissions[..j]))
  }

  ghost predicate FlowStep(origin: Origin, required: bool, sequences: seq<nat>, l: Ledger, emissions: seq<Emission>, clock: bool,
                           verdict: Result<()>, sequences': seq<nat>, l': Ledger, out: Outcome)
    requires Inv(l) && |sequences| == STREAMS
  {
    if |emissions| == 0 || |emissions| > MAX_BATCH then
      sequences' == sequences && l' == l && out == Outcome(Err(RequestInvalid), 0)
    else if Exhausts(sequences, emissions) then
      && l' == l && out == Outcome(Err(ObservationUnavailable), 0)
      && Numbering(sequences, Call(emissions, false, false), sequences')
    else
      && RecordStep(l, Stamped(origin, sequences, emissions), required, clock, verdict, l', out)
      && Numbering(sequences, Call(emissions, true, out.calls == 1 && verdict.Err?), sequences')
  }

  class Flow {
    const recorder: Recorder
    const origin: Origin
    const required: bool
    const sequences: array<nat>

    ghost predicate Valid()
      reads this, sequences, recorder, recorder.subscribers
    {
      sequences.Length == STREAMS && recorder.Valid()
    }

    constructor Start(recorder: Recorder, origin: Origin, required: bool)
      requires recorder.Valid()
      ensures Valid() && fresh(sequences) && sequences[..] == [0, 0, 0, 0]
      ensures this.recorder == recorder && this.origin == origin && this.required == required
    {
      this.recorder, this.origin, this.required := recorder, origin, required;
      sequences := new nat[STREAMS](_ => 0);
    }

    /** A flow for a well-formed session; `id` is its random identity. */
    static method New(recorder: Recorder, session: SessionId, id: FlowId, policyVersion: nat, required: bool) returns (r: Result<Flow>)
      requires recorder.Valid()
      ensures r.Ok? <==> WellFormed(session) && policyVersion != 0
      ensures r.Err? ==> r.error == RequestInvalid
      ensures r.Ok? ==> fresh(r.value) && r.value.Valid() && r.value.sequences[..] == [0, 0, 0, 0]
      ensures r.Ok? ==> r.value.recorder == recorder && r.value.origin == Origin(session, id) && r.value.required == required
    {
      if !WellFormed(session) || policyVersion == 0 { return Err(RequestInvalid); }
      var flow := new Flow.Start(recorder, Origin(session, id), required);
      return Ok(flow);
    }

    /** Number every emission in its stream. */
    method Stamp(emissions: seq<Emission>) returns (ok: bool, events: seq<Event>)
      requires sequences.Length == STREAMS
      modifies sequences
      ensures ok <==> !Exhausts(old(sequences[..]), emissions)
      ensures ok ==> events == Stamped(origin, old(sequences[..]), emissions) && sequences[..] == Advanced(old(sequences[..]), emissions)
      ensures !ok ==> exists j :: StopsAt(old(sequences[..]), emissions, j) && sequences[..] == Advanced(old(sequences[..]), emissions[..j])
    {
      hide Stamped, EventOf, StreamOf;
      ghost var before := sequences[..];
      ok, events := true, [];
      StampNone(origin, before);
      for j := 0 to |emissions|
        invariant sequences[..] == Advanced(before, emissions[..j])
        invariant events == Stamped(origin, before, emissions[..j])
        invariant forall k :: 0 <= k < STREAMS ==> Count(emissions[..j], k) > 0 ==> before[k] + Count(emissions[..j], k) <= U64_MAX
      {
        var slot := StreamOf(emissions[j]);
        var sequence := sequences[slot];
        StampNext(origin, before, emissions, j);
        if sequence + 1 > U64_MAX {
          CountMonotone(emissions, slot, j + 1);
          assert StopsAt(before, emissions, j);
          return false, [];
        }
        sequences[slot] := sequence + 1;
        events := events + [EventOf(origin, emissions[j], sequence)];
      }
      assert emissions[..|emissions|] == emissions;
    }

    /** Number and record a batch; a rejecting commit gives the numbers back. */
    method RecordBatchWith(emissions: seq<Emission>, clock: bool, verdict: Result<()>) returns (result: Result<()>, calls: nat)
      requires Valid()
      modifies sequences, recorder`next, recorder`owner, recorder`records, recorder`bytes, recorder`sessionBytes, recorder.subscribers
      ensures Valid()
      ensures FlowStep(origin, required, old(sequences[..]), old(recorder.Model()), emissions, clock, verdict,
                       sequences[..], recorder.Model(), Outcome(result, calls))
    {
      if |emissions| == 0 || |emissions| > MAX_BATCH { return Err(RequestInvalid), 0; }
      var previous := sequences[..];
      var numbered, events := Stamp(emissions);
      if !numbered { return Err(ObservationUnavailable), 0; }
      result, calls := recorder.RecordBatchWith(events, required, clock, verdict);
      if calls == 1 && verdict.Err? {
        Restore(previous);
      }
    }

    method Restore(previous: seq<nat>)
      requires sequences.Length == |previous|
      modifies sequences
      ensures sequences[..] == previous
    {
      for k := 0 to |previous|
        invariant sequences[..k] == previous[..k]
      {
        sequences[k] := previous[k];
      }
    }
  }

  lemma StampNone(origin: Origin, sequences: seq<nat>)
    requires |sequences| == STREAMS
    ensures Stamped(origin, sequences, []) == [] && Advanced(sequences, []) == sequences
  {
  }

  lemma StampNext(origin: Origin, before: seq<nat>, emissions: seq<Emission>, j: nat)
    requires |before| == STREAMS && j < |emissions|
    ensures var k := StreamOf(emissions[j]);
            var now := Advanced(before, emissions[..j]);
            && Count(emissions[..j + 1], k) == Count(emissions[..j], k) + 1
            && Advanced(before, emissions[..j + 1]) == now[k := now[k] + 1]
            && Stamped(origin, before, emissions[..j + 1])
               == Stamped(origin, before, emissions[..j]) + [EventOf(origin, emissions[j], now[k])]
    ensures forall k: nat :: k != StreamOf(emissions[j]) ==> Count(emissions[..j + 1], k) == Count(emissions[..j], k)
  {
    assert emissions[..j + 1][..j] == emissions[..j];
  }

  lemma {:induction false} CountMonotone(emissions: seq<Emission>, k: nat, j: nat)
    requires j <= |emissions|
    ensures Count(emissions[..j], k) <= Count(emissions, k)
    decreases |emissions|
  {
    var n := |emissions|;
    if j < n {
      assert emissions[..n - 1][..j] == emissions[..j];
      CountMonotone(emissions[..n - 1], k, j);
    } else {
      assert emissions[..j] == emissions;
    }
  }

  // ---- The flow over a whole run -------------------------------------------

  /** The events of every batch that was offered and not taken back, in order. */
  ghost function Kept(origin: Origin, numbers: seq<seq<nat>>, calls: seq<Call>): seq<Event>
    requires IsFlowRun(numbers, calls)
  {
    if calls == [] then []
    else
      var n := |calls| - 1;
      FlowRunPrefix(numbers, calls);
      NumbersGrow(numbers, calls, n);
      Kept(origin, numbers[..n + 1], calls[..n])
      + (if calls[n].offered && !calls[n].rejected then Stamped(origin, numbers[n], calls[n].emissions) else [])
  }

  ghost predicate IsFlowRun(numbers: seq<seq<nat>>, calls: seq<Call>) {
    && |numbers| == |calls| + 1
    && |numbers[0]| == STREAMS
    && forall k :: 0 <= k < |calls| ==> Numbering(numbers[k], calls[k], numbers[k + 1])
  }

  lemma FlowRunPrefix(numbers: seq<seq<nat>>, calls: seq<Call>)
    requires IsFlowRun(numbers, calls) && calls != []
    ensures IsFlowRun(numbers[..|calls|], calls[..|calls| - 1])
  {
    var n := |calls| - 1;
    forall k | 0 <= k < n ensures Numbering(numbers[..n + 1][k], calls[..n][k], numbers[..n + 1][k + 1]) {
      assert Numbering(numbers[k], calls[k], numbers[k + 1]);
    }
  }

  /** Every number lies in its stream's interval, and rises along the stream. */
  ghost predicate Rising(e: seq<Event>, lo: seq<nat>, hi: seq<nat>)
    requires |lo| == |hi| == STREAMS
  {
    && (forall i :: 0 <= i < |e| ==> InStream(e[i], lo, hi))
    && (forall i, j :: 0 <= i < j < |e| && e[i].stream == e[j].stream ==> e[i].sequence < e[j].sequence)
  }

  ghost predicate InStream(e: Event, lo: seq<nat>, hi: seq<nat>)
    requires |lo| == |hi| == STREAMS
  {
    e.stream < STREAMS && lo[e.stream] <= e.sequence < hi[e.stream]
  }

  lemma RisingJoin(a: seq<Event>, b: seq<Event>, lo: seq<nat>, mid: seq<nat>, hi: seq<nat>)
    requires |lo| == |mid| == |hi| == STREAMS
    requires forall k :: 0 <= k < STREAMS ==> lo[k] <= mid[k] <= hi[k]
    requires Rising(a, lo, mid) && Rising(b, mid, hi)
    ensures Rising(a + b, lo, hi)
  {
    forall i | 0 <= i < |a + b| ensures InStream((a + b)[i], lo, hi) {
      if i < |a| { assert InStream(a[i], lo, mid); } else { assert InStream(b[i - |a|], mid, hi); }
    }
    forall i, j | 0 <= i < j < |a + b| && (a + b)[i].stream == (a + b)[j].stream
      ensures (a + b)[i].sequence < (a + b)[j].sequence
    {
      if i < |a| <= j { assert InStream(a[i], lo, mid) && InStream(b[j - |a|], mid, hi); }
    }
  }

  /** Within one batch, a stream's numbers rise from its counter. */
  lemma {:induction false} StampedRises(origin: Origin, sequences: seq<nat>, emissions: seq<Emission>)
    requires |sequences| == STREAMS
    ensures Rising(Stamped(origin, sequences, emissions), sequences, Advanced(sequences, emissions))
    decreases |emissions|
  {
    if emissions != [] {
      var n := |emissions| - 1;
      StampedRises(origin, sequences, emissions[..n]);
      StampNext(origin, sequences, emissions, n);
      assert emissions[..n + 1] == emissions;
      var now := Advanced(sequences, emissions[..n]);
      var last := EventOf(origin, emissions[n], now[StreamOf(emissions[n])]);
      assert InStream(last, now, Advanced(sequences, emissions));
      RisingJoin(Stamped(origin, sequences, emissions[..n]), [last], sequences, now, Advanced(sequences, emissions));
    }
  }

  lemma {:induction false} NumbersGrow(numbers: seq<seq<nat>>, calls: seq<Call>, n: nat)
    requires IsFlowRun(numbers, calls) && n < |numbers|
    ensures |numbers[n]| == STREAMS && forall k :: 0 <= k < STREAMS ==> numbers[0][k] <= numbers[n][k]
  {
    if n > 0 {
      NumbersGrow(numbers, calls, n - 1);
      assert Numbering(numbers[n - 1], calls[n - 1], numbers[n]);
    }
  }

  /** Over every run of a flow, the numbers of the events that stand rise
      strictly in each stream, and so are never reused. */
  lemma {:induction false} StreamsRise(origin: Origin, numbers: seq<seq<nat>>, calls: seq<Call>)
    requires IsFlowRun(numbers, calls)
    ensures |numbers[|calls|]| == STREAMS
    ensures Rising(Kept(origin, numbers, calls), numbers[0], numbers[|calls|])
    decreases |calls|
  {
    hide Stamped, Advanced;
    if calls != [] {
      var n := |calls| - 1;
      FlowRunPrefix(numbers, calls);
      StreamsRise(origin, numbers[..n + 1], calls[..n]);
      NumbersGrow(numbers, calls, n);
      assert Numbering(numbers[n], calls[n], numbers[n + 1]);
      StampedRises(origin, numbers[n], calls[n].emissions);
      var front := Kept(origin, numbers[..n + 1], calls[..n]);
      var stands := calls[n].offered && !calls[n].rejected;
      var last := if stands then Stamped(origin, numbers[n], calls[n].emissions) else [];
      assert Rising(last, numbers[n], numbers[n + 1]);
      AdvancedGrows(numbers[n], calls[n], numbers[n + 1]);
      RisingJoin(front, last, numbers[0], numbers[n], numbers[n + 1]);
    }
  }

  lemma AdvancedGrows(a: seq<nat>, c: Call, b: seq<nat>)
    requires Numbering(a, c, b)
    ensures forall k :: 0 <= k < STREAMS ==> a[k] <= b[k]
  {
  }
}
