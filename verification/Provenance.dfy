/** Where every stored record and every told event comes from: one emission of one
    flow, kept as it was emitted. */
module Provenance {
  import opened Prelude
  import opened Events
  import opened Ledger
  import opened LedgerInvariant
  import opened Flow
  import opened FlowRuns
  import U = Runs
  import V = Evolution
  import C = Consumers
  import G = Grants
  import S = RecorderState

  /** The emissions before the `n`th that share its direction and its view. */
  function Before(emissions: seq<Emission>, n: nat): set<nat>
    requires n < |emissions|
  {
    set m | 0 <= m < n && emissions[m].direction == emissions[n].direction && emissions[m].view == emissions[n].view
  }

  /** `e` is the `n`th emission, sent by the flow `origin` with its streams at
      `sequences`: whole, and numbered behind those before it in its stream. */
  ghost predicate IsEmission(e: Event, origin: Origin, sequences: seq<nat>, emissions: seq<Emission>, n: nat)
    requires n < |emissions| && |sequences| == 4
  {
    var m := emissions[n];
    var stream := (if m.direction == Inbound then 2 else 0) + (if m.view == View.Upstream then 1 else 0);
    && e.session == origin.session && e.flow == origin.flow
    && e.view == m.view && e.category == m.category && e.fields == m.fields && e.encoded == m.encoded
    && e.stream == stream
    && e.sequence == sequences[stream] + |Before(emissions, n)|
  }

  lemma StreamOfView(m: Emission)
    ensures StreamOf(m) == (if m.direction == Inbound then 2 else 0) + (if m.view == View.Upstream then 1 else 0)
  {
  }

  lemma CountIsBefore(emissions: seq<Emission>, n: nat)
    requires n < |emissions|
    ensures Count(emissions[..n], StreamOf(emissions[n])) == |Before(emissions, n)|
  {
    hide StreamOf, StreamIndex, Count;
    var e := emissions[n];
    SameIndex(e, e.direction, e.view);
    CountIsOfView(emissions[..n], e.direction, e.view);
    assert OfView(emissions[..n], e.direction, e.view) == Before(emissions, n);
  }

  /** Each event of a numbered batch is its emission. */
  lemma {:induction false} StampedIs(origin: Origin, sequences: seq<nat>, emissions: seq<Emission>, n: nat)
    requires |sequences| == STREAMS && n < |emissions|
    ensures IsEmission(Stamped(origin, sequences, emissions)[n], origin, sequences, emissions, n)
    decreases |emissions|
  {
    var last := |emissions| - 1;
    if n < last {
      StampedIs(origin, sequences, emissions[..last], n);
      assert Before(emissions[..last], n) == Before(emissions, n);
    } else {
      StreamOfView(emissions[n]);
      CountIsBefore(emissions, n);
    }
  }

  /** Every record that is ever stored is one emission of one flow, in a batch that
      was committed. */
  lemma {:induction false} StoredIsEmission(r: Run, k: nat, id: nat) returns (j: nat, n: nat)
    requires IsRun(r) && k < |r.states| && id in r.states[k].ledger.store
    ensures |r.states| == |r.steps| + 1 && j < k && r.steps[j].Emit? && n < |r.steps[j].emissions|
    ensures r.steps[j].out.calls == 1 && r.steps[j].verdict.Ok? && id == r.states[j].ledger.next + n
    ensures r.steps[j].flow in r.states[j].flows && |r.states[j].flows[r.steps[j].flow].sequences| == 4
    ensures r.states[j].flows[r.steps[j].flow].origin.flow == r.steps[j].flow
    ensures var f := r.states[j].flows[r.steps[j].flow];
            IsEmission(r.states[k].ledger.store[id].event, f.origin, f.sequences, r.steps[j].emissions, n)
    decreases k
  {
    hide IsRun, Inv, Taken, CountersRise, NewAbove, StoreRises, Counted, IsEmission;
    Length(r);
    if k == 0 {
      EmptyStart(r);
    } else {
      RunStep(r, k - 1);
      if id < r.states[k - 1].ledger.next {
        j, n := StoredIsEmission(r, k - 1, id);
      } else {
        j := k - 1;
        n := NewIsEmission(r.epoch, r.states[k - 1], r.steps[k - 1], r.states[k], id);
      }
    }
  }

  lemma EmptyStart(r: Run)
    requires IsRun(r)
    ensures r.states[0].ledger.store == map[] && r.states[0].flows == map[]
  {
  }

  lemma NewIsEmission(epoch: C.Epoch, s: State, e: Step, s': State, id: nat) returns (n: nat)
    requires StateInv(s) && Taken(epoch, s, e, s') && id in s'.ledger.store && id >= s.ledger.next
    ensures e.Emit? && n < |e.emissions| && id == s.ledger.next + n && e.out.calls == 1 && e.verdict.Ok?
    ensures e.flow in s.flows && |s.flows[e.flow].sequences| == 4 && s.flows[e.flow].origin.flow == e.flow
    ensures IsEmission(s'.ledger.store[id].event, s.flows[e.flow].origin, s.flows[e.flow].sequences, e.emissions, n)
  {
    hide Inv, V.Taken, Stamped, StoreRises, Counted, FlowStep, IsEmission;
    StoredBelow(s.ledger);
    if e.Consume? {
      ConsumeStores(epoch, s.ledger, e.consumed, s'.ledger);
    } else if e.Emit? {
      EmitStores(s, e, s');
      n := id - s.ledger.next;
      StampedIs(s.flows[e.flow].origin, s.flows[e.flow].sequences, e.emissions, n);
    }
  }

  /** No stream's numbers ever leave 64 bits. */
  lemma {:induction false} NumbersFit(r: Run, k: nat, flow: FlowId, s: nat)
    requires IsRun(r) && k < |r.states| && flow in r.states[k].flows && s < 4
    ensures |r.states[k].flows[flow].sequences| == 4 && r.states[k].flows[flow].sequences[s] <= 0xFFFF_FFFF_FFFF_FFFF
    decreases k
  {
    hide IsRun, Inv, StoreRises, Counted, NewAbove, V.Taken;
    Length(r);
    if k == 0 {
      EmptyStart(r);
    } else {
      RunStep(r, k - 1);
      if flow in r.states[k - 1].flows {
        NumbersFit(r, k - 1, flow, s);
        StepFits(r.epoch, r.states[k - 1], r.steps[k - 1], r.states[k], flow, s);
      }
    }
  }

  lemma StepFits(epoch: C.Epoch, s: State, e: Step, s': State, flow: FlowId, stream: nat)
    requires StateInv(s) && Taken(epoch, s, e, s') && flow in s.flows && flow in s'.flows && stream < 4
    requires |s.flows[flow].sequences| == 4 && |s'.flows[flow].sequences| == 4
    requires s.flows[flow].sequences[stream] <= 0xFFFF_FFFF_FFFF_FFFF
    ensures s'.flows[flow].sequences[stream] <= 0xFFFF_FFFF_FFFF_FFFF
  {
    hide Inv, StoreRises, Counted, V.Taken, Stamped, RecordStep;
  }

  /** A flow was opened once, for one session. */
  lemma {:induction false} FlowOpened(r: Run, k: nat, flow: FlowId) returns (j: nat)
    requires IsRun(r) && k < |r.states| && flow in r.states[k].flows
    ensures |r.states| == |r.steps| + 1 && j < k && r.steps[j].Open?
    ensures r.steps[j].origin == r.states[k].flows[flow].origin && r.steps[j].required == r.states[k].flows[flow].required
    ensures r.steps[j].origin.flow == flow && flow !in r.states[j].flows
    decreases k
  {
    hide IsRun, Inv, StoreRises, Counted, NewAbove, FlowStep, V.Taken;
    Length(r);
    if k == 0 {
      EmptyStart(r);
    } else {
      RunStep(r, k - 1);
      if flow in r.states[k - 1].flows {
        j := FlowOpened(r, k - 1, flow);
      } else {
        j := k - 1;
      }
    }
  }

  /** Whatever a subscription is told was emitted, as it is told, by a flow opened
      for one of the sessions it was granted, in a granted view and class. */
  lemma ToldWasEmitted(r: Run, k: nat, t: C.Told) returns (enrolled: nat, begun: nat, sent: nat, n: nat)
    requires IsRun(r) && k < |r.steps| && r.steps[k].Consume?
    requires r.steps[k].consumed.Read? && r.steps[k].consumed.batch.Ok? && t in r.steps[k].consumed.batch.value.told
    ensures |r.states| == |r.steps| + 1 && enrolled < k && begun < sent < k
    ensures r.steps[enrolled].Consume? && r.steps[enrolled].consumed.Enroll? && r.steps[enrolled].consumed.enrollment == Ok(())
    ensures r.steps[enrolled].consumed.enrolled == r.steps[k].consumed.reader
    ensures r.steps[begun].Open? && r.steps[begun].origin.session in r.steps[enrolled].consumed.scope.sessions
    ensures r.steps[sent].Emit? && r.steps[sent].flow == r.steps[begun].origin.flow && n < |r.steps[sent].emissions|
    ensures r.steps[sent].flow in r.states[sent].flows && |r.states[sent].flows[r.steps[sent].flow].sequences| == 4
    ensures r.steps[sent].emissions[n].view in r.steps[enrolled].consumed.scope.views
    ensures r.steps[sent].emissions[n].category in r.steps[enrolled].consumed.scope.classes
    ensures IsEmission(t.event, r.steps[begun].origin, r.states[sent].flows[r.steps[sent].flow].sequences, r.steps[sent].emissions, n)
  {
    hide IsRun, Inv, Taken, StateInv, Before, CountersRise, NewAbove, U.IsRun, V.Taken;
    Length(r);
    RecorderRuns(r);
    var u := RecorderRun(r);
    enrolled := G.TellsOnlyGranted(u, k, t);
    StoredTold(r, k, t);
    sent, n := StoredIsEmission(r, k, t.source);
    begun := FlowOpened(r, sent, r.steps[sent].flow);
  }

  lemma StoredTold(r: Run, k: nat, t: C.Told)
    requires IsRun(r) && k < |r.steps| && r.steps[k].Consume?
    requires r.steps[k].consumed.Read? && r.steps[k].consumed.batch.Ok? && t in r.steps[k].consumed.batch.value.told
    ensures t.source in r.states[k].ledger.store && r.states[k].ledger.store[t.source].event == t.event
  {
    hide IsRun, Inv, StoreRises, Counted, CountersRise, NewAbove, V.Taken;
    RunStep(r, k);
    G.TellsStored(r.epoch, r.states[k].ledger, r.steps[k].consumed, r.states[k + 1].ledger, t);
  }

  // ---- Which numbers are used up -------------------------------------------

  /** The emissions of one direction and view. */
  function OfView(emissions: seq<Emission>, d: Direction, v: View): set<nat> {
    set m | 0 <= m < |emissions| && emissions[m].direction == d && emissions[m].view == v
  }

  function StreamIndex(d: Direction, v: View): nat {
    (if d == Inbound then 2 else 0) + (if v == View.Upstream then 1 else 0)
  }

  lemma {:induction false} CountIsOfView(emissions: seq<Emission>, d: Direction, v: View)
    ensures Count(emissions, StreamIndex(d, v)) == |OfView(emissions, d, v)|
    decreases |emissions|
  {
    if emissions == [] {
      assert OfView([], d, v) == {};
    } else {
      var n := |emissions| - 1;
      CountIsOfView(emissions[..n], d, v);
      StreamOfView(emissions[n]);
      OfViewNext(emissions, d, v);
      hide OfView, StreamOf;
      SameIndex(emissions[n], d, v);
    }
  }

  lemma SameIndex(m: Emission, d: Direction, v: View)
    ensures StreamOf(m) == StreamIndex(d, v) <==> m.direction == d && m.view == v
  {
  }

  lemma OfViewNext(emissions: seq<Emission>, d: Direction, v: View)
    requires emissions != []
    ensures var n := |emissions| - 1;
            |OfView(emissions, d, v)|
            == |OfView(emissions[..n], d, v)| + (if emissions[n].direction == d && emissions[n].view == v then 1 else 0)
  {
    var n := |emissions| - 1;
    var all, front, last := OfView(emissions, d, v), OfView(emissions[..n], d, v), emissions[n];
    forall m ensures m in front <==> m in all && m != n { OfViewPrefix(emissions, d, v, m); }
    assert n in all <==> last.direction == d && last.view == v;
    hide OfView;
    assert all == if n in all then front + {n} else front;
  }

  lemma OfViewPrefix(emissions: seq<Emission>, d: Direction, v: View, m: nat)
    requires emissions != []
    ensures m in OfView(emissions[..|emissions| - 1], d, v) <==> m in OfView(emissions, d, v) && m != |emissions| - 1
  {
    var front := emissions[..|emissions| - 1];
    if m < |front| { assert front[m] == emissions[m]; }
  }

  /** A batch whose commit rejects it leaves everything as it was, sequence numbers,
      identities and records; one that is numbered and not rejected uses up a number
      for each emission in its stream, whether it is stored, lost or refused. */
  lemma NumbersUsed(epoch: C.Epoch, s: State, e: Step, s': State, d: Direction, v: View)
    requires StateInv(s) && e.Emit? && Taken(epoch, s, e, s')
    ensures e.out.calls == 1 && e.verdict.Err? ==> s' == s
    ensures 1 <= |e.emissions| <= 16 && !Exhausts(s.flows[e.flow].sequences, e.emissions) && !(e.out.calls == 1 && e.verdict.Err?) ==>
              s'.flows[e.flow].sequences == Advanced(s.flows[e.flow].sequences, e.emissions)
              && s'.flows[e.flow].sequences[StreamIndex(d, v)]
                 == s.flows[e.flow].sequences[StreamIndex(d, v)] + |OfView(e.emissions, d, v)|
    ensures forall f :: f in s.flows && f != e.flow ==> f in s'.flows && s'.flows[f] == s.flows[f]
    ensures !(1 <= |e.emissions| <= 16) ==> s' == s && e.out == Outcome(Err(RequestInvalid), 0)
    ensures 1 <= |e.emissions| <= 16 && Exhausts(s.flows[e.flow].sequences, e.emissions) ==>
              s'.ledger == s.ledger && e.out == Outcome(Err(ObservationUnavailable), 0)
  {
    hide Inv, Stamped, Overflows, Decide, Exhausts, StoreRises, Counted, OfView;
    CountIsOfView(e.emissions, d, v);
  }
}
