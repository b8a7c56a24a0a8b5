/** Many flows over one recorder. Whatever the interleaving of flows and of
    consumers, the numbers of the records that were ever stored rise strictly
    along every stream of every flow. */
module FlowRuns {
  import opened Prelude
  import opened Events
  import opened Ledger
  import opened LedgerInvariant
  import opened Flow
  import U = Runs
  import V = Evolution
  import C = Consumers

  datatype Source = Source(origin: Origin, required: bool, sequences: seq<nat>)

  datatype State = State(ledger: Ledger, flows: map<FlowId, Source>)

  datatype Step =
    | Open(origin: Origin, required: bool)
    | Emit(flow: FlowId, emissions: seq<Emission>, clock: bool, verdict: Result<()>, out: Outcome)
    | Consume(consumed: V.Step)

  const NONE_YET: seq<nat> := [0, 0, 0, 0]

  ghost predicate Emits(s: State, flow: FlowId, emissions: seq<Emission>, clock: bool, verdict: Result<()>, out: Outcome, s': State)
    requires Inv(s.ledger)
  {
    && flow in s.flows && flow in s'.flows && |s.flows[flow].sequences| == STREAMS
    && var f := s.flows[flow];
       && s'.flows == s.flows[flow := f.(sequences := s'.flows[flow].sequences)]
       && FlowStep(f.origin, f.required, f.sequences, s.ledger, emissions, clock, verdict, s'.flows[flow].sequences, s'.ledger, out)
  }

  /** Flow ids are random, and so never opened twice. */
  ghost predicate Taken(epoch: C.Epoch, s: State, e: Step, s': State)
    requires Inv(s.ledger)
  {
    match e
    case Open(origin, required) =>
      origin.flow !in s.flows && s' == s.(flows := s.flows[origin.flow := Source(origin, required, NONE_YET)])
    case Emit(flow, emissions, clock, verdict, out) => Emits(s, flow, emissions, clock, verdict, out, s')
    case Consume(step) => !step.Record? && V.Taken(epoch, s.ledger, step, s'.ledger) && s'.flows == s.flows
  }

  // ---- What is stored ------------------------------------------------------

  ghost predicate FlowsFit(flows: map<FlowId, Source>) {
    forall f :: f in flows ==> flows[f].origin.flow == f && |flows[f].sequences| == STREAMS
  }

  /** A record numbered by a known flow, below that flow's counter. */
  ghost predicate Counted(flows: map<FlowId, Source>, e: Event)
    requires FlowsFit(flows)
  {
    e.flow in flows && e.stream < STREAMS && e.sequence < flows[e.flow].sequences[e.stream]
  }

  ghost predicate SameStream(a: Event, b: Event) {
    a.flow == b.flow && a.stream == b.stream
  }

  ghost predicate StoreRises(store: map<nat, Entry>) {
    forall a, b :: a in store && b in store && a < b && SameStream(store[a].event, store[b].event) ==>
      store[a].event.sequence < store[b].event.sequence
  }

  ghost predicate StateInv(s: State) {
    && Inv(s.ledger) && FlowsFit(s.flows)
    && (forall id :: id in s.ledger.store ==> Counted(s.flows, s.ledger.store[id].event))
    && StoreRises(s.ledger.store)
  }

  /** What one step stores: the numbered events of an accepted batch, or nothing. */
  ghost predicate Stores(l: Ledger, l': Ledger, events: seq<Event>) {
    && l.next <= l'.next
    && (forall id :: id in l'.store && id < l.next ==> id in l.store && l'.store[id] == l.store[id])
    && (forall id :: id in l'.store && l.next <= id ==> id < l.next + |events| && l'.store[id].event == events[id - l.next])
  }

  lemma RecordStores(l: Ledger, events: seq<Event>, required: bool, clock: bool, verdict: Result<()>, l': Ledger, out: Outcome)
    requires Inv(l) && RecordStep(l, events, required, clock, verdict, l', out)
    ensures Stores(l, l', if out.calls == 1 && verdict.Ok? then events else [])
  {
    hide Inv, Decide, Overflows, Shaped;
    StoredBelow(l);
    if out.calls == 1 && verdict.Ok? && Decide(l, events, required).Fits? {
      V.DecideShrinks(l, events, required);
      PublishStores(l, Decide(l, events, required).base, events, required);
    }
  }

  lemma StoredBelow(l: Ledger)
    requires Inv(l)
    ensures forall id :: id in l.store ==> id < l.next
  {
  }

  lemma PublishStores(l: Ledger, base: Ledger, events: seq<Event>, required: bool)
    requires V.Shrinks(l, base) && forall id :: id in l.store ==> id < l.next
    ensures Stores(l, Publish(l, base, events, required), events)
  {
    hide V.QueueShrinks, Extended, Accepting;
  }

  lemma ConsumeStores(epoch: C.Epoch, l: Ledger, s: V.Step, l': Ledger)
    requires Inv(l) && V.Taken(epoch, l, s, l') && !s.Record?
    ensures Inv(l') && Stores(l, l', [])
  {
    hide Inv, V.Taken, V.OwnerRetains, V.SlotEvolves, V.SlotRetains;
    V.StepEvolves(epoch, l, s, l');
    SameNext(epoch, l, s, l');
    StoredBelow(l');
  }

  lemma SameNext(epoch: C.Epoch, l: Ledger, s: V.Step, l': Ledger)
    requires Inv(l) && V.Taken(epoch, l, s, l') && !s.Record?
    ensures l'.next == l.next
  {
    hide Inv;
  }

  /** A batch offered to the recorder, with the numbers that were its flow's. */
  ghost function Offered(s: State, e: Step): seq<Event>
    requires e.Emit? ==> e.flow in s.flows && |s.flows[e.flow].sequences| == STREAMS
  {
    if e.Emit? && e.out.calls == 1 && e.verdict.Ok? then Stamped(s.flows[e.flow].origin, s.flows[e.flow].sequences, e.emissions)
    else []
  }

  lemma EmitStores(s: State, e: Step, s': State)
    requires StateInv(s) && e.Emit? && Emits(s, e.flow, e.emissions, e.clock, e.verdict, e.out, s')
    ensures Inv(s'.ledger) && Stores(s.ledger, s'.ledger, Offered(s, e))
    ensures var a, b := s.flows[e.flow].sequences, s'.flows[e.flow].sequences;
            && |a| == |b| == STREAMS && (forall k :: 0 <= k < STREAMS ==> a[k] <= b[k])
            && (Offered(s, e) != [] ==> b == Advanced(a, e.emissions))
  {
    hide Inv, Stamped, Advanced, RecordStep, Stores;
    var f := s.flows[e.flow];
    NothingStored(s.ledger);
    if 0 < |e.emissions| <= MAX_BATCH && !Exhausts(f.sequences, e.emissions) {
      var events := Stamped(f.origin, f.sequences, e.emissions);
      RecordStores(s.ledger, events, f.required, e.clock, e.verdict, s'.ledger, e.out);
      RecordKeeps(s.ledger, events, f.required, e.clock, e.verdict, s'.ledger, e.out);
      AdvancedGrows(f.sequences, Call(e.emissions, true, e.out.calls == 1 && e.verdict.Err?), s'.flows[e.flow].sequences);
    } else if 0 < |e.emissions| <= MAX_BATCH {
      AdvancedGrows(f.sequences, Call(e.emissions, false, false), s'.flows[e.flow].sequences);
    }
  }

  lemma NothingStored(l: Ledger)
    requires Inv(l)
    ensures Stores(l, l, [])
  {
    hide Inv;
    StoredBelow(l);
  }

  lemma RecordKeeps(l: Ledger, events: seq<Event>, required: bool, clock: bool, verdict: Result<()>, l': Ledger, out: Outcome)
    requires Inv(l) && RecordStep(l, events, required, clock, verdict, l', out)
    ensures Inv(l')
  {
    hide Inv, RecordStep, V.StoreEvolves, V.OwnerRetains, V.SlotEvolves, V.SlotRetains;
    V.RecordEvolves(l, V.Record(events, required, clock, verdict, out), l');
  }

  // ---- Every step keeps it -------------------------------------------------

  /** The counters of a flow only rise, whoever moves. */
  ghost predicate CountersRise(a: map<FlowId, Source>, b: map<FlowId, Source>)
    requires FlowsFit(a) && FlowsFit(b)
  {
    forall f :: f in a ==>
      && f in b && b[f].origin == a[f].origin && b[f].required == a[f].required
      && forall k :: 0 <= k < STREAMS ==> a[f].sequences[k] <= b[f].sequences[k]
  }

  /** What a step stores anew is numbered from its flow's counters on. */
  ghost predicate NewAbove(s: State, s': State)
    requires FlowsFit(s.flows)
  {
    forall id :: id in s'.ledger.store && s.ledger.next <= id ==>
      var e := s'.ledger.store[id].event;
      e.flow in s.flows && e.stream < STREAMS && s.flows[e.flow].sequences[e.stream] <= e.sequence
  }

  lemma StepInv(epoch: C.Epoch, s: State, e: Step, s': State)
    requires StateInv(s) && Taken(epoch, s, e, s')
    ensures StateInv(s') && CountersRise(s.flows, s'.flows) && NewAbove(s, s')
    ensures s.ledger.next <= s'.ledger.next
    ensures forall id :: id in s'.ledger.store && id < s.ledger.next ==> id in s.ledger.store && s'.ledger.store[id] == s.ledger.store[id]
  {
    hide Inv, V.Taken, Stamped, Advanced;
    if e.Emit? {
      hide FlowStep;
      EmitStores(s, e, s');
      EmitRises(s, e, s');
    } else if e.Consume? {
      ConsumeStores(epoch, s.ledger, e.consumed, s'.ledger);
    } else {
      StoredBelow(s.ledger);
    }
  }

  lemma EmitRises(s: State, e: Step, s': State)
    requires StateInv(s) && e.Emit? && e.flow in s.flows && e.flow in s'.flows
    requires s'.flows == s.flows[e.flow := s.flows[e.flow].(sequences := s'.flows[e.flow].sequences)]
    requires Stores(s.ledger, s'.ledger, Offered(s, e))
    requires var a, b := s.flows[e.flow].sequences, s'.flows[e.flow].sequences;
             && |a| == |b| == STREAMS && (forall k :: 0 <= k < STREAMS ==> a[k] <= b[k])
             && (Offered(s, e) != [] ==> b == Advanced(a, e.emissions))
    ensures FlowsFit(s'.flows) && CountersRise(s.flows, s'.flows) && NewAbove(s, s') && StoreRises(s'.ledger.store)
    ensures forall id :: id in s'.ledger.store ==> Counted(s'.flows, s'.ledger.store[id].event)
  {
    hide Inv, Stamped, Advanced;
    var f := s.flows[e.flow];
    var events := Offered(s, e);
    var a, b := f.sequences, s'.flows[e.flow].sequences;
    if events != [] {
      StampedRises(f.origin, a, e.emissions);
      StampedFlow(f.origin, a, e.emissions);
    }
    var p, q := s.ledger.store, s'.ledger.store;
    forall id | id in q && s.ledger.next <= id
      ensures q[id].event.flow == e.flow && InStream(q[id].event, a, b) && id - s.ledger.next < |events|
    {
      assert q[id].event == events[id - s.ledger.next];
    }
    forall id | id in q ensures Counted(s'.flows, q[id].event) {
      if id < s.ledger.next { assert Counted(s.flows, p[id].event); }
    }
    JoinedRises(s, s', events, e.flow, a, b);
  }

  lemma JoinedRises(s: State, s': State, events: seq<Event>, flow: FlowId, a: seq<nat>, b: seq<nat>)
    requires FlowsFit(s.flows) && StoreRises(s.ledger.store) && Stores(s.ledger, s'.ledger, events)
    requires forall id :: id in s.ledger.store ==> Counted(s.flows, s.ledger.store[id].event)
    requires flow in s.flows && a == s.flows[flow].sequences && |b| == STREAMS
    requires forall i :: 0 <= i < |events| ==> events[i].flow == flow
    requires events != [] ==> Rising(events, a, b)
    ensures StoreRises(s'.ledger.store)
  {
    var p, q := s.ledger.store, s'.ledger.store;
    forall x, y | x in q && y in q && x < y && SameStream(q[x].event, q[y].event)
      ensures q[x].event.sequence < q[y].event.sequence
    {
      if y < s.ledger.next {
        assert p[x] == q[x] && p[y] == q[y];
      } else if x < s.ledger.next {
        assert Counted(s.flows, p[x].event);
        assert q[y].event == events[y - s.ledger.next] && InStream(events[y - s.ledger.next], a, b);
      } else {
        assert q[x].event == events[x - s.ledger.next] && q[y].event == events[y - s.ledger.next];
      }
    }
  }

  lemma {:induction false} StampedFlow(origin: Origin, sequences: seq<nat>, emissions: seq<Emission>)
    requires |sequences| == STREAMS
    ensures forall i :: 0 <= i < |Stamped(origin, sequences, emissions)| ==> Stamped(origin, sequences, emissions)[i].flow == origin.flow
    decreases |emissions|
  {
    if emissions != [] { StampedFlow(origin, sequences, emissions[..|emissions| - 1]); }
  }

  // ---- Whole runs ----------------------------------------------------------

  datatype Run = Run(epoch: C.Epoch, states: seq<State>, steps: seq<Step>)

  ghost predicate StepAt(r: Run, k: nat)
    requires k < |r.steps| && |r.states| == |r.steps| + 1
  {
    Inv(r.states[k].ledger) ==> Taken(r.epoch, r.states[k], r.steps[k], r.states[k + 1])
  }

  ghost predicate IsRun(r: Run) {
    && |r.states| == |r.steps| + 1
    && (exists maxEvents: nat, maxBytes: nat :: r.states[0] == State(Initial(maxEvents, maxBytes), map[]))
    && forall k :: 0 <= k < |r.steps| ==> StepAt(r, k)
  }

  lemma StartsEmpty(maxEvents: nat, maxBytes: nat)
    ensures StateInv(State(Initial(maxEvents, maxBytes), map[]))
  {
    hide Inv;
    InitialInv(maxEvents, maxBytes);
  }

  /** In every state of every run, the stored records' numbers rise along every
      stream of every flow. */
  lemma {:induction false} RunInv(r: Run, k: nat)
    requires IsRun(r) && k < |r.states|
    ensures StateInv(r.states[k])
  {
    hide Inv, Taken;
    if k == 0 {
      var maxEvents: nat, maxBytes: nat :| r.states[0] == State(Initial(maxEvents, maxBytes), map[]);
      StartsEmpty(maxEvents, maxBytes);
    } else {
      RunInv(r, k - 1);
      assert StepAt(r, k - 1);
      StepInv(r.epoch, r.states[k - 1], r.steps[k - 1], r.states[k]);
    }
  }

  lemma RunStep(r: Run, k: nat)
    requires IsRun(r) && k < |r.steps|
    ensures |r.states| == |r.steps| + 1
    ensures StateInv(r.states[k]) && StateInv(r.states[k + 1])
    ensures Taken(r.epoch, r.states[k], r.steps[k], r.states[k + 1])
    ensures CountersRise(r.states[k].flows, r.states[k + 1].flows) && NewAbove(r.states[k], r.states[k + 1])
    ensures r.states[k].ledger.next <= r.states[k + 1].ledger.next
    ensures forall id :: id in r.states[k + 1].ledger.store && id < r.states[k].ledger.next ==>
              id in r.states[k].ledger.store && r.states[k + 1].ledger.store[id] == r.states[k].ledger.store[id]
  {
    hide Inv, Taken, CountersRise, NewAbove;
    RunInv(r, k);
    assert StepAt(r, k);
    StepInv(r.epoch, r.states[k], r.steps[k], r.states[k + 1]);
  }

  lemma {:induction false} FlowsRise(r: Run, j: nat, k: nat)
    requires IsRun(r) && j <= k < |r.states|
    ensures StateInv(r.states[j]) && StateInv(r.states[k])
    ensures CountersRise(r.states[j].flows, r.states[k].flows) && r.states[j].ledger.next <= r.states[k].ledger.next
    decreases k
  {
    hide Inv, IsRun, Taken, NewAbove, Counted, StoreRises;
    RunInv(r, k);
    if j < k {
      FlowsRise(r, j, k - 1);
      Length(r);
      RunStep(r, k - 1);
    }
  }

  lemma Length(r: Run)
    requires IsRun(r)
    ensures |r.states| == |r.steps| + 1
  {
  }

  /** A record stored later is an old one, or numbered above all that came before. */
  lemma {:induction false} LaterAbove(r: Run, j: nat, k: nat, id: nat)
    requires IsRun(r) && j <= k < |r.states| && id in r.states[k].ledger.store
    ensures StateInv(r.states[j])
    ensures id < r.states[j].ledger.next ==>
              id in r.states[j].ledger.store && r.states[k].ledger.store[id] == r.states[j].ledger.store[id]
    ensures id >= r.states[j].ledger.next ==>
              var e := r.states[k].ledger.store[id].event;
              e.stream < STREAMS && (e.flow in r.states[j].flows ==> r.states[j].flows[e.flow].sequences[e.stream] <= e.sequence)
    decreases k
  {
    hide Inv, IsRun, Taken, StoreRises;
    RunInv(r, j);
    if j == k {
      StoredBelow(r.states[k].ledger);
    } else {
      Length(r);
      RunStep(r, k - 1);
      FlowsRise(r, j, k - 1);
      if id < r.states[k - 1].ledger.next {
        LaterAbove(r, j, k - 1, id);
      }
    }
  }

  /** Over every run, with any number of flows and consumers: of two records that
      were ever stored for one stream of one flow, the later one has the higher
      number, whether or not the earlier one still exists. */
  lemma StreamsRise(r: Run, j: nat, k: nat, a: nat, b: nat)
    requires IsRun(r) && j <= k < |r.states| && a < b
    requires a in r.states[j].ledger.store && b in r.states[k].ledger.store
    requires SameStream(r.states[j].ledger.store[a].event, r.states[k].ledger.store[b].event)
    ensures r.states[j].ledger.store[a].event.sequence < r.states[k].ledger.store[b].event.sequence
  {
    hide Inv, IsRun;
    LaterAbove(r, j, k, b);
    assert Counted(r.states[j].flows, r.states[j].ledger.store[a].event);
  }

  // ---- The recorder's own run ----------------------------------------------

  /** What the recorder sees of a step; nothing, for those that do not reach it. */
  ghost function RecorderStep(s: State, e: Step): V.Step {
    match e
    case Open(_, _) => V.SetAvailable(s.ledger.available)
    case Consume(step) => step
    case Emit(flow, emissions, clock, verdict, out) =>
      if flow in s.flows && |s.flows[flow].sequences| == STREAMS && 0 < |emissions| <= MAX_BATCH
         && !Exhausts(s.flows[flow].sequences, emissions)
      then V.Record(Stamped(s.flows[flow].origin, s.flows[flow].sequences, emissions), s.flows[flow].required, clock, verdict, out)
      else V.SetAvailable(s.ledger.available)
  }

  lemma RecorderTakes(epoch: C.Epoch, s: State, e: Step, s': State)
    requires Inv(s.ledger) && Taken(epoch, s, e, s')
    ensures V.Taken(epoch, s.ledger, RecorderStep(s, e), s'.ledger)
  {
    hide Inv, Stamped, RecordStep, Exhausts;
    assert s.ledger.(available := s.ledger.available) == s.ledger;
  }

  ghost function RecorderRun(r: Run): U.Run
    requires |r.states| == |r.steps| + 1
  {
    U.Run(r.epoch, seq(|r.states|, k requires 0 <= k < |r.states| => r.states[k].ledger),
          seq(|r.steps|, k requires 0 <= k < |r.steps| => RecorderStep(r.states[k], r.steps[k])))
  }

  /** So everything proved of the recorder's runs holds below the flows. */
  lemma RecorderRuns(r: Run)
    requires IsRun(r)
    ensures U.IsRun(RecorderRun(r))
  {
    hide Inv, Taken, V.Taken, RecorderStep;
    var u := RecorderRun(r);
    var maxEvents: nat, maxBytes: nat :| r.states[0] == State(Initial(maxEvents, maxBytes), map[]);
    assert u.states[0] == Initial(maxEvents, maxBytes);
    forall k | 0 <= k < |u.steps| ensures U.StepAt(u, k) {
      assert StepAt(r, k);
      if Inv(r.states[k].ledger) { RecorderTakes(r.epoch, r.states[k], r.steps[k], r.states[k + 1]); }
    }
  }
}
