/** What a subscriber is told is what its enrollment granted, event by event, and
    what was granted and recorded reaches its queue. */
module Grants {
  import opened Prelude
  import opened Sums
  import opened Events
  import opened Ledger
  import opened LedgerInvariant
  import opened RecorderState
  import opened Consumers
  import opened Evolution
  import opened Runs
  import opened Isolation
  import opened Quotas

  // ---- The enrollment behind a queue ---------------------------------------

  lemma SlotTurns(epoch: Epoch, l: Ledger, s: Step, l': Ledger, i: nat)
    requires Inv(l) && Taken(epoch, l, s, l') && Evolves(l, l', s) && i < SLOTS && Live(l', i)
    ensures Live(l, i) ==> var a, b := l.slots[i].value, l'.slots[i].value; b.id == a.id && b.scope == a.scope && b.limits == a.limits
    ensures !Live(l, i) ==> s.Enroll? && s.enrollment == Ok(()) && l'.slots[i] == Some(Queue(s.enrolled, s.scope, s.limits, 1, 0, []))
  {
    hide Inv, RecordStep, ReleaseOwner, ReleaseSlot, StoreEvolves, OwnerRetains, SlotRetains, Reads, ValidScope;
    InvSlots(l);
    assert SlotEvolves(l.slots[i], l'.slots[i], s);
    if !Live(l, i) {
      OnlyEnrolling(epoch, l, s, l', i);
    }
  }

  /** A free slot is taken by nothing but an enrollment. */
  lemma OnlyEnrolling(epoch: Epoch, l: Ledger, s: Step, l': Ledger, i: nat)
    requires Inv(l) && Taken(epoch, l, s, l') && i < SLOTS && l.slots[i].None? && Live(l', i)
    ensures s.Enroll? && s.enrollment == Ok(()) && l'.slots[i] == Some(Queue(s.enrolled, s.scope, s.limits, 1, 0, []))
  {
    hide Inv, Decide, Overflows, Recorded, Extended, Reads, ValidScope, Kept, OwnerKept;
    InvSlots(l);
    if s.Record? { RecordSlots(l, s, l', i); }
  }

  lemma RecordSlots(l: Ledger, s: Step, l': Ledger, i: nat)
    requires Inv(l) && s.Record? && RecordStep(l, s.events, s.required, s.clock, s.verdict, l', s.out)
    requires i < |l.slots| && l.slots[i].None?
    ensures !Live(l', i)
  {
    hide Inv, Decide, Overflows, Recorded, Extended;
    if IdentitiesMoved(l, l', s.events) { assert SlotMoved(l.slots[i], l'.slots[i], s.events); }
  }

  /** A subscription that is live now was enrolled once, under its id, with its
      scope and limits, and has been live in its slot ever since. */
  lemma {:induction false} EnrolledBy(r: Run, i: nat, k: nat) returns (j: nat)
    requires IsRun(r) && k < |r.states| && i < SLOTS && Live(r.states[k], i)
    ensures |r.states| == |r.steps| + 1 && j < k && r.steps[j].Enroll? && r.steps[j].enrollment == Ok(())
    ensures !Live(r.states[j], i) && LiveFrom(r, i, j + 1, k)
    ensures r.states[k].slots[i].value.id == r.steps[j].enrolled
    ensures r.states[k].slots[i].value.scope == r.steps[j].scope && r.states[k].slots[i].value.limits == r.steps[j].limits
    decreases k
  {
    hide IsRun, Inv, Taken, Evolves;
    RunShape(r);
    RunInv(r, k);
    InvSlots(r.states[k]);
    if k == 0 {
      StartsFree(r, i);
    } else {
      RunStep(r, k - 1);
      SlotTurns(r.epoch, r.states[k - 1], r.steps[k - 1], r.states[k], i);
      if Live(r.states[k - 1], i) {
        j := EnrolledBy(r, i, k - 1);
      } else {
        j := k - 1;
      }
    }
  }

  lemma StartsFree(r: Run, i: nat)
    requires IsRun(r)
    ensures !Live(r.states[0], i)
  {
  }

  // ---- Only what was granted -----------------------------------------------

  /** Every event that a subscription's read tells has its session, its view and
      its content class among those that the subscription enrolled with. */
  lemma TellsOnlyGranted(r: Run, k: nat, t: Told) returns (j: nat)
    requires IsRun(r) && k < |r.steps| && r.steps[k].Read? && r.steps[k].batch.Ok? && t in r.steps[k].batch.value.told
    ensures |r.states| == |r.steps| + 1 && j < k && r.steps[j].Enroll? && r.steps[j].enrollment == Ok(())
    ensures r.steps[j].enrolled == r.steps[k].reader
    ensures t.event.session in r.steps[j].scope.sessions
    ensures t.event.view in r.steps[j].scope.views
    ensures t.event.category in r.steps[j].scope.classes
  {
    hide IsRun, Inv, Taken, Evolves;
    RunShape(r);
    RunStep(r, k);
    RunInv(r, k);
    var i := ToldBy(r.epoch, r.states[k], r.steps[k], r.states[k + 1], t);
    j := EnrolledBy(r, i, k);
  }

  lemma ToldBy(epoch: Epoch, l: Ledger, s: Step, l': Ledger, t: Told) returns (i: nat)
    requires Inv(l) && Taken(epoch, l, s, l') && s.Read? && s.batch.Ok? && t in s.batch.value.told
    ensures i < SLOTS && Live(l, i) && l.slots[i].value.id == s.reader
    ensures var scope := l.slots[i].value.scope;
            t.event.session in scope.sessions && t.event.view in scope.views && t.event.category in scope.classes
  {
    hide Inv, Reads, Reported;
    InvSlots(l);
    var k: nat :| IsSlot(l.slots, s.reader, k) && SlotReadStep(l, epoch, k, s.cursor, s.limit, s.maxBytes, s.batch, l');
    var q := l.slots[k].value;
    ReadReports(l.store, q.items, true, q.next, SubscriptionAfter(s.cursor), false, s.limit, s.maxBytes, s.batch);
    Queued(l, k, Delivery(t.id, t.source));
    i := k;
  }

  /** and each is a stored record's event. */
  lemma TellsStored(epoch: Epoch, l: Ledger, s: Step, l': Ledger, t: Told)
    requires Inv(l) && Taken(epoch, l, s, l') && s.Read? && s.batch.Ok? && t in s.batch.value.told
    ensures t.source in l.store && l.store[t.source].event == t.event
  {
    hide Inv, Reads, Reported;
    InvSlots(l);
    var k: nat :| IsSlot(l.slots, s.reader, k) && SlotReadStep(l, epoch, k, s.cursor, s.limit, s.maxBytes, s.batch, l');
    var q := l.slots[k].value;
    ReadReports(l.store, q.items, true, q.next, SubscriptionAfter(s.cursor), false, s.limit, s.maxBytes, s.batch);
    Queued(l, k, Delivery(t.id, t.source));
  }

  lemma Queued(l: Ledger, i: nat, d: Delivery)
    requires Inv(l) && i < SLOTS && Live(l, i) && d in l.slots[i].value.items
    ensures d.source in l.store
    ensures var e, scope := l.store[d.source].event, l.slots[i].value.scope;
            e.session in scope.sessions && e.view in scope.views && e.category in scope.classes
  {
    hide Budgets, Ordered, Increasing;
    assert QueueInv(l.store, l.next, l.slots[i].value);
  }

  // ---- All that was granted ------------------------------------------------

  /** The positions of the events whose session, view and content class are all
      granted, in order. */
  function Granted(scope: Scope, events: seq<Event>): seq<nat> {
    if events == [] then []
    else
      var n := |events| - 1;
      Granted(scope, events[..n])
      + (if events[n].session in scope.sessions && events[n].view in scope.views && events[n].category in scope.classes then [n] else [])
  }

  lemma {:induction false} GrantedExactly(scope: Scope, events: seq<Event>)
    ensures forall j: nat :: j in Granted(scope, events) <==>
              j < |events| && events[j].session in scope.sessions && events[j].view in scope.views && events[j].category in scope.classes
    ensures Increasing(Granted(scope, events))
    decreases |events|
  {
    if events != [] {
      var n := |events| - 1;
      GrantedExactly(scope, events[..n]);
      var front := Granted(scope, events[..n]);
      assert forall k :: 0 <= k < |front| ==> front[k] in front;
    }
  }

  /** Their deliveries, numbered from `id` on. */
  function Numbered(positions: seq<nat>, id: nat, source: nat): seq<Delivery> {
    seq(|positions|, n requires 0 <= n < |positions| => Delivery(id + n, source + positions[n]))
  }

  lemma {:induction false} OffersGranted(scope: Scope, events: seq<Event>, id: nat, source: nat)
    ensures Selected(scope, events) == |Granted(scope, events)|
    ensures Offers(scope, events, id, source) == Numbered(Granted(scope, events), id, source)
    decreases |events|
  {
    if events != [] { OffersGranted(scope, events[..|events| - 1], id, source); }
  }

  /** The sizes of the granted events. */
  ghost function GrantedSizes(scope: Scope, events: seq<Event>): seq<nat>
  {
    GrantedExactly(scope, events);
    var m := Granted(scope, events);
    seq(|m|, n requires 0 <= n < |m| => assert m[n] in m; events[m[n]].encoded)
  }

  lemma {:induction false} SelectedIsSum(scope: Scope, events: seq<Event>)
    ensures SelectedBytes(scope, events) == Sum(GrantedSizes(scope, events))
    decreases |events|
  {
    if events != [] {
      var n := |events| - 1;
      SelectedIsSum(scope, events[..n]);
      var front, e := GrantedSizes(scope, events[..n]), events[n];
      GrantedExactly(scope, events[..n]);
      if e.session in scope.sessions && e.view in scope.views && e.category in scope.classes {
        assert GrantedSizes(scope, events) == front + [e.encoded];
        SumAppend(front, [e.encoded]);
        SumOne(e.encoded);
      } else {
        assert GrantedSizes(scope, events) == front;
      }
    }
  }

  /** The whole batch is stored as it was handed in, and the owner's queue ends with it. */
  ghost predicate Retained(l: Ledger, l': Ledger, events: seq<Event>, required: bool) {
    && l'.next == l.next + |events|
    && (forall id :: l.next <= id < l.next + |events| ==> id in l'.store && l'.store[id] == Entry(events[id - l.next], required))
    && |l'.owner| >= |events|
    && l'.owner[|l'.owner| - |events|..] == seq(|events|, n requires 0 <= n < |events| => l.next + n)
  }

  /** Dropping the oldest `k` deliveries, none of them required, makes room for
      the granted events. */
  ghost predicate MakesRoom(l: Ledger, q: Queue, events: seq<Event>, k: nat)
    requires Stocked(l.store, q.items) && k <= |q.items|
  {
    && (forall j :: 0 <= j < k ==> !l.store[q.items[j].source].required)
    && |q.items| - k + |Granted(q.scope, events)| <= q.limits.maxEvents
    && Sum(QueueSizes(l.store, q.items[k..])) + Sum(GrantedSizes(q.scope, events)) <= q.limits.maxBytes
  }

  /** The queue ends with a delivery for each granted event, in order. */
  ghost predicate Arrived(q: Queue, items: seq<Delivery>, events: seq<Event>, source: nat) {
    var added := Numbered(Granted(q.scope, events), q.next, source);
    && |items| >= |added| && items[|items| - |added|..] == added
    && forall d :: d in items[..|items| - |added|] ==> d in q.items
  }

  lemma PlanMeans(l: Ledger, q: Queue, events: seq<Event>, required: bool)
    requires QueueInv(l.store, l.next, q)
    ensures var p := LocalPlan(l.store, q, events, required);
            && (p == Untouched <==> Granted(q.scope, events) == [])
            && (p.Admit? ==> MakesRoom(l, q, events, p.drop) && (required ==> p.drop == 0))
            && (p.Refuse? ==> forall k :: 0 <= k <= |q.items| && (required ==> k == 0) ==> !MakesRoom(l, q, events, k))
  {
    hide LeastDrop, Droppable, QueueSizes, GrantedSizes, Granted, Selected, SelectedBytes, QueueInv;
    var items := q.items;
    StockedQueue(l, q);
    OffersGranted(q.scope, events, 0, 0);
    SelectedIsSum(q.scope, events);
    forall k | 0 <= k <= |items|
      ensures LocalFits(l.store, q, events, k) <==>
                |items| - k + |Granted(q.scope, events)| <= q.limits.maxEvents
                && Sum(QueueSizes(l.store, items[k..])) + Sum(GrantedSizes(q.scope, events)) <= q.limits.maxBytes
    {
      QueueBytesIsSum(l.store, items[k..]);
    }
    DropMeans(l, q, events);
  }

  lemma StockedQueue(l: Ledger, q: Queue)
    requires QueueInv(l.store, l.next, q)
    ensures Stocked(l.store, q.items)
  {
  }

  /** The least sufficient drop is the only one that can be tried. */
  lemma DropMeans(l: Ledger, q: Queue, events: seq<Event>)
    requires Stocked(l.store, q.items)
    ensures var n := LeastDrop(l.store, q, events, 0);
            && (Droppable(l.store, q.items, n) <==> forall j :: 0 <= j < n ==> !l.store[q.items[j].source].required)
            && forall k :: 0 <= k < n ==> !LocalFits(l.store, q, events, k)
  {
    hide LocalFits;
  }

  /** A batch that succeeds is retained whole, or is best-effort and lost whole,
      which only its ids show. */
  lemma BatchStored(l: Ledger, s: Step, l': Ledger)
    requires Inv(l) && s.Record? && RecordStep(l, s.events, s.required, s.clock, s.verdict, l', s.out) && s.out.result.Ok?
    ensures Retained(l, l', s.events, s.required) <==> Decide(l, s.events, s.required).Fits?
    ensures !Retained(l, l', s.events, s.required) ==>
              && !s.required && l'.store == l.store && l'.owner == l.owner && l'.next == l.next + |s.events| && |l'.slots| == |l.slots|
              && forall i :: 0 <= i < |l.slots| && Live(l, i) ==> Live(l', i) && l'.slots[i].value.items == l.slots[i].value.items
  {
    hide Inv, Decide, Overflows, Extended, QueueInv;
    if Decide(l, s.events, s.required).Fits? {
      FitsBase(l, s.events, s.required);
      PublishesAll(l, Decide(l, s.events, s.required).base, s.events, s.required);
    } else {
      NotRetained(l, l', s.events, s.required);
    }
  }

  lemma NotRetained(l: Ledger, l': Ledger, events: seq<Event>, required: bool)
    requires Inv(l) && l'.store == l.store && events != []
    ensures !Retained(l, l', events, required)
  {
    assert l.next !in l'.store;
  }

  lemma PublishesAll(l: Ledger, base: Ledger, events: seq<Event>, required: bool)
    requires SameSlots(l, base)
    ensures Retained(l, Publish(l, base, events, required), events, required)
  {
    hide Extended, Accepting;
    OwnerEnds(base.owner, Sources(l.next, |events|));
  }

  lemma OwnerEnds(a: seq<nat>, b: seq<nat>)
    ensures (a + b)[|a + b| - |b|..] == b
  {
  }

  /** A batch that is retained arrives, with every event that a subscription was
      granted, at the end of its queue, unless it is best-effort and no dropping
      of best-effort deliveries would have made room. Its delivery ids are used up
      either way, one for each granted event. */
  lemma BatchArrives(l: Ledger, s: Step, l': Ledger, i: nat)
    requires Inv(l) && s.Record? && RecordStep(l, s.events, s.required, s.clock, s.verdict, l', s.out) && s.out.result.Ok?
    requires i < SLOTS && Live(l, i)
    ensures Live(l', i) && Stocked(l.store, l.slots[i].value.items)
    ensures l'.slots[i].value.next == l.slots[i].value.next + |Granted(l.slots[i].value.scope, s.events)|
    ensures Retained(l, l', s.events, s.required) ==>
              var q, items := l.slots[i].value, l'.slots[i].value.items;
              || Arrived(q, items, s.events, l.next)
              || (!s.required && (forall d :: d in items ==> d in q.items) && forall k :: 0 <= k <= |q.items| ==> !MakesRoom(l, q, s.events, k))
  {
    hide Inv, Decide, Overflows, QueueInv, Retained, Granted, Extended, MakesRoom, Arrived;
    InvSlots(l);
    var q := l.slots[i].value;
    StockedQueue(l, q);
    OffersGranted(q.scope, s.events, 0, 0);
    BatchStored(l, s, l');
    if Decide(l, s.events, s.required).Fits? {
      FitsBase(l, s.events, s.required);
      QueueTakes(l, s.events, s.required, i);
    }
  }

  lemma QueueTakes(l: Ledger, events: seq<Event>, required: bool, i: nat)
    requires Inv(l) && Decide(l, events, required).Fits? && i < SLOTS && Live(l, i) && QueueInv(l.store, l.next, l.slots[i].value)
    ensures Stocked(l.store, l.slots[i].value.items) && SameSlots(l, Decide(l, events, required).base)
    ensures var q := l.slots[i].value;
            var slot := Publish(l, Decide(l, events, required).base, events, required).slots[i];
            && slot.Some? && slot.value.next == q.next + |Granted(q.scope, events)|
            && (|| Arrived(q, slot.value.items, events, l.next)
                || (!required && (forall d :: d in slot.value.items ==> d in q.items)
                    && forall k :: 0 <= k <= |q.items| ==> !MakesRoom(l, q, events, k)))
  {
    hide Inv, QueueInv, LocalPlan, MakesRoom, Granted, Decide, Publish, Arrived, Extended;
    var q := l.slots[i].value;
    StockedQueue(l, q);
    FitsBase(l, events, required);
    PlanMeans(l, q, events, required);
    RefusedNone(l, events, required, i);
    BaseKeeps(l, events, required, i);
    var base := Decide(l, events, required).base;
    PublishedSlot(l, base, events, required, i);
    ExtendedArrives(l, base.slots[i].value, q, events, LocalPlan(l.store, q, events, required).Admit?);
  }

  lemma PublishedSlot(l: Ledger, base: Ledger, events: seq<Event>, required: bool, i: nat)
    requires SameSlots(l, base) && i < |l.slots| && Live(l, i)
    ensures Publish(l, base, events, required).slots[i]
            == Some(Extended(base.slots[i].value, events, l.next, LocalPlan(l.store, l.slots[i].value, events, required).Admit?))
  {
    hide Extended, LocalPlan;
  }

  lemma ExtendedArrives(l: Ledger, b: Queue, q: Queue, events: seq<Event>, accepting: bool)
    requires b == q.(items := b.items) && forall d :: d in b.items ==> d in q.items
    ensures var e := Extended(b, events, l.next, accepting);
            && e.next == q.next + |Granted(q.scope, events)|
            && (accepting || Granted(q.scope, events) == [] ==> Arrived(q, e.items, events, l.next))
            && (!accepting ==> forall d :: d in e.items ==> d in q.items)
  {
    hide Granted, Offers, Selected;
    OffersGranted(q.scope, events, q.next, l.next);
  }

  lemma RefusedNone(l: Ledger, events: seq<Event>, required: bool, i: nat)
    requires Decide(l, events, required).Fits? && i < |l.slots| && Live(l, i)
    ensures required ==> !LocalPlan(l.store, l.slots[i].value, events, required).Refuse?
  {
    hide LocalPlan, Local, Affordable, Shaped;
  }

  lemma BaseKeeps(l: Ledger, events: seq<Event>, required: bool, i: nat)
    requires Inv(l) && Decide(l, events, required).Fits? && i < SLOTS && Live(l, i)
    ensures var base := Decide(l, events, required).base;
            && SameSlots(l, base)
            && var b, q := base.slots[i].value, l.slots[i].value;
               b == q.(items := b.items) && forall d :: d in b.items ==> d in q.items
  {
    hide Inv, Decide, LocalPlan;
    FitsBase(l, events, required);
    FitsSlot(l, events, required, i);
    var e := Evicted(l.store, l.slots[i].value, events, required);
    KeptMembers(e.items, Surplus(Local(l, events, required), events));
  }

  /** So over any run: whatever of an accepted batch the enrollment of a live
      subscription granted arrives in its queue, or nothing of it does because no
      dropping of best-effort deliveries would have made room. */
  lemma GrantedArrives(r: Run, k: nat, i: nat) returns (j: nat)
    requires IsRun(r) && k < |r.steps| && |r.states| == |r.steps| + 1 && i < SLOTS && Live(r.states[k], i)
    requires r.steps[k].Record? && r.steps[k].out.result.Ok?
    ensures j < k && r.steps[j].Enroll? && r.steps[j].enrollment == Ok(()) && LiveFrom(r, i, j + 1, k)
    ensures Live(r.states[k + 1], i) && Stocked(r.states[k].store, r.states[k].slots[i].value.items)
    ensures var q, q' := r.states[k].slots[i].value, r.states[k + 1].slots[i].value;
            && q.id == r.steps[j].enrolled && q.scope == r.steps[j].scope && q.limits == r.steps[j].limits
            && q'.next == q.next + |Granted(r.steps[j].scope, r.steps[k].events)|
            && (Retained(r.states[k], r.states[k + 1], r.steps[k].events, r.steps[k].required) ==>
                  || Arrived(q, q'.items, r.steps[k].events, r.states[k].next)
                  || (!r.steps[k].required && (forall d :: d in q'.items ==> d in q.items)
                      && forall n :: 0 <= n <= |q.items| ==> !MakesRoom(r.states[k], q, r.steps[k].events, n)))
  {
    hide IsRun, Inv, RecordStep, Evolves, Granted, Arrived, MakesRoom, Retained;
    RunStep(r, k);
    BatchArrives(r.states[k], r.steps[k], r.states[k + 1], i);
    j := EnrolledBy(r, i, k);
  }
}
