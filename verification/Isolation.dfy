/** Commit, acceptance and isolation. While the shared budgets do not bind, one
    subscriber's queue is a private drop-oldest queue that knows nothing of the
    record store, the owner or the other subscribers. */
module Isolation {
  import opened Prelude
  import opened Events
  import opened Ledger
  import opened LedgerInvariant
  import opened RecorderPlan
  import opened RecorderState
  import opened Consumers
  import opened Evolution
  import opened Runs

  // ---- Conditional commit --------------------------------------------------

  /** A batch succeeds exactly when its commit ran, once, and succeeded; a
      rejecting commit leaves the whole ledger as it was, identities included;
      without a commit nothing but identities has moved. */
  lemma ConditionalCommit(l: Ledger, s: Step, l': Ledger)
    requires Inv(l) && s.Record? && RecordStep(l, s.events, s.required, s.clock, s.verdict, l', s.out)
    ensures s.out.calls <= 1
    ensures s.out.result.Ok? <==> s.out.calls == 1 && s.verdict.Ok?
    ensures s.out.calls == 1 && s.verdict.Err? ==> l' == l && s.out.result == s.verdict
    ensures s.out.calls == 0 ==> IdentitiesMoved(l, l', s.events)
    ensures s.required && s.out.calls == 1 ==> Decide(l, s.events, s.required).Fits?
  {
    hide Inv, Overflows, Decide, Publish, Advance, IdentitiesMoved;
    AdvanceMoves(l, s.events);
    NoneMoved(l, s.events);
  }

  lemma NoneMoved(l: Ledger, events: seq<Event>)
    ensures IdentitiesMoved(l, l, events)
  {
    forall i | 0 <= i < |l.slots| ensures SlotMoved(l.slots[i], l.slots[i], events) {}
  }

  // ---- Required batches ----------------------------------------------------

  lemma InvPurged(l: Ledger)
    requires Inv(l)
    ensures Purge(l) == l
  {
  }

  lemma RequiredPlans(l: Ledger, events: seq<Event>)
    requires !SomeoneRefuses(l, events, true)
    ensures LocallyEvicted(l, events, true) == l.slots
    ensures forall i :: 0 <= i < |l.slots| && l.slots[i].Some? && Selected(l.slots[i].value.scope, events) > 0
              ==> Accepting(l.store, l.slots[i].value, events, true)
  {
    hide LeastDrop, LocalFits, Selected, SelectedBytes, Droppable;
    forall i | 0 <= i < |l.slots| && l.slots[i].Some? ensures Evicted(l.store, l.slots[i].value, events, true) == l.slots[i].value {
      var q := l.slots[i].value;
      assert !LocalPlan(l.store, q, events, true).Refuse?;
      assert q.items[0..] == q.items;
    }
  }

  lemma RequiredBase(l: Ledger, events: seq<Event>)
    requires Inv(l) && Decide(l, events, true).Fits?
    ensures Decide(l, events, true).base == l
  {
    hide Inv, Purge, LocallyEvicted, SomeoneRefuses, GlobalFits, LeastCut, Shaped, Removed;
    RequiredPlans(l, events);
    InvPurged(l);
    assert l.(slots := l.slots) == l;
    assert Local(l, events, true) == l;
    assert Surplus(l, events) == {};
    RemovedNothing(l);
  }

  /** The queue has gained every event that it selects, and lost nothing. */
  ghost predicate TakesAll(q: Queue, slot: Option<Queue>, events: seq<Event>, first: nat) {
    slot.Some? && slot.value.items == q.items + Offers(q.scope, events, q.next, first)
  }

  /** A required batch is taken by every queue that selects it, evicting
      nothing; otherwise no record and no queue changes at all. */
  lemma RequiredAllOrNone(l: Ledger, s: Step, l': Ledger)
    requires Inv(l) && s.Record? && s.required && RecordStep(l, s.events, s.required, s.clock, s.verdict, l', s.out)
    ensures s.out.result.Ok? ==>
              && l'.store == l.store + Recorded(l.next, s.events, true)
              && l'.owner == l.owner + Sources(l.next, |s.events|)
              && |l'.slots| == |l.slots|
              && forall i :: 0 <= i < |l.slots| && l.slots[i].Some? ==> TakesAll(l.slots[i].value, l'.slots[i], s.events, l.next)
    ensures s.out.result.Err? ==> IdentitiesMoved(l, l', s.events)
  {
    hide Inv, Overflows, Decide, Advance, IdentitiesMoved, Offers, Recorded, Sources, Accepting;
    ConditionalCommit(l, s, l');
    NoneMoved(l, s.events);
    if s.out.result.Ok? {
      RequiredBase(l, s.events);
      forall i | 0 <= i < |l.slots| && l.slots[i].Some?
        ensures TakesAll(l.slots[i].value, l'.slots[i], s.events, l.next)
      {
        TakenInFull(l, s.events, i);
      }
    }
  }

  lemma TakenInFull(l: Ledger, events: seq<Event>, i: nat)
    requires Inv(l) && Decide(l, events, true).Fits? && i < |l.slots| && l.slots[i].Some?
    ensures var q := l.slots[i].value;
            Extended(q, events, l.next, Accepting(l.store, q, events, true)).items
            == q.items + Offers(q.scope, events, q.next, l.next)
  {
    hide Inv, Offers, Accepting, Local, Affordable, Shaped, SomeoneRefuses;
    var q := l.slots[i].value;
    RequiredPlans(l, events);
    OffersNumbered(q.scope, events, q.next, l.next);
    if Selected(q.scope, events) == 0 {
      assert Offers(q.scope, events, q.next, l.next) == [];
    }
  }

  // ---- A private queue -----------------------------------------------------

  datatype Item = Item(id: nat, size: nat, required: bool)

  datatype Private = Private(scope: Scope, limits: Limits, next: nat, items: seq<Item>)

  function Size(items: seq<Item>): nat {
    if items == [] then 0 else items[0].size + Size(items[1..])
  }

  predicate Within(limits: Limits, items: seq<Item>) {
    |items| <= limits.maxEvents && Size(items) <= limits.maxBytes
  }

  /** Append `batch`, dropping the oldest item as long as the result is too
      large; give up rather than drop a required item, or any for a required batch. */
  function Squeeze(limits: Limits, items: seq<Item>, batch: seq<Item>, required: bool): Option<seq<Item>> {
    if Within(limits, items + batch) then Some(items + batch)
    else if items == [] || required || items[0].required then None
    else Squeeze(limits, items[1..], batch, required)
  }

  /** The private queue's share of a batch. */
  function Arrivals(scope: Scope, events: seq<Event>, required: bool, id: nat): seq<Item> {
    if events == [] then []
    else
      var n := |events| - 1;
      Arrivals(scope, events[..n], required, id)
      + (if scope.Permits(events[n]) then [Item(id + Selected(scope, events[..n]), events[n].encoded, required)] else [])
  }

  /** What reaches one private queue. */
  datatype Input = Arrive(events: seq<Event>, required: bool) | Miss(ids: nat) | Release(after: nat) | Idle

  function Apply(p: Private, input: Input): Private {
    match input
    case Arrive(events, required) =>
      var batch := Arrivals(p.scope, events, required, p.next);
      var squeezed := Squeeze(p.limits, p.items, batch, required);
      p.(next := p.next + Selected(p.scope, events), items := if squeezed.Some? then squeezed.value else p.items)
    case Miss(ids) => p.(next := p.next + ids)
    case Release(after) => p.(items := Filter((x: Item) => x.id > after, p.items))
    case Idle => p
  }

  // ---- A subscriber's queue, seen privately --------------------------------

  function Seen(store: map<nat, Entry>, d: Delivery): Item {
    if d.source in store then Item(d.id, store[d.source].event.encoded, store[d.source].required) else Item(d.id, 0, false)
  }

  function SeenAll(store: map<nat, Entry>, items: seq<Delivery>): seq<Item> {
    seq(|items|, k requires 0 <= k < |items| => Seen(store, items[k]))
  }

  function Viewed(store: map<nat, Entry>, q: Queue): Private {
    Private(q.scope, q.limits, q.next, SeenAll(store, q.items))
  }

  lemma {:induction false} SeenSize(store: map<nat, Entry>, items: seq<Delivery>)
    ensures Size(SeenAll(store, items)) == QueueBytes(store, items)
  {
    if items != [] {
      SeenSize(store, items[1..]);
      assert SeenAll(store, items)[1..] == SeenAll(store, items[1..]);
    }
  }

  lemma {:induction false} SizeJoin(a: seq<Item>, b: seq<Item>)
    ensures Size(a + b) == Size(a) + Size(b)
  {
    if a == [] {
      assert a + b == b;
    } else {
      assert (a + b)[1..] == a[1..] + b;
      SizeJoin(a[1..], b);
    }
  }

  lemma {:induction false} ArrivalsSeen(store: map<nat, Entry>, scope: Scope, events: seq<Event>, required: bool, id: nat, source: nat)
    requires forall s :: source <= s < source + |events| ==> s in store && store[s] == Entry(events[s - source], required)
    ensures SeenAll(store, Offers(scope, events, id, source)) == Arrivals(scope, events, required, id)
    ensures |Arrivals(scope, events, required, id)| == Selected(scope, events)
    ensures Size(Arrivals(scope, events, required, id)) == SelectedBytes(scope, events)
    decreases |events|
  {
    if events != [] {
      var n := |events| - 1;
      ArrivalsSeen(store, scope, events[..n], required, id, source);
      var front := Arrivals(scope, events[..n], required, id);
      assert source + n in store;
      if scope.Permits(events[n]) {
        var last := [Item(id + Selected(scope, events[..n]), events[n].encoded, required)];
        SizeJoin(front, last);
        assert last[1..] == [];
        assert Size(last) == last[0].size + Size(last[1..]);
      } else {
        assert front + [] == front;
      }
    }
  }

  lemma LocalFitsWithin(store: map<nat, Entry>, q: Queue, events: seq<Event>, batch: seq<Item>, k: nat)
    requires k <= |q.items| && |batch| == Selected(q.scope, events) && Size(batch) == SelectedBytes(q.scope, events)
    ensures Within(q.limits, SeenAll(store, q.items[k..]) + batch) <==> LocalFits(store, q, events, k)
  {
    SeenSize(store, q.items[k..]);
    SizeJoin(SeenAll(store, q.items[k..]), batch);
  }

  /** Dropping one at a time reaches the least sufficient drop, or a required item. */
  lemma {:induction false} SqueezeIsLeastDrop(store: map<nat, Entry>, q: Queue, events: seq<Event>, batch: seq<Item>, required: bool, k: nat)
    requires k <= |q.items| && |batch| == Selected(q.scope, events) && Size(batch) == SelectedBytes(q.scope, events)
    requires forall j :: 0 <= j < |q.items| ==> q.items[j].source in store
    ensures var n := LeastDrop(store, q, events, k);
            Squeeze(q.limits, SeenAll(store, q.items[k..]), batch, required)
            == if LocalFits(store, q, events, n)
                  && (n == k || (!required && forall j :: k <= j < n ==> !store[q.items[j].source].required))
               then Some(SeenAll(store, q.items[n..]) + batch) else None
    decreases |q.items| - k
  {
    hide LocalFits, Within;
    LocalFitsWithin(store, q, events, batch, k);
    if !LocalFits(store, q, events, k) && k < |q.items| {
      assert SeenAll(store, q.items[k..])[1..] == SeenAll(store, q.items[k + 1..]);
      assert SeenAll(store, q.items[k..])[0].required == store[q.items[k].source].required;
      SqueezeIsLeastDrop(store, q, events, batch, required, k + 1);
    }
  }

  lemma NeverFits(store: map<nat, Entry>, q: Queue, events: seq<Event>, k: nat)
    requires k <= |q.items|
    requires Selected(q.scope, events) > q.limits.maxEvents || SelectedBytes(q.scope, events) > q.limits.maxBytes
    ensures !LocalFits(store, q, events, k)
  {
  }

  lemma AlwaysFits(store: map<nat, Entry>, q: Queue, events: seq<Event>)
    requires |q.items| <= q.limits.maxEvents && QueueBytes(store, q.items) <= q.limits.maxBytes
    requires Selected(q.scope, events) == 0 && SelectedBytes(q.scope, events) == 0
    ensures LeastDrop(store, q, events, 0) == 0 && LocalFits(store, q, events, 0)
  {
    assert q.items[0..] == q.items;
  }

  lemma {:induction false} NoneSelected(scope: Scope, events: seq<Event>, id: nat, source: nat)
    requires Selected(scope, events) == 0
    ensures SelectedBytes(scope, events) == 0 && Offers(scope, events, id, source) == []
    decreases |events|
  {
    if events != [] { NoneSelected(scope, events[..|events| - 1], id, source); }
  }

  /** The recorder's per-queue plan is the private queue's squeeze. */
  lemma PlanIsSqueeze(store: map<nat, Entry>, q: Queue, events: seq<Event>, required: bool, batch: seq<Item>)
    requires |batch| == Selected(q.scope, events) && Size(batch) == SelectedBytes(q.scope, events)
    requires forall j :: 0 <= j < |q.items| ==> q.items[j].source in store
    requires |q.items| <= q.limits.maxEvents && QueueBytes(store, q.items) <= q.limits.maxBytes
    ensures var p := LocalPlan(store, q, events, required);
            Squeeze(q.limits, SeenAll(store, q.items), batch, required)
            == match p
               case Untouched => Some(SeenAll(store, q.items) + batch)
               case Admit(n) => Some(SeenAll(store, q.items[n..]) + batch)
               case Refuse => None
  {
    hide LocalFits, Squeeze, SeenAll, Selected, SelectedBytes;
    assert q.items[0..] == q.items;
    SqueezeIsLeastDrop(store, q, events, batch, required, 0);
    var n := LeastDrop(store, q, events, 0);
    if Selected(q.scope, events) == 0 {
      NoneSelected(q.scope, events, 0, 0);
      AlwaysFits(store, q, events);
    } else if Selected(q.scope, events) > q.limits.maxEvents || SelectedBytes(q.scope, events) > q.limits.maxBytes {
      NeverFits(store, q, events, n);
    } else if n == |q.items| {
      LastFits(store, q, events);
    }
  }

  lemma LastFits(store: map<nat, Entry>, q: Queue, events: seq<Event>)
    requires Selected(q.scope, events) <= q.limits.maxEvents && SelectedBytes(q.scope, events) <= q.limits.maxBytes
    ensures LocalFits(store, q, events, |q.items|)
  {
    assert q.items[|q.items|..] == [];
  }

  // ---- Refinement ----------------------------------------------------------

  /** The shared budgets do not bind: the batch fits beside everything that the
      consumers themselves keep. */
  ghost predicate Roomy(l: Ledger, events: seq<Event>, required: bool) {
    GlobalFits(Local(l, events, required), events, 0)
  }

  lemma LocalParts(l: Ledger, events: seq<Event>, required: bool)
    ensures Purge(Local(l, events, required)) == Local(l, events, required)
    ensures Local(l, events, required).owner == l.owner
  {
    PurgeIdempotent(l.(slots := LocallyEvicted(l, events, required)));
  }

  lemma RoomyBase(l: Ledger, events: seq<Event>, required: bool)
    requires Inv(l) && Decide(l, events, required).Fits? && Roomy(l, events, required)
    ensures Decide(l, events, required).base == Local(l, events, required)
  {
    hide Inv, Local, SomeoneRefuses, GlobalFits, Shaped, Removed, Purge;
    var local := Local(l, events, required);
    assert LeastCut(local, events, 0) == 0;
    assert Surplus(local, events) == {};
    LocalParts(l, events, required);
    RemovedNothing(local);
  }

  lemma SeenJoin(store: map<nat, Entry>, a: seq<Delivery>, b: seq<Delivery>)
    ensures SeenAll(store, a + b) == SeenAll(store, a) + SeenAll(store, b)
  {
  }

  lemma SeenAgree(a: map<nat, Entry>, b: map<nat, Entry>, items: seq<Delivery>)
    requires forall k :: 0 <= k < |items| ==> items[k].source in a && items[k].source in b && a[items[k].source] == b[items[k].source]
    ensures SeenAll(a, items) == SeenAll(b, items)
  {
  }

  /** A published batch changes a view as it would change the private queue. */
  lemma PublishedView(l: Ledger, events: seq<Event>, required: bool, i: nat)
    requires Inv(l) && i < SLOTS && l.slots[i].Some?
    requires Decide(l, events, required).Fits? && Roomy(l, events, required)
    ensures var base := Decide(l, events, required).base;
            && SameSlots(l, base)
            && var p := Publish(l, base, events, required);
            && Live(p, i)
            && Viewed(p.store, p.slots[i].value) == Apply(Viewed(l.store, l.slots[i].value), Arrive(events, required))
  {
    hide Inv, Decide, Roomy, Squeeze, LocalPlan, Selected, SelectedBytes, Offers, Arrivals, SeenAll, Recorded, Size;
    var base := Decide(l, events, required).base;
    FitsBase(l, events, required);
    RoomyBase(l, events, required);
    InvSlots(l);
    var p := Publish(l, base, events, required);
    var q := l.slots[i].value;
    var e := Evicted(l.store, q, events, required);
    assert base.slots[i] == Some(e);
    InvClaims(base);
    PublishedStore(l, base, events, required);
    ArrivalsSeen(p.store, q.scope, events, required, q.next, l.next);
    SlotQueue(l, i);
    EvictedSeen(l, p.store, base, i, e);
    assert p.slots[i].value == Extended(e, events, l.next, Accepting(l.store, q, events, required));
    ExtendedView(l.store, p.store, q, events, required, l.next);
  }

  lemma ExtendedView(store: map<nat, Entry>, store': map<nat, Entry>, q: Queue, events: seq<Event>, required: bool, first: nat)
    requires QueueInv(store, first, q)
    requires forall s :: first <= s < first + |events| ==> s in store' && store'[s] == Entry(events[s - first], required)
    requires var e := Evicted(store, q, events, required); SeenAll(store', e.items) == SeenAll(store, e.items)
    ensures var e := Evicted(store, q, events, required);
            Viewed(store', Extended(e, events, first, Accepting(store, q, events, required)))
            == Apply(Viewed(store, q), Arrive(events, required))
  {
    hide Squeeze, LocalPlan, Selected, SelectedBytes, Offers, Arrivals, SeenAll, Size, Evicted;
    var e := Evicted(store, q, events, required);
    var batch := Arrivals(q.scope, events, required, q.next);
    ArrivalsSeen(store', q.scope, events, required, q.next, first);
    EvictedParts(store, q, events, required);
    PlanIsSqueeze(store, q, events, required, batch);
    SeenJoin(store', e.items, Offers(q.scope, events, q.next, first));
    if LocalPlan(store, q, events, required) == Untouched {
      ArrivalsCount(q.scope, events, required, q.next);
      assert SeenAll(store, q.items) + batch == SeenAll(store, q.items);
    }
    assert e.items + [] == e.items;
  }

  lemma EvictedSeen(l: Ledger, store: map<nat, Entry>, base: Ledger, i: nat, e: Queue)
    requires SubStore(base.store, l.store) && SubStore(base.store, store)
    requires Inv(base) && i < SLOTS && base.slots[i] == Some(e)
    ensures SeenAll(store, e.items) == SeenAll(l.store, e.items)
  {
    hide Budgets;
    assert QueueInv(base.store, base.next, e);
    SeenAgree(store, l.store, e.items);
  }

  lemma {:induction false} ArrivalsCount(scope: Scope, events: seq<Event>, required: bool, id: nat)
    ensures |Arrivals(scope, events, required, id)| == Selected(scope, events)
    decreases |events|
  {
    if events != [] { ArrivalsCount(scope, events[..|events| - 1], required, id); }
  }

  lemma EvictedParts(store: map<nat, Entry>, q: Queue, events: seq<Event>, required: bool)
    ensures var p := LocalPlan(store, q, events, required);
            && (p == Untouched <==> Selected(q.scope, events) == 0)
            && (p.Admit? ==> Evicted(store, q, events, required) == q.(items := q.items[p.drop..]))
            && (!p.Admit? ==> Evicted(store, q, events, required) == q)
  {
    hide Selected, SelectedBytes, LeastDrop, Droppable;
  }

  /** What one operation brings to the private queue in slot `i`: an accepted
      batch, consumed ids, its own acknowledgment, or nothing. */
  ghost function InputOf(l: Ledger, s: Step, l': Ledger, i: nat): Input
    requires Inv(l) && i < SLOTS && Live(l, i) && Live(l', i)
  {
    if s.Record? then
      if s.out.result.Ok? && Decide(l, s.events, s.required).Fits? then Arrive(s.events, s.required)
      else Miss(Max(0, l'.slots[i].value.next - l.slots[i].value.next))
    else if s.Ack? && s.reply.Ok? && IsSlot(l.slots, s.acker, i) then Release(s.acked.after)
    else Idle
  }

  lemma RecordView(l: Ledger, s: Step, l': Ledger, i: nat)
    requires Inv(l) && s.Record? && RecordStep(l, s.events, s.required, s.clock, s.verdict, l', s.out)
    requires i < SLOTS && Live(l, i) && Roomy(l, s.events, s.required)
    ensures Live(l', i)
    ensures Viewed(l'.store, l'.slots[i].value) == Apply(Viewed(l.store, l.slots[i].value), InputOf(l, s, l', i))
  {
    hide Inv, Overflows, Decide, Publish, Advance, IdentitiesMoved, Roomy, Viewed, Squeeze;
    ConditionalCommit(l, s, l');
    AdvanceMoves(l, s.events);
    NoneMoved(l, s.events);
    if s.out.result.Ok? && Decide(l, s.events, s.required).Fits? {
      PublishedView(l, s.events, s.required, i);
    } else {
      MovedView(l, l', s.events, i);
    }
  }

  lemma MovedView(l: Ledger, l': Ledger, events: seq<Event>, i: nat)
    requires IdentitiesMoved(l, l', events) && Live(l, i)
    ensures Live(l', i) && l'.slots[i].value.next >= l.slots[i].value.next
    ensures Viewed(l'.store, l'.slots[i].value)
            == Apply(Viewed(l.store, l.slots[i].value), Miss(l'.slots[i].value.next - l.slots[i].value.next))
  {
    assert SlotMoved(l.slots[i], l'.slots[i], events);
  }

  /** A queue with the same deliveries looks the same, whatever else went. */
  lemma QuietView(l: Ledger, l': Ledger, i: nat)
    requires Inv(l) && Inv(l') && StoreEvolves(l, l') && i < SLOTS && Live(l, i) && Live(l', i)
    requires l'.slots[i].value == l.slots[i].value.(issued := l'.slots[i].value.issued)
    ensures Viewed(l'.store, l'.slots[i].value) == Viewed(l.store, l.slots[i].value)
  {
    hide Budgets;
    assert QueueInv(l.store, l.next, l.slots[i].value);
    assert QueueInv(l'.store, l'.next, l'.slots[i].value);
    SeenAgree(l.store, l'.store, l.slots[i].value.items);
  }

  lemma {:induction false} FilterSeen(store: map<nat, Entry>, items: seq<Delivery>, after: nat)
    ensures SeenAll(store, Filter((d: Delivery) => d.id > after, items)) == Filter((x: Item) => x.id > after, SeenAll(store, items))
  {
    if items != [] {
      FilterSeen(store, items[1..], after);
      assert SeenAll(store, items)[1..] == SeenAll(store, items[1..]);
      assert SeenAll(store, items)[0].id == items[0].id;
      SeenJoin(store, [items[0]], Filter((d: Delivery) => d.id > after, items[1..]));
    }
  }

  lemma KeptBeyond(store: map<nat, Entry>, next: nat, q: Queue, after: nat)
    requires QueueInv(store, next, q)
    ensures Kept(q.items, ThroughDelivery(q.items, after)) == Filter((d: Delivery) => d.id > after, q.items)
  {
    var gone := ThroughDelivery(q.items, after);
    forall d | d in q.items ensures d.source !in gone <==> d.id > after {
      if d.id > after { ThroughOnly(q, store, next, after, d); }
    }
    FilterAgree((d: Delivery) => d.source !in gone, (d: Delivery) => d.id > after, q.items);
  }

  lemma ReleasedView(l: Ledger, i: nat, after: nat)
    requires Inv(l) && i < SLOTS && Live(l, i)
    ensures var l' := ReleaseSlot(l, i, ThroughDelivery(l.slots[i].value.items, after));
            Viewed(l'.store, l'.slots[i].value) == Apply(Viewed(l.store, l.slots[i].value), Release(after))
  {
    hide Inv, QueueInv, ThroughDelivery, SeenAll, Kept;
    var q := l.slots[i].value;
    var gone := ThroughDelivery(q.items, after);
    var l' := ReleaseSlot(l, i, gone);
    InvSlots(l);
    ReleaseSlotInv(l, i, gone);
    InvSlots(l');
    KeptBeyond(l.store, l.next, q, after);
    FilterSeen(l'.store, q.items, after);
    FilterSeen(l.store, q.items, after);
    assert l'.slots[i] == Some(q.(items := Kept(q.items, gone)));
    SlotQueue(l', i);
    StoresAgree(l, l', l'.slots[i].value.items);
  }

  lemma StoresAgree(l: Ledger, l': Ledger, items: seq<Delivery>)
    requires SubStore(l'.store, l.store) && Stocked(l'.store, items)
    ensures SeenAll(l'.store, items) == SeenAll(l.store, items)
  {
    SeenAgree(l'.store, l.store, items);
  }

  lemma AckView(l: Ledger, epoch: Epoch, s: Step, l': Ledger, i: nat)
    requires Inv(l) && s.Ack? && SubscriptionAckStep(l, epoch, s.acker, s.acked, s.reply, l')
    requires i < SLOTS && Live(l, i) && Live(l', i)
    ensures Viewed(l'.store, l'.slots[i].value) == Apply(Viewed(l.store, l.slots[i].value), InputOf(l, s, l', i))
  {
    hide Inv, ReleaseSlot, ThroughDelivery, Viewed, StoreEvolves, Continues, QueueInv;
    InvSlots(l);
    if s.reply.Ok? {
      var k: nat :| IsSlot(l.slots, s.acker, k) && SlotAckStep(l, epoch, k, s.acked, s.reply, l');
      ReleaseSlotInv(l, k, ThroughDelivery(l.slots[k].value.items, s.acked.after));
      ReleaseSlotEvolves(l, k, ThroughDelivery(l.slots[k].value.items, s.acked.after), s);
      if k == i { ReleasedView(l, i, s.acked.after); } else { QuietView(l, l', i); }
    }
  }

  lemma OtherView(l: Ledger, epoch: Epoch, s: Step, l': Ledger, i: nat)
    requires Inv(l) && Taken(epoch, l, s, l') && !s.Record? && !s.Ack?
    requires i < SLOTS && Live(l, i) && Live(l', i)
    ensures Viewed(l'.store, l'.slots[i].value) == Viewed(l.store, l.slots[i].value)
  {
    hide Inv, ReleaseSlot, ReleaseOwner, Viewed, StoreEvolves, QueueInv, Evolves, Continues, Reads, OwnerReadStep, ValidScope;
    StepEvolves(epoch, l, s, l');
    InvSlots(l);
    if s.Close? && l' != l {
      var k: nat :| IsSlot(l.slots, s.closed, k) && l' == Closed(l, k);
      ReleaseSlotEvolves(l, k, SourcesIn(l.slots[k].value.items), s);
    } else if s.OwnerAck? && l' != l {
      AckedSlots(l, Through(l.owner, s.ownerAcked.after));
    }
    EvolvesParts(l, l', s);
    QuietView(l, l', i);
  }

  lemma AckedSlots(l: Ledger, gone: set<nat>)
    ensures ReleaseOwner(l, gone).slots == l.slots
  {
  }

  /** One step, for one subscriber, is one step of its private queue. */
  lemma StepView(epoch: Epoch, l: Ledger, s: Step, l': Ledger, i: nat)
    requires Inv(l) && Taken(epoch, l, s, l') && i < SLOTS && Live(l, i) && Live(l', i)
    requires s.Record? ==> Roomy(l, s.events, s.required)
    ensures Viewed(l'.store, l'.slots[i].value) == Apply(Viewed(l.store, l.slots[i].value), InputOf(l, s, l', i))
  {
    hide Inv, RecordStep, SubscriptionAckStep, Viewed, Roomy;
    if s.Record? {
      RecordView(l, s, l', i);
    } else if s.Ack? {
      AckView(l, epoch, s, l', i);
    } else {
      OtherView(l, epoch, s, l', i);
    }
  }

  /** The slot stays live and the shared budgets do not bind from `j` to `k`. */
  ghost predicate Undisturbed(r: Run, i: nat, j: nat, k: nat)
    requires j <= k < |r.states| == |r.steps| + 1
  {
    && (forall m :: j <= m <= k ==> Inv(r.states[m]) && Live(r.states[m], i))
    && (forall m :: j <= m < k && r.steps[m].Record? ==> Roomy(r.states[m], r.steps[m].events, r.steps[m].required))
  }

  ghost function Inputs(r: Run, i: nat, j: nat, k: nat): seq<Input>
    requires i < SLOTS && j <= k < |r.states| == |r.steps| + 1 && Undisturbed(r, i, j, k)
  {
    if j == k then [] else Inputs(r, i, j, k - 1) + [InputOf(r.states[k - 1], r.steps[k - 1], r.states[k], i)]
  }

  function Fold(p: Private, inputs: seq<Input>): Private {
    if inputs == [] then p else Apply(Fold(p, inputs[..|inputs| - 1]), inputs[|inputs| - 1])
  }

  /** While the shared budgets do not bind, a batch is retained exactly when
      recording is available, the batch is well shaped and, if it is required,
      no queue refuses it. A best-effort batch does not depend on any queue. */
  lemma RoomyFits(l: Ledger, events: seq<Event>, required: bool)
    requires Roomy(l, events, required)
    ensures Decide(l, events, required).Fits? <==>
              l.available && |events| <= l.maxEvents && Shaped(l, events) && !(required && SomeoneRefuses(l, events, required))
  {
    hide Local, Shaped, SomeoneRefuses, Removed, GlobalFits;
    var local := Local(l, events, required);
    assert LeastCut(local, events, 0) == 0;
    assert Surplus(local, events) == {};
  }

  /** So what a best-effort batch brings to one queue is decided without looking
      at any other: it arrives, or its ids are used up. */
  lemma BestEffortArrives(l: Ledger, s: Step, l': Ledger, i: nat)
    requires Inv(l) && s.Record? && !s.required && RecordStep(l, s.events, false, s.clock, s.verdict, l', s.out)
    requires i < SLOTS && Live(l, i) && Live(l', i) && Roomy(l, s.events, false)
    requires 1 <= |s.events| <= MAX_BATCH && !Overflows(l, s.events) && s.clock
    ensures InputOf(l, s, l', i) == Arrive(s.events, false) <==>
              l.available && |s.events| <= l.maxEvents && Shaped(l, s.events) && s.verdict.Ok?
    ensures InputOf(l, s, l', i) != Arrive(s.events, false) ==> InputOf(l, s, l', i).Miss?
  {
    hide Inv, Decide, Overflows, Shaped, Roomy, SomeoneRefuses, Publish, Advance;
    RoomyFits(l, s.events, false);
  }

  /** Over any stretch of any run in which the shared budgets do not bind, a
      subscriber's queue is the private queue fed with that subscriber's own
      inputs. Another consumer's pace can only show in it through a required
      batch that the other one's full queue refuses for all. */
  lemma {:induction false} RunIsPrivate(r: Run, i: nat, j: nat, k: nat)
    requires IsRun(r) && i < SLOTS && j <= k < |r.states| == |r.steps| + 1 && Undisturbed(r, i, j, k)
    ensures Viewed(r.states[k].store, r.states[k].slots[i].value)
            == Fold(Viewed(r.states[j].store, r.states[j].slots[i].value), Inputs(r, i, j, k))
    decreases k
  {
    hide IsRun, Inv, Taken, Viewed, Roomy, InputOf, Evolves;
    if j < k {
      assert Undisturbed(r, i, j, k - 1);
      RunIsPrivate(r, i, j, k - 1);
      RunStep(r, k - 1);
      StepView(r.epoch, r.states[k - 1], r.steps[k - 1], r.states[k], i);
      assert Inputs(r, i, j, k)[..k - 1 - j] == Inputs(r, i, j, k - 1) by { InputsLength(r, i, j, k - 1); }
      InputsLength(r, i, j, k);
    }
  }

  lemma {:induction false} InputsLength(r: Run, i: nat, j: nat, k: nat)
    requires i < SLOTS && j <= k < |r.states| == |r.steps| + 1 && Undisturbed(r, i, j, k)
    ensures |Inputs(r, i, j, k)| == k - j
    decreases k
  {
    hide InputOf, Inv, Roomy;
    if j < k { InputsLength(r, i, j, k - 1); }
  }

  /** While the shared budgets do not bind, the owner gets the whole of every
      best-effort batch, whatever slow subscribers lose. */
  lemma OwnerGetsAll(l: Ledger, s: Step, l': Ledger)
    requires Inv(l) && s.Record? && RecordStep(l, s.events, s.required, s.clock, s.verdict, l', s.out)
    requires !s.required && s.clock && s.verdict.Ok? && 1 <= |s.events| <= MAX_BATCH && |s.events| <= l.maxEvents
    requires l.available && Shaped(l, s.events) && !Overflows(l, s.events) && Roomy(l, s.events, false)
    ensures s.out.result.Ok? && s.out.calls == 1
    ensures l'.owner == l.owner + Sources(l.next, |s.events|)
    ensures forall id :: l.next <= id < l.next + |s.events| ==> id in l'.store && l'.store[id] == Entry(s.events[id - l.next], false)
  {
    hide Inv, Local, Shaped, Overflows, SomeoneRefuses;
    var local := Local(l, s.events, false);
    assert LeastCut(local, s.events, 0) == 0;
    assert Surplus(local, s.events) == {};
    RoomyBase(l, s.events, false);
    LocalParts(l, s.events, false);
    FitsBase(l, s.events, false);
    InvClaims(Decide(l, s.events, false).base);
    PublishedStore(l, Decide(l, s.events, false).base, s.events, false);
  }
}
