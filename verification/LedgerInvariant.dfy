/** Every ledger operation keeps the retention invariant. */
module LedgerInvariant {
  import opened Prelude
  import opened Events
  import opened Ledger

  // ---- Sums ----------------------------------------------------------------

  ghost predicate SubStore(a: map<nat, Entry>, b: map<nat, Entry>) {
    forall id :: id in a ==> id in b && a[id] == b[id]
  }

  lemma {:induction false} HeldAgree(a: map<nat, Entry>, b: map<nat, Entry>, what: Measure, lo: nat, hi: nat)
    requires forall id :: lo <= id < hi ==> ((id in a <==> id in b) && (id in a ==> a[id] == b[id]))
    ensures Held(a, what, lo, hi) == Held(b, what, lo, hi)
    decreases hi - lo
  {
    if lo < hi { HeldAgree(a, b, what, lo + 1, hi); }
  }

  lemma {:induction false} HeldSub(a: map<nat, Entry>, b: map<nat, Entry>, what: Measure, lo: nat, hi: nat)
    requires SubStore(a, b)
    ensures Held(a, what, lo, hi) <= Held(b, what, lo, hi)
    decreases hi - lo
  {
    if lo < hi { HeldSub(a, b, what, lo + 1, hi); }
  }

  /** Dropping one record lowers the sum by exactly its weight. */
  lemma {:induction false} HeldWithout(a: map<nat, Entry>, what: Measure, lo: nat, hi: nat, id: nat)
    requires id in a && lo <= id < hi
    ensures Held(a, what, lo, hi) == Held(a - {id}, what, lo, hi) + Weight(a[id].event, what)
    decreases hi - lo
  {
    if lo == id {
      HeldAgree(a, a - {id}, what, lo + 1, hi);
    } else {
      HeldWithout(a, what, lo + 1, hi, id);
    }
  }

  lemma {:induction false} HeldSplit(a: map<nat, Entry>, what: Measure, lo: nat, mid: nat, hi: nat)
    requires lo <= mid <= hi
    ensures Held(a, what, lo, hi) == Held(a, what, lo, mid) + Held(a, what, mid, hi)
    decreases mid - lo
  {
    if lo < mid { HeldSplit(a, what, lo + 1, mid, hi); }
  }

  lemma {:induction false} HeldNone(a: map<nat, Entry>, what: Measure, lo: nat, hi: nat)
    requires forall id :: lo <= id < hi ==> id !in a
    ensures Held(a, what, lo, hi) == 0
    decreases hi - lo
  {
    if lo < hi { HeldNone(a, what, lo + 1, hi); }
  }

  /** A published batch adds exactly its own measure. */
  lemma {:induction false} HeldRecorded(a: map<nat, Entry>, what: Measure, first: nat, events: seq<Event>)
    requires forall id :: first <= id < first + |events| ==> id in a && a[id].event == events[id - first]
    ensures Held(a, what, first, first + |events|) == Offered(events, what)
    decreases |events|
  {
    if events != [] {
      var n := |events| - 1;
      HeldRecorded(a, what, first, events[..n]);
      HeldSplit(a, what, first, first + n, first + |events|);
      assert Held(a, what, first + n, first + n + 1) == Weight(events[n], what);
    }
  }

  lemma {:induction false} QueueBytesAgree(a: map<nat, Entry>, b: map<nat, Entry>, items: seq<Delivery>)
    requires forall k :: 0 <= k < |items| ==>
               ((items[k].source in a <==> items[k].source in b)
                && (items[k].source in a ==> a[items[k].source] == b[items[k].source]))
    ensures QueueBytes(a, items) == QueueBytes(b, items)
  {
    if items != [] { QueueBytesAgree(a, b, items[1..]); }
  }

  lemma {:induction false} QueueBytesAppend(a: map<nat, Entry>, xs: seq<Delivery>, ys: seq<Delivery>)
    ensures QueueBytes(a, xs + ys) == QueueBytes(a, xs) + QueueBytes(a, ys)
  {
    if xs == [] {
      assert xs + ys == ys;
    } else {
      assert (xs + ys)[1..] == xs[1..] + ys;
      QueueBytesAppend(a, xs[1..], ys);
    }
  }

  lemma {:induction false} QueueBytesKept(a: map<nat, Entry>, items: seq<Delivery>, gone: set<nat>)
    ensures QueueBytes(a, Kept(items, gone)) <= QueueBytes(a, items)
    ensures |Kept(items, gone)| <= |items|
  {
    if items != [] {
      QueueBytesKept(a, items[1..], gone);
      if items[0].source !in gone {
        assert Kept(items, gone) == [items[0]] + Kept(items[1..], gone);
        assert Kept(items, gone)[1..] == Kept(items[1..], gone);
      }
    }
  }

  // ---- Filtering queues ----------------------------------------------------

  lemma KeptMembers(items: seq<Delivery>, gone: set<nat>)
    ensures forall d :: d in Kept(items, gone) <==> d in items && d.source !in gone
  {
    forall d ensures d in Kept(items, gone) <==> d in items && d.source !in gone {
      FilterMembers((d: Delivery) => d.source !in gone, items, d);
    }
  }

  lemma {:induction false} KeptOrdered(items: seq<Delivery>, gone: set<nat>)
    requires Ordered(items)
    ensures Ordered(Kept(items, gone))
  {
    if items != [] {
      KeptOrdered(items[1..], gone);
      KeptMembers(items[1..], gone);
      var rest := Kept(items[1..], gone);
      if items[0].source !in gone {
        assert Kept(items, gone) == [items[0]] + rest;
        forall k | 0 <= k < |rest| ensures items[0].id < rest[k].id && items[0].source < rest[k].source {
          assert rest[k] in items[1..];
        }
      }
    }
  }

  lemma OwnerKeptMembers(owner: seq<nat>, gone: set<nat>)
    ensures forall id :: id in OwnerKept(owner, gone) <==> id in owner && id !in gone
  {
    forall id ensures id in OwnerKept(owner, gone) <==> id in owner && id !in gone {
      FilterMembers((id: nat) => id !in gone, owner, id);
    }
  }

  lemma {:induction false} OwnerKeptIncreasing(owner: seq<nat>, gone: set<nat>)
    requires Increasing(owner)
    ensures Increasing(OwnerKept(owner, gone))
  {
    if owner != [] {
      OwnerKeptIncreasing(owner[1..], gone);
      OwnerKeptMembers(owner[1..], gone);
      var rest := OwnerKept(owner[1..], gone);
      if owner[0] !in gone {
        assert OwnerKept(owner, gone) == [owner[0]] + rest;
        forall k | 0 <= k < |rest| ensures owner[0] < rest[k] {
          assert rest[k] in owner[1..];
        }
      }
    }
  }

  lemma InQueueMember(items: seq<Delivery>, source: nat)
    ensures InQueue(items, source) <==> exists d :: d in items && d.source == source
  {
    if InQueue(items, source) {
      var k :| 0 <= k < |items| && items[k].source == source;
      assert items[k] in items;
    }
  }

  lemma KeptSources(items: seq<Delivery>, gone: set<nat>)
    ensures forall s :: InQueue(Kept(items, gone), s) <==> InQueue(items, s) && s !in gone
  {
    KeptMembers(items, gone);
    forall s ensures InQueue(Kept(items, gone), s) <==> InQueue(items, s) && s !in gone {
      InQueueMember(items, s);
      InQueueMember(Kept(items, gone), s);
    }
  }

  lemma KeptQueueInv(store: map<nat, Entry>, next: nat, q: Queue, gone: set<nat>)
    requires QueueInv(store, next, q)
    ensures QueueInv(store, next, q.(items := Kept(q.items, gone)))
  {
    KeptMembers(q.items, gone);
    KeptOrdered(q.items, gone);
    QueueBytesKept(store, q.items, gone);
    var kept := Kept(q.items, gone);
    forall k | 0 <= k < |kept|
      ensures 1 <= kept[k].id < q.next && kept[k].source in store && q.scope.Permits(store[kept[k].source].event)
    {
      assert kept[k] in q.items;
    }
  }

  // ---- Releasing keeps the invariant ---------------------------------------

  /** All of `Inv` except that unreferenced records may linger. */
  ghost predicate Loose(l: Ledger) {
    && |l.slots| == SLOTS
    && 1 <= l.next
    && Increasing(l.owner)
    && (forall id :: id in l.store ==> 1 <= id < l.next)
    && (forall id :: id in l.owner ==> id in l.store)
    && (forall i :: 0 <= i < SLOTS && l.slots[i].Some? ==> QueueInv(l.store, l.next, l.slots[i].value))
    && Budgets(l)
  }

  lemma PurgeQueueInv(l: Ledger, i: nat)
    requires Loose(l) && i < SLOTS && l.slots[i].Some?
    ensures QueueInv(Purge(l).store, l.next, l.slots[i].value)
  {
    var q := l.slots[i].value;
    forall k | 0 <= k < |q.items| ensures q.items[k].source in Purge(l).store {
      assert InSlot(l.slots[i], q.items[k].source);
    }
    QueueBytesAgree(l.store, Purge(l).store, q.items);
  }

  lemma PurgeInv(l: Ledger)
    requires Loose(l)
    ensures Inv(Purge(l))
  {
    var p := Purge(l);
    forall i | 0 <= i < SLOTS && p.slots[i].Some? ensures QueueInv(p.store, p.next, p.slots[i].value) {
      PurgeQueueInv(l, i);
    }
    HeldSub(p.store, l.store, Total, 0, l.next);
    HeldSub(p.store, l.store, Records, 0, l.next);
    forall s: SessionId ensures Held(p.store, Of(s), 0, p.next) <= SESSION_CAP {
      HeldSub(p.store, l.store, Of(s), 0, l.next);
    }
  }

  /** The owner may give up any references: unclaimed records go, claimed ones stay. */
  lemma ReleaseOwnerInv(l: Ledger, gone: set<nat>)
    requires Inv(l)
    ensures Inv(ReleaseOwner(l, gone))
  {
    OwnerKeptIncreasing(l.owner, gone);
    OwnerKeptMembers(l.owner, gone);
    PurgeInv(l.(owner := OwnerKept(l.owner, gone)));
  }

  /** So may a subscriber. */
  lemma ReleaseSlotInv(l: Ledger, i: nat, gone: set<nat>)
    requires Inv(l) && i < SLOTS
    ensures Inv(ReleaseSlot(l, i, gone))
  {
    if l.slots[i].Some? { KeptQueueInv(l.store, l.next, l.slots[i].value, gone); }
    PurgeInv(l.(slots := l.slots[i := SlotKept(l.slots[i], gone)]));
  }

  /** Dropping records restores the invariant, also from a state with unclaimed ones. */
  lemma RemoveInv(l: Ledger, gone: set<nat>)
    requires Loose(l)
    ensures Inv(Removed(l, gone))
  {
    OwnerKeptIncreasing(l.owner, gone);
    OwnerKeptMembers(l.owner, gone);
    var slots := SlotsKept(l.slots, gone);
    forall i | 0 <= i < SLOTS && slots[i].Some? ensures QueueInv(l.store, l.next, slots[i].value) {
      KeptQueueInv(l.store, l.next, l.slots[i].value, gone);
    }
    PurgeInv(l.(owner := OwnerKept(l.owner, gone), slots := slots));
  }

  lemma InitialInv(maxEvents: nat, maxBytes: nat)
    ensures Inv(Initial(maxEvents, maxBytes))
  {
    forall what ensures Held(map[], what, 0, 1) == 0 { HeldNone(map[], what, 0, 1); }
  }

  // ---- Recording keeps the invariant ---------------------------------------

  lemma DropQueueInv(store: map<nat, Entry>, next: nat, q: Queue, k: nat)
    requires QueueInv(store, next, q) && k <= |q.items|
    ensures QueueInv(store, next, q.(items := q.items[k..]))
    ensures QueueBytes(store, q.items[k..]) <= QueueBytes(store, q.items)
  {
    assert q.items == q.items[..k] + q.items[k..];
    QueueBytesAppend(store, q.items[..k], q.items[k..]);
  }

  lemma EvictedQueueInv(l: Ledger, events: seq<Event>, required: bool)
    requires Inv(l)
    ensures Loose(l.(slots := LocallyEvicted(l, events, required)))
    ensures Inv(Local(l, events, required))
  {
    var slots := LocallyEvicted(l, events, required);
    forall i | 0 <= i < SLOTS && slots[i].Some? ensures QueueInv(l.store, l.next, slots[i].value) {
      var q := l.slots[i].value;
      var p := LocalPlan(l.store, q, events, required);
      if p.Admit? { DropQueueInv(l.store, l.next, q, p.drop); }
    }
    PurgeInv(l.(slots := slots));
  }

  /** Deliveries with ids in [lo, hi) that refer to permitted records at or above `first`. */
  ghost predicate Fresh(store: map<nat, Entry>, scope: Scope, extra: seq<Delivery>, lo: nat, hi: nat, first: nat) {
    && Ordered(extra)
    && forall k :: 0 <= k < |extra| ==>
         && lo <= extra[k].id < hi
         && first <= extra[k].source
         && extra[k].source in store
         && scope.Permits(store[extra[k].source].event)
  }

  ghost predicate Holds(store: map<nat, Entry>, first: nat, events: seq<Event>) {
    forall s :: first <= s < first + |events| ==> s in store && store[s].event == events[s - first]
  }

  /** Deliveries offered to one queue are numbered consecutively, in source order. */
  lemma {:induction false} OffersNumbered(scope: Scope, events: seq<Event>, id: nat, source: nat)
    ensures var o := Offers(scope, events, id, source);
            && |o| == Selected(scope, events)
            && forall k :: 0 <= k < |o| ==> o[k].id == id + k && source <= o[k].source < source + |events|
    decreases |events|
  {
    if events != [] { OffersNumbered(scope, events[..|events| - 1], id, source); }
  }

  lemma {:induction false} OffersFresh(store: map<nat, Entry>, scope: Scope, events: seq<Event>, id: nat, source: nat)
    requires Holds(store, source, events)
    ensures Fresh(store, scope, Offers(scope, events, id, source), id, id + Selected(scope, events), source)
    decreases |events|
  {
    if events != [] {
      var n := |events| - 1;
      OffersFresh(store, scope, events[..n], id, source);
      OffersNumbered(scope, events[..n], id, source);
      if scope.Permits(events[n]) { assert source + n in store; }
    }
  }

  lemma {:induction false} OffersBytes(store: map<nat, Entry>, scope: Scope, events: seq<Event>, id: nat, source: nat)
    requires Holds(store, source, events)
    ensures QueueBytes(store, Offers(scope, events, id, source)) == SelectedBytes(scope, events)
    decreases |events|
  {
    if events != [] {
      var n := |events| - 1;
      OffersBytes(store, scope, events[..n], id, source);
      var front := Offers(scope, events[..n], id, source);
      if scope.Permits(events[n]) {
        var last := [Delivery(id + Selected(scope, events[..n]), source + n)];
        QueueBytesAppend(store, front, last);
        assert source + n in store;
        assert QueueBytes(store, last) == events[n].encoded + QueueBytes(store, last[1..]);
      } else {
        QueueBytesAppend(store, front, []);
      }
    }
  }

  lemma KeptAll(items: seq<Delivery>, gone: set<nat>)
    requires forall k :: 0 <= k < |items| ==> items[k].source !in gone
    ensures Kept(items, gone) == items
  {
    FilterAll((d: Delivery) => d.source !in gone, items);
  }

  /** Appending freshly numbered deliveries keeps one queue consistent. */
  lemma AppendQueueInv(store: map<nat, Entry>, next: nat, q: Queue, extra: seq<Delivery>, delivered: nat, first: nat)
    requires QueueInv(store, next, q)
    requires q.next <= delivered
    requires forall k :: 0 <= k < |q.items| ==> q.items[k].source < first
    requires Fresh(store, q.scope, extra, q.next, delivered, first)
    requires |q.items| + |extra| <= q.limits.maxEvents
    requires QueueBytes(store, q.items) + QueueBytes(store, extra) <= q.limits.maxBytes
    ensures QueueInv(store, next, q.(next := delivered, items := q.items + extra))
  {
    QueueBytesAppend(store, q.items, extra);
  }

  lemma GrownQueueInv(kept: map<nat, Entry>, full: map<nat, Entry>, q: Queue, next: nat, next': nat)
    requires QueueInv(kept, next, q) && SubStore(kept, full)
    ensures QueueInv(full, next', q)
    ensures QueueBytes(full, q.items) == QueueBytes(kept, q.items)
  {
    QueueBytesAgree(kept, full, q.items);
  }

  /** One subscriber queue after the batch; `kept` is the store after eviction
      and `full` the store after publication. */
  lemma ExtendedQueueInv(kept: map<nat, Entry>, full: map<nat, Entry>, b: Queue, events: seq<Event>, first: nat, accepting: bool)
    requires QueueInv(kept, first, b)
    requires SubStore(kept, full)
    requires forall id :: id in kept ==> id < first
    requires Holds(full, first, events)
    requires accepting ==>
               && |b.items| + Selected(b.scope, events) <= b.limits.maxEvents
               && QueueBytes(kept, b.items) + SelectedBytes(b.scope, events) <= b.limits.maxBytes
    ensures QueueInv(full, first + |events|, Extended(b, events, first, accepting))
  {
    GrownQueueInv(kept, full, b, first, first + |events|);
    if accepting {
      OffersNumbered(b.scope, events, b.next, first);
      OffersFresh(full, b.scope, events, b.next, first);
      OffersBytes(full, b.scope, events, b.next, first);
      AppendQueueInv(full, first + |events|, b, Offers(b.scope, events, b.next, first), b.next + Selected(b.scope, events), first);
    } else {
      assert b.items + [] == b.items;
    }
  }

  /** The slot shapes that `Publish` needs. */
  ghost predicate SameSlots(a: Ledger, b: Ledger) {
    |a.slots| == |b.slots| && forall i :: 0 <= i < |a.slots| ==> (b.slots[i].Some? <==> a.slots[i].Some?)
  }

  lemma SurplusGone(local: Ledger, events: seq<Event>)
    requires Inv(local)
    ensures var base := Removed(local, Surplus(local, events));
            && Inv(base)
            && SubStore(base.store, local.store)
            && forall id :: id in base.store ==> id >= LeastCut(local, events, 0)
  {
    hide Inv, Removed, LeastCut, GlobalFits;
    var gone := Surplus(local, events);
    var base := Removed(local, gone);
    LooseToo(local);
    RemoveInv(local, gone);
    forall id | id in base.store ensures id !in gone && id in local.store && base.store[id] == local.store[id] { RemovedGone(local, gone, id); }
  }

  lemma LooseToo(l: Ledger)
    requires Inv(l)
    ensures Loose(l)
  {
  }

  /** Nothing that was dropped from every queue is still stored. */
  lemma RemovedGone(l: Ledger, gone: set<nat>, id: nat)
    requires id in Removed(l, gone).store
    ensures id !in gone && id in l.store && Removed(l, gone).store[id] == l.store[id]
  {
    hide OwnerKept, Kept;
    var base := Removed(l, gone);
    OwnerKeptMembers(l.owner, gone);
    if id !in base.owner {
      var i :| 0 <= i < |base.slots| && InSlot(base.slots[i], id);
      KeptSources(l.slots[i].value.items, gone);
    }
  }

  /** What `Decide` guarantees about the evicted ledger. */
  lemma FitsBase(l: Ledger, events: seq<Event>, required: bool)
    requires Inv(l)
    requires Decide(l, events, required).Fits?
    ensures var base := Decide(l, events, required).base;
            && Inv(base)
            && base == l.(store := base.store, owner := base.owner, slots := base.slots)
            && SubStore(base.store, l.store)
            && SameSlots(l, base)
  {
    EvictedQueueInv(l, events, required);
    SurplusGone(Local(l, events, required), events);
  }

  lemma FitsSlot(l: Ledger, events: seq<Event>, required: bool, i: nat)
    requires Inv(l) && i < SLOTS && l.slots[i].Some?
    requires Decide(l, events, required).Fits?
    ensures var e := Evicted(l.store, l.slots[i].value, events, required);
            Decide(l, events, required).base.slots[i]
            == Some(e.(items := Kept(e.items, Surplus(Local(l, events, required), events))))
  {
  }

  lemma FitsQueues(l: Ledger, events: seq<Event>, required: bool, i: nat)
    requires Inv(l) && i < SLOTS && l.slots[i].Some?
    requires Decide(l, events, required).Fits?
    requires Accepting(l.store, l.slots[i].value, events, required)
    ensures var b := Decide(l, events, required).base; var q := l.slots[i].value;
            && b.slots[i].Some?
            && |b.slots[i].value.items| + Selected(q.scope, events) <= q.limits.maxEvents
            && QueueBytes(b.store, b.slots[i].value.items) + SelectedBytes(q.scope, events) <= q.limits.maxBytes
  {
    FitsBase(l, events, required);
    FitsSlot(l, events, required, i);
    var base := Decide(l, events, required).base;
    var q := l.slots[i].value;
    var k := LocalPlan(l.store, q, events, required).drop;
    if k == |q.items| { assert q.items[k..] == []; }
    assert LocalFits(l.store, q, events, k);
    QueueBytesKept(l.store, q.items[k..], Surplus(Local(l, events, required), events));
    var items := base.slots[i].value.items;
    assert QueueInv(base.store, base.next, base.slots[i].value);
    QueueBytesAgree(base.store, l.store, items);
  }

  lemma PublishedMeasure(l: Ledger, events: seq<Event>, base: Ledger, local: Ledger, store: map<nat, Entry>, cut: nat, what: Measure)
    requires cut <= l.next && SubStore(base.store, local.store)
    requires forall id :: id in base.store ==> cut <= id < l.next
    requires SubStore(base.store, store) && Holds(store, l.next, events)
    requires forall id :: id in store && id < l.next ==> id in base.store
    ensures Held(store, what, 0, l.next + |events|) <= Held(local.store, what, cut, l.next) + Offered(events, what)
  {
    HeldSplit(store, what, 0, l.next, l.next + |events|);
    HeldAgree(store, base.store, what, 0, l.next);
    HeldRecorded(store, what, l.next, events);
    HeldSplit(base.store, what, 0, cut, l.next);
    HeldNone(base.store, what, 0, cut);
    HeldSub(base.store, local.store, what, cut, l.next);
  }

  lemma PublishedStore(l: Ledger, base: Ledger, events: seq<Event>, required: bool)
    requires SameSlots(l, base)
    requires forall id :: id in base.store ==> id < l.next
    ensures var p := Publish(l, base, events, required);
            && SubStore(base.store, p.store) && Holds(p.store, l.next, events)
            && (forall id :: id in p.store && id < l.next ==> id in base.store)
            && (forall id :: l.next <= id < l.next + |events| ==> p.store[id] == Entry(events[id - l.next], required))
  {
  }

  lemma PublishBudgets(l: Ledger, events: seq<Event>, required: bool)
    requires Inv(l)
    requires Decide(l, events, required).Fits?
    ensures SameSlots(l, Decide(l, events, required).base)
    ensures Budgets(Publish(l, Decide(l, events, required).base, events, required))
  {
    FitsBase(l, events, required);
    var base := Decide(l, events, required).base;
    var local := Local(l, events, required);
    EvictedQueueInv(l, events, required);
    SurplusGone(local, events);
    var cut := LeastCut(local, events, 0);
    var p := Publish(l, base, events, required);
    PublishedStore(l, base, events, required);
    assert GlobalFits(local, events, cut);
    PublishedMeasure(l, events, base, local, p.store, cut, Total);
    PublishedMeasure(l, events, base, local, p.store, cut, Records);
    forall s: SessionId ensures Held(p.store, Of(s), 0, p.next) <= SESSION_CAP {
      PublishedMeasure(l, events, base, local, p.store, cut, Of(s));
      assert Held(local.store, Of(s), cut, local.next) + Offered(events, Of(s)) <= SESSION_CAP;
    }
  }

  lemma PublishOwner(l: Ledger, base: Ledger, events: seq<Event>, required: bool)
    requires Inv(base) && base.next == l.next && SameSlots(l, base)
    ensures var p := Publish(l, base, events, required);
            && Increasing(p.owner)
            && (forall id :: id in p.store ==> 1 <= id < p.next)
            && (forall id :: id in p.owner ==> id in p.store)
            && (forall id :: id in p.store && id >= l.next ==> id in p.owner)
  {
    var p := Publish(l, base, events, required);
    forall k | 0 <= k < |base.owner| ensures base.owner[k] < l.next { assert base.owner[k] in base.owner; }
    forall id | id in p.store && id >= l.next ensures id in p.owner {
      assert p.owner[|base.owner| + id - l.next] == id;
    }
  }

  lemma PublishClaims(l: Ledger, base: Ledger, events: seq<Event>, required: bool, id: nat)
    requires SameSlots(l, base)
    requires id in base.owner || Claimed(base.slots, id)
    ensures var p := Publish(l, base, events, required);
            id in p.owner || Claimed(p.slots, id)
  {
    var p := Publish(l, base, events, required);
    if id in base.owner {
      assert id in p.owner;
    } else {
      var i :| 0 <= i < |base.slots| && InSlot(base.slots[i], id);
      var k :| 0 <= k < |base.slots[i].value.items| && base.slots[i].value.items[k].source == id;
      assert p.slots[i].value.items[k].source == id;
      assert InSlot(p.slots[i], id);
    }
  }

  lemma PublishQueueInv(l: Ledger, events: seq<Event>, required: bool, i: nat)
    requires Inv(l) && i < SLOTS && l.slots[i].Some?
    requires Decide(l, events, required).Fits?
    requires SameSlots(l, Decide(l, events, required).base)
    ensures var p := Publish(l, Decide(l, events, required).base, events, required);
            QueueInv(p.store, p.next, p.slots[i].value)
  {
    var base := Decide(l, events, required).base;
    FitsBase(l, events, required);
    FitsSlot(l, events, required, i);
    if Accepting(l.store, l.slots[i].value, events, required) { FitsQueues(l, events, required, i); }
    var p := Publish(l, base, events, required);
    PublishedStore(l, base, events, required);
    assert p.slots[i].value == Extended(base.slots[i].value, events, l.next, Accepting(l.store, l.slots[i].value, events, required));
    ExtendedQueueInv(base.store, p.store, base.slots[i].value, events, l.next, Accepting(l.store, l.slots[i].value, events, required));
  }

  /** An accepted batch keeps every clause of the retention invariant. */
  lemma RecordInv(l: Ledger, events: seq<Event>, required: bool)
    requires Inv(l)
    requires Decide(l, events, required).Fits?
    ensures SameSlots(l, Decide(l, events, required).base)
    ensures Inv(Publish(l, Decide(l, events, required).base, events, required))
  {
    FitsBase(l, events, required);
    var base := Decide(l, events, required).base;
    var p := Publish(l, base, events, required);
    PublishOwner(l, base, events, required);
    forall id | id in p.store && id !in p.owner ensures Claimed(p.slots, id) {
      PublishClaims(l, base, events, required, id);
    }
    PublishBudgets(l, events, required);
    forall i | 0 <= i < SLOTS && p.slots[i].Some? ensures QueueInv(p.store, p.next, p.slots[i].value) {
      PublishQueueInv(l, events, required, i);
    }
  }

  lemma MovedClaims(l: Ledger, l': Ledger, events: seq<Event>, id: nat)
    requires IdentitiesMoved(l, l', events)
    ensures Claimed(l'.slots, id) <==> Claimed(l.slots, id)
  {
    forall i | 0 <= i < |l.slots| ensures InSlot(l'.slots[i], id) <==> InSlot(l.slots[i], id) {
      assert SlotMoved(l.slots[i], l'.slots[i], events);
    }
    if Claimed(l.slots, id) {
      var i :| 0 <= i < |l.slots| && InSlot(l.slots[i], id);
      assert InSlot(l'.slots[i], id);
    }
  }

  lemma MovedBudgets(l: Ledger, l': Ledger, events: seq<Event>)
    requires Budgets(l) && IdentitiesMoved(l, l', events) && forall id :: id in l.store ==> id < l.next
    ensures Budgets(l')
  {
    forall what ensures Held(l'.store, what, 0, l'.next) == Held(l.store, what, 0, l.next) {
      HeldSplit(l.store, what, 0, l.next, l'.next);
      HeldNone(l.store, what, l.next, l'.next);
    }
  }

  /** Consuming identities alone keeps the invariant. */
  lemma MovedInv(l: Ledger, l': Ledger, events: seq<Event>)
    requires Inv(l) && IdentitiesMoved(l, l', events)
    ensures Inv(l')
  {
    hide Claimed, Budgets;
    forall id ensures Claimed(l'.slots, id) <==> Claimed(l.slots, id) { MovedClaims(l, l', events, id); }
    MovedBudgets(l, l', events);
    forall i | 0 <= i < SLOTS && l'.slots[i].Some? ensures QueueInv(l'.store, l'.next, l'.slots[i].value) {
      assert SlotMoved(l.slots[i], l'.slots[i], events);
      assert QueueInv(l.store, l.next, l.slots[i].value);
    }
  }

  lemma AdvanceMoves(l: Ledger, events: seq<Event>)
    ensures IdentitiesMoved(l, Advance(l, events), events)
  {
  }

  lemma AdvanceInv(l: Ledger, events: seq<Event>)
    requires Inv(l)
    ensures Inv(Advance(l, events))
  {
    hide Inv;
    AdvanceMoves(l, events);
    MovedInv(l, Advance(l, events), events);
  }
}
