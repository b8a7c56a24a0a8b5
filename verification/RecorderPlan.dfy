/** Facts that connect the recorder's planning loops to the ledger's decision. */
module RecorderPlan {
  import opened Prelude
  import opened Events
  import opened Ledger
  import opened LedgerInvariant

  // ---- Plans do not depend on delivery numbering ---------------------------

  lemma {:induction false} LeastDropUnnumbered(store: map<nat, Entry>, q: Queue, next: nat, events: seq<Event>, k: nat)
    requires k <= |q.items|
    ensures LeastDrop(store, q.(next := next), events, k) == LeastDrop(store, q, events, k)
    decreases |q.items| - k
  {
    if k < |q.items| && !LocalFits(store, q, events, k) {
      LeastDropUnnumbered(store, q, next, events, k + 1);
    }
  }

  lemma LocalPlanUnnumbered(store: map<nat, Entry>, q: Queue, next: nat, events: seq<Event>, required: bool)
    ensures LocalPlan(store, q.(next := next), events, required) == LocalPlan(store, q, events, required)
  {
    LeastDropUnnumbered(store, q, next, events, 0);
  }

  // ---- Dropping the oldest deliveries --------------------------------------

  ghost function SourcesOf(items: seq<Delivery>): set<nat> {
    set k | 0 <= k < |items| :: items[k].source
  }

  /** Releasing the sources of the oldest `k` deliveries drops exactly those. */
  lemma KeptDrop(items: seq<Delivery>, k: nat)
    requires Ordered(items) && k <= |items|
    ensures Kept(items, SourcesOf(items[..k])) == items[k..]
  {
    var gone := SourcesOf(items[..k]);
    assert items == items[..k] + items[k..];
    FilterAppend((d: Delivery) => d.source !in gone, items[..k], items[k..]);
    forall d | d in items[..k] ensures d.source in gone {
      var j :| 0 <= j < k && items[..k][j] == d;
    }
    forall d | d in items[k..] ensures d.source !in gone {
      var j :| k <= j < |items| && items[j] == d;
    }
    FilterNone((d: Delivery) => d.source !in gone, items[..k]);
    FilterAll((d: Delivery) => d.source !in gone, items[k..]);
  }

  lemma KeptNothingGone(items: seq<Delivery>)
    ensures Kept(items, {}) == items
  {
    KeptAll(items, {});
  }

  lemma {:induction false} OfferedMonotone(events: seq<Event>, what: Measure, k: nat)
    requires k <= |events|
    ensures Offered(events[..k], what) <= Offered(events, what)
    decreases |events|
  {
    var n := |events|;
    if k < n {
      assert events[..n - 1][..k] == events[..k];
      OfferedMonotone(events[..n - 1], what, k);
    } else {
      assert events[..k] == events;
    }
  }

  // ---- Renumbering ---------------------------------------------------------

  /** `p` with the identity counters of `a`. */
  ghost function Renumber(p: Ledger, a: Ledger): Ledger
    requires SameSlots(p, a)
  {
    p.(next := a.next,
       slots := seq(|p.slots|, i requires 0 <= i < |p.slots| =>
                  if p.slots[i].None? then None
                  else Some(p.slots[i].value.(next := a.slots[i].value.next))))
  }

  lemma RenumberAdvance(l: Ledger, events: seq<Event>)
    ensures SameSlots(l, Advance(l, events))
    ensures Advance(l, events) == Renumber(l, Advance(l, events))
  {
  }

  lemma RenumberPurge(p: Ledger, a: Ledger)
    requires SameSlots(p, a)
    ensures Purge(Renumber(p, a)) == Renumber(Purge(p), a)
  {
    var r := Renumber(p, a);
    forall i, id | 0 <= i < |p.slots| ensures InSlot(r.slots[i], id) <==> InSlot(p.slots[i], id) {}
    forall id ensures Claimed(r.slots, id) <==> Claimed(p.slots, id) {
      if Claimed(p.slots, id) {
        var i :| 0 <= i < |p.slots| && InSlot(p.slots[i], id);
        assert InSlot(r.slots[i], id);
      }
    }
  }

  lemma RenumberReleaseSlot(p: Ledger, a: Ledger, i: nat, gone: set<nat>)
    requires SameSlots(p, a) && i < |p.slots|
    ensures SameSlots(ReleaseSlot(p, i, gone), a)
    ensures ReleaseSlot(Renumber(p, a), i, gone) == Renumber(ReleaseSlot(p, i, gone), a)
  {
    var q := p.(slots := p.slots[i := SlotKept(p.slots[i], gone)]);
    RenumberPurge(q, a);
    var r := Renumber(p, a);
    assert r.(slots := r.slots[i := SlotKept(r.slots[i], gone)]) == Renumber(q, a);
  }

  lemma RenumberRemoved(p: Ledger, a: Ledger, gone: set<nat>)
    requires SameSlots(p, a)
    ensures SameSlots(Removed(p, gone), a)
    ensures Removed(Renumber(p, a), gone) == Renumber(Removed(p, gone), a)
  {
    var q := p.(owner := OwnerKept(p.owner, gone), slots := SlotsKept(p.slots, gone));
    RenumberPurge(q, a);
    var r := Renumber(p, a);
    assert SlotsKept(r.slots, gone) == Renumber(q, a).slots;
    assert r.(owner := OwnerKept(r.owner, gone), slots := SlotsKept(r.slots, gone)) == Renumber(q, a);
  }

  // ---- Evicting slot by slot -----------------------------------------------

  /** The slots below `i` evicted, the others not yet. */
  ghost function Partly(l: Ledger, events: seq<Event>, required: bool, i: nat): seq<Option<Queue>> {
    seq(|l.slots|, j requires 0 <= j < |l.slots| =>
      if j < i then LocallyEvicted(l, events, required)[j] else l.slots[j])
  }

  ghost function LocalDrops(l: Ledger, events: seq<Event>, required: bool, i: nat): set<nat>
    requires i < |l.slots|
  {
    if l.slots[i].None? then {}
    else match LocalPlan(l.store, l.slots[i].value, events, required)
         case Admit(k) => SourcesOf(l.slots[i].value.items[..k])
         case _ => {}
  }

  lemma PurgeTwice(x: Ledger, y: Ledger)
    requires y == x.(owner := y.owner, slots := y.slots)
    requires forall id :: id in y.owner || Claimed(y.slots, id) ==> id in x.owner || Claimed(x.slots, id)
    ensures Purge(Purge(x).(owner := y.owner, slots := y.slots)) == Purge(y)
  {
  }

  lemma EvictedSlot(l: Ledger, events: seq<Event>, required: bool, i: nat)
    requires i < |l.slots| && (l.slots[i].Some? ==> Ordered(l.slots[i].value.items))
    ensures SlotKept(l.slots[i], LocalDrops(l, events, required, i)) == LocallyEvicted(l, events, required)[i]
  {
    if l.slots[i].Some? {
      var q := l.slots[i].value;
      match LocalPlan(l.store, q, events, required)
      case Admit(k) => KeptDrop(q.items, k);
      case _ => KeptNothingGone(q.items);
    }
  }

  lemma KeptClaims(slots: seq<Option<Queue>>, i: nat, gone: set<nat>, id: nat)
    requires i < |slots|
    requires Claimed(slots[i := SlotKept(slots[i], gone)], id)
    ensures Claimed(slots, id)
  {
    var kept := slots[i := SlotKept(slots[i], gone)];
    var j :| 0 <= j < |slots| && InSlot(kept[j], id);
    if j == i { KeptSources(slots[i].value.items, gone); }
    assert InSlot(slots[j], id);
  }

  /** One more consumer makes its own room. */
  lemma EvictOneMore(l: Ledger, events: seq<Event>, required: bool, i: nat)
    requires i < |l.slots| && (l.slots[i].Some? ==> Ordered(l.slots[i].value.items))
    ensures ReleaseSlot(Purge(l.(slots := Partly(l, events, required, i))), i, LocalDrops(l, events, required, i))
            == Purge(l.(slots := Partly(l, events, required, i + 1)))
  {
    hide LocallyEvicted, LocalDrops, Claimed;
    var x := l.(slots := Partly(l, events, required, i));
    var gone := LocalDrops(l, events, required, i);
    var slots := x.slots[i := SlotKept(x.slots[i], gone)];
    EvictedSlot(l, events, required, i);
    PartlyNext(l, events, required, i);
    forall id | Claimed(slots, id) ensures Claimed(x.slots, id) { KeptClaims(x.slots, i, gone, id); }
    PurgeTwice(x, x.(slots := slots));
  }

  lemma PartlyNext(l: Ledger, events: seq<Event>, required: bool, i: nat)
    requires i < |l.slots|
    ensures Partly(l, events, required, i)[i] == l.slots[i]
    ensures Partly(l, events, required, i + 1) == Partly(l, events, required, i)[i := LocallyEvicted(l, events, required)[i]]
    ensures Partly(l, events, required, 0) == l.slots
    ensures Partly(l, events, required, |l.slots|) == LocallyEvicted(l, events, required)
  {
  }

  /** Orphans are in no queue, so removing them too changes nothing. */
  lemma RemovedOrphans(local: Ledger, orphans: set<nat>, gone: set<nat>)
    requires forall id :: id in orphans ==> id !in local.owner && !Claimed(local.slots, id)
    ensures Removed(local, orphans + gone) == Removed(local, gone)
  {
    FilterAgree((id: nat) => id !in orphans + gone, (id: nat) => id !in gone, local.owner);
    forall i | 0 <= i < |local.slots| ensures SlotKept(local.slots[i], orphans + gone) == SlotKept(local.slots[i], gone) {
      if local.slots[i].Some? {
        var items := local.slots[i].value.items;
        forall d | d in items ensures d.source !in orphans {
          var k :| 0 <= k < |items| && items[k] == d;
          assert InSlot(local.slots[i], d.source);
        }
        FilterAgree((d: Delivery) => d.source !in orphans + gone, (d: Delivery) => d.source !in gone, items);
      }
    }
    assert SlotsKept(local.slots, orphans + gone) == SlotsKept(local.slots, gone);
  }

  // ---- Which consumers take which event ------------------------------------

  /** `deliveries` says who gets which event, with refusals below slot `i` applied. */
  ghost predicate Chosen(l: Ledger, events: seq<Event>, required: bool, deliveries: seq<map<nat, nat>>, i: nat) {
    && |deliveries| == |events|
    && forall j :: 0 <= j < |events| ==> ChosenFor(l, events, required, j, deliveries[j], i)
  }

  ghost predicate ChosenFor(l: Ledger, events: seq<Event>, required: bool, j: nat, m: map<nat, nat>, i: nat)
    requires j < |events|
  {
    forall k: nat ::
      && (k in m <==> k < |l.slots| && Takes(l, events, required, j, k, i))
      && (k in m ==> m[k] == l.slots[k].value.next + Selected(l.slots[k].value.scope, events[..j]))
  }

  ghost predicate Takes(l: Ledger, events: seq<Event>, required: bool, j: nat, k: nat, i: nat)
    requires j < |events| && k < |l.slots|
  {
    && l.slots[k].Some? && l.slots[k].value.scope.Permits(events[j])
    && (k < i ==> Accepting(l.store, l.slots[k].value, events, required))
  }

  lemma {:induction false} SelectsNone(scope: Scope, events: seq<Event>, j: nat)
    requires j < |events| && scope.Permits(events[j])
    ensures Selected(scope, events) > 0
    decreases |events|
  {
    var n := |events| - 1;
    if j < n { SelectsNone(scope, events[..n], j); }
  }

  /** Moving on to the next consumer: a refusal removes it from every event. */
  lemma ChosenNext(l: Ledger, events: seq<Event>, required: bool, deliveries: seq<map<nat, nat>>, i: nat)
    requires i < |l.slots| && Chosen(l, events, required, deliveries, i)
    ensures l.slots[i].None? || !LocalPlan(l.store, l.slots[i].value, events, required).Refuse?
            ==> Chosen(l, events, required, deliveries, i + 1)
    ensures l.slots[i].Some? && LocalPlan(l.store, l.slots[i].value, events, required).Refuse?
            ==> Chosen(l, events, required, Without(deliveries, i), i + 1)
  {
    if l.slots[i].None? || !LocalPlan(l.store, l.slots[i].value, events, required).Refuse? {
      forall j | 0 <= j < |events| ensures ChosenFor(l, events, required, j, deliveries[j], i + 1) {
        assert ChosenFor(l, events, required, j, deliveries[j], i);
        if l.slots[i].Some? && l.slots[i].value.scope.Permits(events[j]) {
          SelectsNone(l.slots[i].value.scope, events, j);
        }
      }
    } else {
      forall j | 0 <= j < |events| ensures ChosenFor(l, events, required, j, Without(deliveries, i)[j], i + 1) {
        assert ChosenFor(l, events, required, j, deliveries[j], i);
      }
    }
  }

  function Without(deliveries: seq<map<nat, nat>>, i: nat): seq<map<nat, nat>> {
    seq(|deliveries|, j requires 0 <= j < |deliveries| => deliveries[j] - {i})
  }

  lemma HeldBeyond(store: map<nat, Entry>, what: Measure, hi: nat, hi': nat)
    requires hi <= hi' && forall id :: id in store ==> id < hi
    ensures Held(store, what, 0, hi') == Held(store, what, 0, hi)
  {
    HeldSplit(store, what, 0, hi, hi');
    HeldNone(store, what, hi, hi');
  }

  // ---- Counting ------------------------------------------------------------

  lemma {:induction false} HeldCount(store: map<nat, Entry>, hi: nat)
    requires forall id :: id in store ==> id < hi
    ensures Held(store, Records, 0, hi) == |store|
    decreases |store|
  {
    if store == map[] {
      HeldNone(store, Records, 0, hi);
    } else {
      var id :| id in store;
      HeldWithout(store, Records, 0, hi, id);
      assert (store - {id}).Keys == store.Keys - {id};
      HeldCount(store - {id}, hi);
    }
  }

  lemma {:induction false} OfferedCount(events: seq<Event>)
    ensures Offered(events, Records) == |events|
    decreases |events|
  {
    if events != [] { OfferedCount(events[..|events| - 1]); }
  }

  /** A record survives local eviction iff the owner or an undropped claim holds it. */
  lemma LocalSurvivor(l: Ledger, events: seq<Event>, required: bool, id: nat)
    requires Inv(l) && id in l.store
    ensures id in Local(l, events, required).store <==>
            id in l.owner || exists i :: 0 <= i < SLOTS && InSlot(l.slots[i], id) && id !in LocalDrops(l, events, required, i)
  {
    var evicted := LocallyEvicted(l, events, required);
    forall i | 0 <= i < SLOTS
      ensures InSlot(evicted[i], id) <==> InSlot(l.slots[i], id) && id !in LocalDrops(l, events, required, i)
    {
      EvictedSlot(l, events, required, i);
      if l.slots[i].Some? { KeptSources(l.slots[i].value.items, LocalDrops(l, events, required, i)); }
    }
    assert id in Local(l, events, required).store <==> id in l.owner || Claimed(evicted, id);
    if Claimed(evicted, id) {
      var i :| 0 <= i < |evicted| && InSlot(evicted[i], id);
      assert InSlot(l.slots[i], id) && id !in LocalDrops(l, events, required, i);
    }
  }
}
