/** What every consumer of the recorder can rely on over a whole run, however
    recording, eviction, reading, acknowledging and closing interleave. */
module Runs {
  import opened Prelude
  import opened Events
  import opened Ledger
  import opened LedgerInvariant
  import opened Paging
  import opened Consumers
  import opened Evolution

  datatype Run = Run(epoch: Epoch, states: seq<Ledger>, steps: seq<Step>)

  ghost predicate IsRun(r: Run) {
    && |r.states| == |r.steps| + 1
    && (exists maxEvents: nat, maxBytes: nat :: r.states[0] == Initial(maxEvents, maxBytes))
    && forall k :: 0 <= k < |r.steps| ==> StepAt(r, k)
  }

  ghost predicate StepAt(r: Run, k: nat)
    requires k < |r.steps| && |r.states| == |r.steps| + 1
  {
    Inv(r.states[k]) ==> Taken(r.epoch, r.states[k], r.steps[k], r.states[k + 1])
  }

  /** The retention invariant holds in every state of every run. */
  lemma {:induction false} RunInv(r: Run, k: nat)
    requires IsRun(r) && k < |r.states|
    ensures Inv(r.states[k])
  {
    hide Inv, Evolves, Taken;
    if k == 0 {
      var maxEvents: nat, maxBytes: nat :| r.states[0] == Initial(maxEvents, maxBytes);
      InitialInv(maxEvents, maxBytes);
    } else {
      RunInv(r, k - 1);
      assert StepAt(r, k - 1);
      StepEvolves(r.epoch, r.states[k - 1], r.steps[k - 1], r.states[k]);
      EvolvesParts(r.states[k - 1], r.states[k], r.steps[k - 1]);
    }
  }

  lemma RunShape(r: Run)
    requires IsRun(r)
    ensures |r.states| == |r.steps| + 1
    ensures forall i :: 0 <= i < |r.states[0].slots| ==> r.states[0].slots[i].None?
  {
  }

  lemma RunStep(r: Run, k: nat)
    requires IsRun(r) && k < |r.steps|
    ensures Inv(r.states[k]) && Taken(r.epoch, r.states[k], r.steps[k], r.states[k + 1])
    ensures Evolves(r.states[k], r.states[k + 1], r.steps[k])
  {
    hide Inv, Evolves, Taken;
    RunInv(r, k);
    assert StepAt(r, k);
    StepEvolves(r.epoch, r.states[k], r.steps[k], r.states[k + 1]);
  }

  // ---- Records -------------------------------------------------------------

  /** A stored record is never altered, and one that is gone never returns, to
      the store or to the owner's queue. */
  lemma {:induction false} RecordsImmutable(r: Run, j: nat, k: nat, id: nat)
    requires IsRun(r) && j <= k < |r.states| && id < r.states[j].next
    ensures id < r.states[k].next
    ensures id in r.states[k].store ==> id in r.states[j].store && r.states[k].store[id] == r.states[j].store[id]
    ensures id in r.states[k].owner ==> id in r.states[j].owner
    decreases k
  {
    hide IsRun, Inv, Taken, SlotEvolves, SlotRetains, OwnerRetains;
    if j < k {
      RunShape(r);
      RecordsImmutable(r, j, k - 1, id);
      RunStep(r, k - 1);
    }
  }

  lemma OwnerStored(l: Ledger, id: nat)
    requires Inv(l) && id in l.owner
    ensures id in l.store && id < l.next
  {
  }

  /** An accepted required record stays in the owner's queue, unchanged, until
      an owner acknowledgment covers it. */
  lemma {:induction false} RequiredRecordStays(r: Run, j: nat, k: nat, id: nat)
    requires IsRun(r) && j <= k < |r.states|
    requires id in r.states[j].owner && id in r.states[j].store && r.states[j].store[id].required
    requires forall m :: j <= m < k ==> !OwnerAcks(r.steps[m], id)
    ensures id in r.states[k].owner && id in r.states[k].store && r.states[k].store[id] == r.states[j].store[id]
    decreases k
  {
    hide IsRun, Inv, Taken, SlotEvolves, SlotRetains;
    if j < k {
      RunShape(r);
      RequiredRecordStays(r, j, k - 1, id);
      RunStep(r, k - 1);
      RunInv(r, k - 1);
      OwnerStored(r.states[k - 1], id);
      RunInv(r, k);
      OwnerStored(r.states[k], id);
    }
  }

  lemma BoundStored(l: Ledger, i: nat, d: Delivery)
    requires Inv(l) && i < SLOTS && l.slots[i].Some? && d in l.slots[i].value.items
    ensures d.source in l.store && d.source < l.next && d.id < l.slots[i].value.next
  {
    assert QueueInv(l.store, l.next, l.slots[i].value);
  }

  /** A required delivery stays in its subscriber's queue until that subscriber
      acknowledges it or closes. */
  lemma {:induction false} RequiredDeliveryStays(r: Run, i: nat, j: nat, k: nat, d: Delivery)
    requires IsRun(r) && j <= k < |r.states|
    requires i < |r.states[j].slots| && r.states[j].slots[i].Some? && Bound(r.states[j], i, d)
    requires forall m :: j <= m < k ==> !GivesUp(r.steps[m], r.states[j].slots[i].value, d)
    ensures i < |r.states[k].slots| && r.states[k].slots[i].Some?
    ensures r.states[k].slots[i].value.id == r.states[j].slots[i].value.id
    ensures Bound(r.states[k], i, d) && r.states[k].store[d.source] == r.states[j].store[d.source]
    decreases k
  {
    hide IsRun, Inv, Taken, OwnerRetains;
    if j < k {
      RunShape(r);
      RequiredDeliveryStays(r, i, j, k - 1, d);
      RunStep(r, k - 1);
      RunInv(r, k - 1);
      InvSlots(r.states[k - 1]);
      BoundStored(r.states[k - 1], i, d);
      RunInv(r, k);
      BoundStored(r.states[k], i, d);
    }
  }

  // ---- What a read reports -------------------------------------------------

  function Range(lo: nat, hi: nat): (s: seq<nat>)
    ensures lo <= hi ==> |s| == hi - lo
    decreases hi - lo
  {
    if lo >= hi then [] else Range(lo, hi - 1) + [hi - 1]
  }

  lemma {:induction false} RangeAt(lo: nat, hi: nat, k: nat)
    requires k < hi - lo
    ensures Range(lo, hi)[k] == lo + k
    decreases hi
  {
    if k < hi - 1 - lo { RangeAt(lo, hi - 1, k); }
  }

  lemma {:induction false} RangeJoin(a: nat, b: nat, c: nat)
    requires a <= b <= c
    ensures Range(a, b) + Range(b, c) == Range(a, c)
    decreases c
  {
    if b < c {
      RangeJoin(a, b, c - 1);
      assert Range(a, b) + (Range(b, c - 1) + [c - 1]) == Range(a, b) + Range(b, c - 1) + [c - 1];
    }
  }

  lemma {:induction false} RangeMembers(lo: nat, hi: nat, id: nat)
    ensures id in Range(lo, hi) <==> lo <= id < hi
    decreases hi
  {
    if lo < hi { RangeMembers(lo, hi - 1, id); }
  }

  function ToldIds(told: seq<Told>): seq<nat> {
    seq(|told|, k requires 0 <= k < |told| => told[k].id)
  }

  /** The ids that a batch reports, as lost or as delivered, in its order. */
  function Reported(b: Batch): seq<nat> {
    (if b.gap.Some? then Range(b.gap.value.first, b.gap.value.last + 1) else []) + ToldIds(b.told)
  }

  lemma RangeEmpty(lo: nat)
    ensures Range(lo, lo) == []
  {
  }

  /** A read reports every id from its cursor to the next one, each once, in
      order; what it tells is stored in the queue, what it calls lost is not. */
  lemma ReadReports(store: map<nat, Entry>, items: seq<Delivery>, wrapped: bool, next: nat, after: nat, previous: bool,
                    limit: nat, maxBytes: nat, r: Result<Batch>)
    requires Stocked(store, items) && Reads(store, items, wrapped, next, after, previous, limit, maxBytes, r) && r.Ok?
    ensures after <= r.value.after < next
    ensures Reported(r.value) == Range(after + 1, r.value.after + 1)
    ensures forall t :: t in r.value.told ==> Delivery(t.id, t.source) in items && t.event == store[t.source].event
    ensures r.value.gap.Some? ==> forall d :: d in items ==> !(r.value.gap.value.first <= d.id <= r.value.gap.value.last)
  {
    hide TooLarge, PageSize, Accounts, Range, Render, Admissible;
    var page :| PageFor(items, Sizes(store, items, wrapped), next, after, previous, limit, maxBytes, page)
                && r == Render(store, items, page);
    RenderedPage(store, items, page, r);
    PageBlock(items, Sizes(store, items, wrapped), next, after, previous, limit, maxBytes, page);
    var p, b := page.value, r.value;
    var first := First(Ids(items), p.start, next);
    ToldBlock(store, items, p, first, b.told);
    RangeJoin(after + 1, first, p.after + 1);
    if b.gap.None? {
      RangeEmpty(first);
      assert [] + ToldIds(b.told) == ToldIds(b.told);
    }
  }

  lemma RenderedPage(store: map<nat, Entry>, items: seq<Delivery>, page: Result<Page>, r: Result<Batch>)
    requires Stocked(store, items)
    requires page.Ok? ==> page.value.start <= page.value.end <= |items|
    requires r == Render(store, items, page)
    ensures r.Ok? <==> page.Ok?
    ensures r.Ok? ==> r.value.gap == page.value.gap && r.value.after == page.value.after
    ensures r.Ok? ==> |r.value.told| == page.value.end - page.value.start
    ensures r.Ok? ==> forall k :: 0 <= k < |r.value.told| ==> r.value.told[k] == Tell(store, items[page.value.start + k])
  {
  }

  lemma PageBlock(items: seq<Delivery>, sizes: seq<nat>, next: nat, after: nat, previous: bool, limit: nat, maxBytes: nat, page: Result<Page>)
    requires |sizes| == |items| && page.Ok?
    requires PageFor(items, sizes, next, after, previous, limit, maxBytes, page)
    ensures var p := page.value;
            && p.start <= p.end <= |items|
            && var first := First(Ids(items), p.start, next);
            && after < first && p.gap == GapBefore(first, after, previous)
            && p.after == first + (p.end - p.start) - 1 && after <= p.after < next
            && (forall k :: p.start <= k < p.end ==> items[k].id == first + (k - p.start))
            && (forall d :: d in items && after < d.id ==> first <= d.id)
  {
    hide TooLarge, PageSize;
    var p, ids := page.value, Ids(items);
    forall k | p.start <= k < p.end ensures items[k].id == First(ids, p.start, next) + (k - p.start) {
      assert ids[k] == ids[p.start] + (k - p.start);
    }
    forall d | d in items && after < d.id ensures First(ids, p.start, next) <= d.id {
      var k :| 0 <= k < |items| && items[k] == d;
      assert ids[k] == d.id && d.id in ids;
      assert after < d.id <= p.after ==> d.id in ids[p.start..p.end];
    }
  }

  lemma ToldBlock(store: map<nat, Entry>, items: seq<Delivery>, p: Page, first: nat, told: seq<Told>)
    requires Stocked(store, items) && p.start <= p.end <= |items| && |told| == p.end - p.start
    requires forall k :: 0 <= k < |told| ==> told[k] == Tell(store, items[p.start + k])
    requires forall k :: p.start <= k < p.end ==> items[k].id == first + (k - p.start)
    ensures ToldIds(told) == Range(first, first + |told|)
    ensures forall t :: t in told ==> Delivery(t.id, t.source) in items && t.event == store[t.source].event
  {
    forall k | 0 <= k < |told| ensures told[k].id == Range(first, first + |told|)[k] {
      RangeAt(first, first + |told|, k);
    }
  }

  // ---- A subscriber misses nothing silently --------------------------------

  ghost predicate Live(l: Ledger, i: nat) {
    i < |l.slots| && l.slots[i].Some?
  }

  ghost function UpTo(n: nat): set<nat> {
    AsSet(Range(1, n + 1))
  }

  ghost function AsSet(s: seq<nat>): set<nat> {
    set id | id in s
  }

  /** The delivery ids that one step reports to the subscription in slot `i`. */
  ghost function HeardIn(l: Ledger, s: Step, i: nat): set<nat> {
    if s.Read? && s.batch.Ok? && IsSlot(l.slots, s.reader, i) then AsSet(Reported(s.batch.value)) else {}
  }

  /** What the subscription now in slot `i` has been told since it enrolled. */
  ghost function Heard(r: Run, i: nat, k: nat): set<nat>
    requires k < |r.states| == |r.steps| + 1
  {
    if k == 0 || !Live(r.states[k], i) || !Live(r.states[k - 1], i) then {}
    else Heard(r, i, k - 1) + HeardIn(r.states[k - 1], r.steps[k - 1], i)
  }

  lemma UpToMembers(n: nat)
    ensures forall id: nat :: id in UpTo(n) <==> 1 <= id <= n
  {
    RangeSet(1, n + 1);
  }

  lemma RangeSet(lo: nat, hi: nat)
    ensures forall id: nat :: id in AsSet(Range(lo, hi)) <==> lo <= id < hi
  {
    forall id: nat ensures id in Range(lo, hi) <==> lo <= id < hi { RangeMembers(lo, hi, id); }
  }

  lemma JoinedUpTo(a: nat, after: nat, b: nat, told: set<nat>)
    requires after <= a && after <= b && told == AsSet(Range(after + 1, b + 1))
    ensures UpTo(a) + told == UpTo(Max(a, b))
  {
    UpToMembers(a);
    UpToMembers(Max(a, b));
    RangeSet(after + 1, b + 1);
  }

  lemma ReadTells(epoch: Epoch, l: Ledger, s: Step, l': Ledger, i: nat)
    requires Inv(l) && s.Read? && Taken(epoch, l, s, l') && i < SLOTS && l.slots[i].Some?
    ensures Live(l', i)
    ensures UpTo(l.slots[i].value.issued) + HeardIn(l, s, i) == UpTo(l'.slots[i].value.issued)
  {
    hide Inv, Reads, Reported, UpTo;
    InvSlots(l);
    if s.batch.Ok? {
      var k: nat :| IsSlot(l.slots, s.reader, k) && SlotReadStep(l, epoch, k, s.cursor, s.limit, s.maxBytes, s.batch, l');
      if IsSlot(l.slots, s.reader, i) {
        SlotUnique(l.slots, s.reader, i, k);
        var q, after := l.slots[i].value, SubscriptionAfter(s.cursor);
        ReadReports(l.store, q.items, true, q.next, after, false, s.limit, s.maxBytes, s.batch);
        JoinedUpTo(q.issued, after, s.batch.value.after, HeardIn(l, s, i));
      }
    }
  }

  lemma QuietStep(l: Ledger, s: Step, i: nat)
    requires !s.Read?
    ensures HeardIn(l, s, i) == {}
  {
  }

  /** In every run, a live subscription has been told exactly the delivery ids
      at or below its `issued` bound: as delivered, or as lost. */
  lemma {:induction false} SubscriberToldAll(r: Run, i: nat, k: nat)
    requires IsRun(r) && k < |r.states| == |r.steps| + 1 && i < SLOTS && Live(r.states[k], i)
    ensures Heard(r, i, k) == UpTo(r.states[k].slots[i].value.issued)
  {
    hide IsRun, Inv, Taken, HeardIn;
    if k == 0 {
      RunShape(r);
    } else {
      RunStep(r, k - 1);
      RunInv(r, k - 1);
      InvSlots(r.states[k - 1]);
      if Live(r.states[k - 1], i) {
        SubscriberToldAll(r, i, k - 1);
        if r.steps[k - 1].Read? {
          ReadTells(r.epoch, r.states[k - 1], r.steps[k - 1], r.states[k], i);
        } else {
          QuietStep(r.states[k - 1], r.steps[k - 1], i);
        }
      }
    }
  }

  /** So an acknowledgment never releases a delivery that was not reported. */
  lemma AckReleasesOnlyTold(r: Run, i: nat, k: nat, d: Delivery)
    requires IsRun(r) && k < |r.steps| && |r.states| == |r.steps| + 1 && i < SLOTS
    requires Live(r.states[k], i) && Live(r.states[k + 1], i) && r.steps[k].Ack?
    requires d in r.states[k].slots[i].value.items && d !in r.states[k + 1].slots[i].value.items
    ensures d.id in Heard(r, i, k)
  {
    hide IsRun, Inv, Evolves;
    RunStep(r, k);
    RunInv(r, k);
    SubscriberToldAll(r, i, k);
    var l, s := r.states[k], r.steps[k];
    InvSlots(l);
    var j: nat :| IsSlot(l.slots, s.acker, j) && SlotAckStep(l, r.epoch, j, s.acked, s.reply, r.states[k + 1]);
    AckKeeps(l, r.epoch, j, s, r.states[k + 1], i, d);
    UpToMembers(l.slots[i].value.issued);
  }

  lemma AckKeeps(l: Ledger, epoch: Epoch, j: nat, s: Step, l': Ledger, i: nat, d: Delivery)
    requires Inv(l) && s.Ack? && j < SLOTS && IsSlot(l.slots, s.acker, j) && SlotAckStep(l, epoch, j, s.acked, s.reply, l')
    requires i < SLOTS && Live(l, i) && Live(l', i)
    requires d in l.slots[i].value.items && d !in l'.slots[i].value.items
    ensures 1 <= d.id <= l.slots[i].value.issued
  {
    hide Budgets, StoreEvolves;
    var q := l.slots[j].value;
    assert QueueInv(l.store, l.next, l.slots[i].value);
    ReleaseSlotEvolves(l, j, ThroughDelivery(q.items, s.acked.after), s);
    if d.id > s.acked.after && i == j { ThroughOnly(q, l.store, l.next, s.acked.after, d); }
  }

  /** A subscription's successful reads at `ks`, each resuming where the last ended. */
  ghost predicate ReadChain(r: Run, id: nat, ks: seq<nat>) {
    && |r.states| == |r.steps| + 1
    && (forall m :: 0 <= m < |ks| ==> ks[m] < |r.steps| && ReadsAs(r.steps[ks[m]], id))
    && (|ks| > 0 ==> SubscriptionAfter(r.steps[ks[0]].cursor) == 0)
    && (forall m :: 0 < m < |ks| ==> ks[m - 1] < ks[m] && ReadResumes(r, id, ks[m - 1], ks[m]))
  }

  ghost predicate ReadsAs(s: Step, id: nat) {
    s.Read? && s.reader == id && s.batch.Ok?
  }

  ghost predicate ReadResumes(r: Run, id: nat, a: nat, b: nat)
    requires a < |r.steps| && ReadsAs(r.steps[a], id) && b < |r.steps| && ReadsAs(r.steps[b], id)
  {
    r.steps[b].cursor.Some? && r.steps[b].cursor.value.after == r.steps[a].batch.value.after
  }

  ghost function ReadHeard(r: Run, id: nat, ks: seq<nat>): seq<nat>
    requires ReadChain(r, id, ks)
  {
    if ks == [] then [] else ReadHeard(r, id, ks[..|ks| - 1]) + Reported(r.steps[ks[|ks| - 1]].batch.value)
  }

  /** One successful read of a subscription. */
  lemma SubscriptionReadReports(epoch: Epoch, l: Ledger, s: Step, l': Ledger)
    requires Inv(l) && s.Read? && Taken(epoch, l, s, l') && s.batch.Ok?
    ensures var b := s.batch.value; var after := SubscriptionAfter(s.cursor);
            && after <= b.after
            && Reported(b) == Range(after + 1, b.after + 1)
            && exists i: nat :: IsSlot(l.slots, s.reader, i) && b.after < l.slots[i].value.next && Missing(l.slots[i].value, b)
  {
    hide Inv, Reads, Reported;
    InvSlots(l);
    var k: nat :| IsSlot(l.slots, s.reader, k) && SlotReadStep(l, epoch, k, s.cursor, s.limit, s.maxBytes, s.batch, l');
    var q := l.slots[k].value;
    ReadReports(l.store, q.items, true, q.next, SubscriptionAfter(s.cursor), false, s.limit, s.maxBytes, s.batch);
    assert Missing(q, s.batch.value);
  }

  /** What a page calls lost is not in the queue. */
  ghost predicate Missing(q: Queue, b: Batch) {
    b.gap.Some? ==> forall d :: d in q.items ==> !(b.gap.value.first <= d.id <= b.gap.value.last)
  }

  /** A subscriber that keeps passing back the cursor it was given hears every
      delivery id up to its last cursor exactly once, in increasing order. */
  lemma {:induction false} SubscriberHearsAll(r: Run, id: nat, ks: seq<nat>)
    requires IsRun(r) && ReadChain(r, id, ks) && |ks| > 0
    ensures ReadHeard(r, id, ks) == Range(1, r.steps[ks[|ks| - 1]].batch.value.after + 1)
    decreases |ks|
  {
    hide IsRun, Inv, Reported, SubscriptionReadStep, Range;
    var n := |ks| - 1;
    var k := ks[n];
    assert ReadsAs(r.steps[k], id);
    RunStep(r, k);
    SubscriptionReadReports(r.epoch, r.states[k], r.steps[k], r.states[k + 1]);
    if n > 0 {
      SubscriberHearsAll(r, id, ks[..n]);
      assert ks[..n][n - 1] == ks[n - 1];
      assert ReadResumes(r, id, ks[n - 1], ks[n]);
      RangeJoin(1, r.steps[ks[n - 1]].batch.value.after + 1, r.steps[k].batch.value.after + 1);
    } else {
      assert ks[..0] == [];
      assert [] + Reported(r.steps[k].batch.value) == Reported(r.steps[k].batch.value);
    }
  }

  /** Slot `i` is taken throughout, and so by one subscription. */
  ghost predicate LiveFrom(r: Run, i: nat, k: nat, j: nat)
    requires j < |r.states|
  {
    forall m :: k <= m <= j ==> Live(r.states[m], i)
  }

  /** No delivery that was gone returns to a subscription's queue. */
  lemma {:induction false} DeliveriesGone(r: Run, i: nat, k: nat, j: nat, d: Delivery)
    requires IsRun(r) && k <= j < |r.states| && LiveFrom(r, i, k, j)
    requires Live(r.states[k], i) && Live(r.states[j], i) && d in r.states[j].slots[i].value.items && d.id < r.states[k].slots[i].value.next
    ensures d in r.states[k].slots[i].value.items
    decreases j
  {
    hide IsRun, Inv, Taken, SlotRetains, OwnerRetains, StoreEvolves;
    if k < j {
      RunShape(r);
      RunStep(r, j - 1);
      NextGrows(r, i, k, j - 1);
      assert Live(r.states[j - 1], i);
      assert SlotEvolves(r.states[j - 1].slots[i], r.states[j].slots[i], r.steps[j - 1]);
      DeliveriesGone(r, i, k, j - 1, d);
    }
  }

  lemma {:induction false} NextGrows(r: Run, i: nat, k: nat, j: nat)
    requires IsRun(r) && k <= j < |r.states| && LiveFrom(r, i, k, j)
    ensures Live(r.states[k], i) && Live(r.states[j], i) && r.states[k].slots[i].value.next <= r.states[j].slots[i].value.next
    decreases j
  {
    hide IsRun, Inv, Taken, SlotRetains, OwnerRetains, StoreEvolves;
    assert Live(r.states[k], i) && Live(r.states[j], i);
    if k < j {
      RunShape(r);
      RunStep(r, j - 1);
      NextGrows(r, i, k, j - 1);
      assert SlotEvolves(r.states[j - 1].slots[i], r.states[j].slots[i], r.steps[j - 1]);
    }
  }

  /** What a subscriber is told is lost is never delivered to it later; if it ever
      was a required delivery, the subscriber had acknowledged it. */
  lemma SubscriberGapIsFinal(r: Run, i: nat, k: nat, id: nat)
    requires IsRun(r) && k < |r.steps| && |r.states| == |r.steps| + 1 && i < SLOTS
    requires r.steps[k].Read? && r.steps[k].batch.Ok? && r.steps[k].batch.value.gap.Some?
    requires IsSlot(r.states[k].slots, r.steps[k].reader, i)
    requires r.steps[k].batch.value.gap.value.first <= id <= r.steps[k].batch.value.gap.value.last
    ensures forall j, d :: k <= j < |r.states| && LiveFrom(r, i, k, j) && Live(r.states[j], i) && d in r.states[j].slots[i].value.items ==> d.id != id
    ensures forall j, d :: 0 <= j <= k && Live(r.states[j], i) && Bound(r.states[j], i, d) && d.id == id ==>
              exists m :: j <= m < k && GivesUp(r.steps[m], r.states[j].slots[i].value, d)
  {
    hide IsRun, Inv, Evolves, SubscriptionReadStep;
    RunStep(r, k);
    var l, b := r.states[k], r.steps[k].batch.value;
    SubscriptionReadReports(r.epoch, l, r.steps[k], r.states[k + 1]);
    var n: nat :| IsSlot(l.slots, r.steps[k].reader, n) && b.after < l.slots[n].value.next && Missing(l.slots[n].value, b);
    SlotUnique(l.slots, r.steps[k].reader, i, n);
    GapWithin(b, SubscriptionAfter(r.steps[k].cursor), id);
    forall j, d | k <= j < |r.states| && LiveFrom(r, i, k, j) && Live(r.states[j], i) && d in r.states[j].slots[i].value.items
      ensures d.id != id
    {
      if d.id == id { DeliveriesGone(r, i, k, j, d); }
    }
    forall j, d | 0 <= j <= k && Live(r.states[j], i) && Bound(r.states[j], i, d) && d.id == id
      ensures exists m :: j <= m < k && GivesUp(r.steps[m], r.states[j].slots[i].value, d)
    {
      if forall m :: j <= m < k ==> !GivesUp(r.steps[m], r.states[j].slots[i].value, d) { RequiredDeliveryStays(r, i, j, k, d); }
    }
  }

  /** A gap ends at or before its page. */
  lemma GapWithin(b: Batch, after: nat, id: nat)
    requires after <= b.after && Reported(b) == Range(after + 1, b.after + 1)
    requires b.gap.Some? && b.gap.value.first <= id <= b.gap.value.last
    ensures id <= b.after
  {
    RangeMembers(b.gap.value.first, b.gap.value.last + 1, id);
    assert id in Reported(b);
    RangeMembers(after + 1, b.after + 1, id);
  }

  // ---- The owner misses nothing silently -----------------------------------

  /** The owner's successful reads at `ks`, each resuming where the last ended. */
  ghost predicate Chain(r: Run, ks: seq<nat>) {
    && |r.states| == |r.steps| + 1
    && (forall m :: 0 <= m < |ks| ==> ks[m] < |r.steps| && r.steps[ks[m]].OwnerRead? && r.steps[ks[m]].ownerBatch.Ok?)
    && (|ks| > 0 ==> After(r.epoch, r.steps[ks[0]].ownerCursor) == 0)
    && (forall m :: 0 < m < |ks| ==> ks[m - 1] < ks[m] && Resumes(r, ks[m - 1], ks[m]))
  }

  ghost predicate Resumes(r: Run, a: nat, b: nat)
    requires a < |r.steps| && r.steps[a].OwnerRead? && r.steps[a].ownerBatch.Ok?
    requires b < |r.steps| && r.steps[b].OwnerRead?
  {
    r.steps[b].ownerCursor == Some(Cursor(r.epoch, r.steps[a].ownerBatch.value.after))
  }

  ghost function OwnerHeard(r: Run, ks: seq<nat>): seq<nat>
    requires Chain(r, ks)
  {
    if ks == [] then [] else OwnerHeard(r, ks[..|ks| - 1]) + Reported(r.steps[ks[|ks| - 1]].ownerBatch.value)
  }

  /** One owner read, in any state that keeps the invariant. */
  lemma OwnerReadReports(epoch: Epoch, l: Ledger, s: Step)
    requires Inv(l) && s.OwnerRead? && Taken(epoch, l, s, l) && s.ownerBatch.Ok?
    ensures var b := s.ownerBatch.value; var after := After(epoch, s.ownerCursor);
            && after <= b.after < l.next
            && Reported(b) == Range(after + 1, b.after + 1)
            && (forall t :: t in b.told ==> t.id in l.owner && t.id in l.store && t.event == l.store[t.id].event)
            && (b.gap.Some? ==> forall id :: id in l.owner ==> !(b.gap.value.first <= id <= b.gap.value.last))
  {
    hide Inv, Reads, Reported;
    OwnerQueue(l);
    var items := OwnerItems(l.owner);
    ReadReports(l.store, items, false, l.next, After(epoch, s.ownerCursor), Previous(epoch, s.ownerCursor),
                s.ownerLimit, s.ownerBytes, s.ownerBatch);
    forall id | id in l.owner ensures Delivery(id, id) in items {
      var k :| 0 <= k < |l.owner| && l.owner[k] == id;
      assert items[k] == Delivery(id, id);
    }
  }

  /** A reader that keeps passing back the cursor it was given hears every id
      up to its last cursor exactly once, in increasing order. */
  lemma {:induction false} OwnerHearsAll(r: Run, ks: seq<nat>)
    requires IsRun(r) && Chain(r, ks) && |ks| > 0
    ensures OwnerHeard(r, ks) == Range(1, r.steps[ks[|ks| - 1]].ownerBatch.value.after + 1)
    decreases |ks|
  {
    hide IsRun, Inv, Reported, OwnerReadStep, Range;
    var n := |ks| - 1;
    var k := ks[n];
    RunStep(r, k);
    OwnerReadReports(r.epoch, r.states[k], r.steps[k]);
    if n > 0 {
      OwnerHearsAll(r, ks[..n]);
      assert ks[..n][n - 1] == ks[n - 1];
      assert Resumes(r, ks[n - 1], ks[n]);
      RangeJoin(1, r.steps[ks[n - 1]].ownerBatch.value.after + 1, r.steps[k].ownerBatch.value.after + 1);
    } else {
      assert ks[..0] == [];
      assert [] + Reported(r.steps[k].ownerBatch.value) == Reported(r.steps[k].ownerBatch.value);
    }
  }

  /** What a read calls lost is not waiting and will never be delivered; if it
      ever was an accepted required record, the owner acknowledged it. */
  lemma GapIsFinal(r: Run, k: nat, id: nat)
    requires IsRun(r) && k < |r.steps| && |r.states| == |r.steps| + 1
    requires r.steps[k].OwnerRead? && r.steps[k].ownerBatch.Ok? && r.steps[k].ownerBatch.value.gap.Some?
    requires r.steps[k].ownerBatch.value.gap.value.first <= id <= r.steps[k].ownerBatch.value.gap.value.last
    ensures forall j :: k <= j < |r.states| ==> id !in r.states[j].owner
    ensures forall j :: 0 <= j <= k && id in r.states[j].owner && id in r.states[j].store && r.states[j].store[id].required
              ==> exists m :: j <= m < k && OwnerAcks(r.steps[m], id)
  {
    hide IsRun, Inv, Evolves, OwnerReadStep;
    RunStep(r, k);
    OwnerReadReports(r.epoch, r.states[k], r.steps[k]);
    var b := r.steps[k].ownerBatch.value;
    assert id < r.states[k].next by { GapBelow(r.epoch, r.states[k], r.steps[k], id); }
    forall j | k <= j < |r.states| ensures id !in r.states[j].owner {
      RecordsImmutable(r, k, j, id);
    }
    forall j | 0 <= j <= k && id in r.states[j].owner && id in r.states[j].store && r.states[j].store[id].required
      ensures exists m :: j <= m < k && OwnerAcks(r.steps[m], id)
    {
      if forall m :: j <= m < k ==> !OwnerAcks(r.steps[m], id) { RequiredRecordStays(r, j, k, id); }
    }
  }

  lemma GapBelow(epoch: Epoch, l: Ledger, s: Step, id: nat)
    requires Inv(l) && s.OwnerRead? && Taken(epoch, l, s, l) && s.ownerBatch.Ok? && s.ownerBatch.value.gap.Some?
    requires s.ownerBatch.value.gap.value.first <= id <= s.ownerBatch.value.gap.value.last
    ensures id < l.next
  {
    hide OwnerReadStep, Inv, ToldIds;
    OwnerReadReports(epoch, l, s);
    var b := s.ownerBatch.value;
    RangeMembers(b.gap.value.first, b.gap.value.last + 1, id);
    assert id in Reported(b);
    RangeMembers(After(epoch, s.ownerCursor) + 1, b.after + 1, id);
  }
}
