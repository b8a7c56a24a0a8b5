/** The recorder's budgets as plain sums and counts: what every state of every
    run keeps within them, and exactly which batches they let in. */
module Quotas {
  import opened Prelude
  import opened Sums
  import opened Events
  import opened Ledger
  import opened LedgerInvariant
  import opened RecorderPlan
  import opened RecorderState
  import opened Consumers
  import opened Evolution
  import opened Runs
  import opened Isolation

  // ---- Plain sums ----------------------------------------------------------

  /** The encoded sizes of the records from `lo` up to `hi`, of one session or of all. */
  ghost function StoredSizes(store: map<nat, Entry>, of: Option<SessionId>, lo: nat, hi: nat): map<nat, nat> {
    map id | id in store && lo <= id < hi && (of.None? || store[id].event.session == of.value) :: store[id].event.encoded
  }

  ghost function StoredIds(store: map<nat, Entry>, lo: nat): set<nat> {
    set id | id in store && lo <= id
  }

  /** The encoded sizes of a batch, of one session or of all. */
  ghost function BatchSizes(events: seq<Event>, of: Option<SessionId>): seq<nat> {
    seq(|events|, j requires 0 <= j < |events| => if of.None? || events[j].session == of.value then events[j].encoded else 0)
  }

  ghost function QueueSizes(store: map<nat, Entry>, items: seq<Delivery>): seq<nat>
    requires Stocked(store, items)
  {
    seq(|items|, k requires 0 <= k < |items| => store[items[k].source].event.encoded)
  }

  function MeasureOf(of: Option<SessionId>): Measure {
    if of.None? then Total else Of(of.value)
  }

  lemma {:induction false} HeldIsTotal(store: map<nat, Entry>, of: Option<SessionId>, lo: nat, hi: nat)
    requires lo <= hi
    ensures Held(store, MeasureOf(of), lo, hi) == Sums.Total(StoredSizes(store, of, lo, hi))
    decreases hi - lo
  {
    if lo < hi {
      HeldIsTotal(store, of, lo + 1, hi);
      var rest := StoredSizes(store, of, lo + 1, hi);
      if lo in store && (of.None? || store[lo].event.session == of.value) {
        assert StoredSizes(store, of, lo, hi) == rest[lo := store[lo].event.encoded];
        TotalAdd(rest, lo, store[lo].event.encoded);
      } else {
        assert StoredSizes(store, of, lo, hi) == rest;
      }
    }
  }

  lemma HeldIsCount(store: map<nat, Entry>, lo: nat, hi: nat)
    requires lo <= hi && forall id :: id in store ==> id < hi
    ensures Held(store, Records, lo, hi) == |StoredIds(store, lo)|
  {
    var rest := map id | id in store && lo <= id :: store[id];
    HeldAgree(store, rest, Records, lo, hi);
    HeldSplit(rest, Records, 0, lo, hi);
    HeldNone(rest, Records, 0, lo);
    HeldCount(rest, hi);
    assert rest.Keys == StoredIds(store, lo);
  }

  lemma {:induction false} OfferedIsSum(events: seq<Event>, of: Option<SessionId>)
    ensures Offered(events, MeasureOf(of)) == Sum(BatchSizes(events, of))
    decreases |events|
  {
    if events != [] {
      var n := |events| - 1;
      OfferedIsSum(events[..n], of);
      var last := if of.None? || events[n].session == of.value then events[n].encoded else 0;
      assert BatchSizes(events, of) == BatchSizes(events[..n], of) + [last];
      SumAppend(BatchSizes(events[..n], of), [last]);
      SumOne(last);
    }
  }

  lemma {:induction false} QueueBytesIsSum(store: map<nat, Entry>, items: seq<Delivery>)
    requires Stocked(store, items)
    ensures QueueBytes(store, items) == Sum(QueueSizes(store, items))
  {
    if items != [] {
      QueueBytesIsSum(store, items[1..]);
      assert QueueSizes(store, items)[1..] == QueueSizes(store, items[1..]);
    }
  }

  // ---- Every state of every run --------------------------------------------

  /** The sizes of what is stored, of one session or of all of them, add up to. */
  ghost function Occupied(l: Ledger, of: Option<SessionId>): nat {
    Sums.Total(StoredSizes(l.store, of, 0, l.next))
  }

  lemma LimitsStay(epoch: Epoch, l: Ledger, s: Step, l': Ledger)
    requires Inv(l) && Taken(epoch, l, s, l')
    ensures l'.maxEvents == l.maxEvents && l'.maxBytes == l.maxBytes
  {
    hide Inv, Reads, Local, Removed, Publish, Overflows;
    if s.Record? {
      RecordLimits(l, s, l');
    }
  }

  lemma RecordLimits(l: Ledger, s: Step, l': Ledger)
    requires Inv(l) && s.Record? && RecordStep(l, s.events, s.required, s.clock, s.verdict, l', s.out)
    ensures l'.maxEvents == l.maxEvents && l'.maxBytes == l.maxBytes
  {
    hide Inv, Decide, Overflows, Extended, Recorded;
    if Decide(l, s.events, s.required).Fits? { FitsBase(l, s.events, s.required); }
  }

  /** In every state of every run at most the configured number of records is
      stored; their sizes add up to at most the configured bytes, and those of any
      one session to at most 8 MiB; every subscriber's queue is within the limits
      it enrolled with. */
  lemma {:induction false} WithinBudgets(r: Run, k: nat)
    requires IsRun(r) && k < |r.states|
    ensures var l := r.states[k];
            && |l.store| <= r.states[0].maxEvents
            && Occupied(l, None) <= r.states[0].maxBytes
            && (forall s: SessionId :: Occupied(l, Some(s)) <= 8 * 1024 * 1024)
            && forall i :: 0 <= i < |l.slots| && l.slots[i].Some? ==>
                 var q := l.slots[i].value;
                 && Stocked(l.store, q.items) && |q.items| <= q.limits.maxEvents
                 && Sum(QueueSizes(l.store, q.items)) <= q.limits.maxBytes
  {
    hide IsRun;
    RunInv(r, k);
    LimitsKept(r, k);
    var l := r.states[k];
    InvBudgets(l);
    InvSlots(l);
    forall i | 0 <= i < |l.slots| && l.slots[i].Some?
      ensures var q := l.slots[i].value;
              && Stocked(l.store, q.items) && |q.items| <= q.limits.maxEvents && Sum(QueueSizes(l.store, q.items)) <= q.limits.maxBytes
    {
      QueueBytesIsSum(l.store, l.slots[i].value.items);
    }
  }

  lemma {:induction false} LimitsKept(r: Run, k: nat)
    requires IsRun(r) && k < |r.states|
    ensures r.states[k].maxEvents == r.states[0].maxEvents && r.states[k].maxBytes == r.states[0].maxBytes
    decreases k
  {
    hide IsRun, Inv, Taken, Evolves;
    if k > 0 {
      RunShape(r);
      LimitsKept(r, k - 1);
      RunStep(r, k - 1);
      LimitsStay(r.epoch, r.states[k - 1], r.steps[k - 1], r.states[k]);
    }
  }

  lemma InvBudgets(l: Ledger)
    requires Inv(l)
    ensures |l.store| <= l.maxEvents && Occupied(l, None) <= l.maxBytes
    ensures forall s: SessionId :: Occupied(l, Some(s)) <= 8 * 1024 * 1024
  {
    hide QueueInv, Increasing;
    HeldCount(l.store, l.next);
    HeldIsTotal(l.store, None, 0, l.next);
    forall s: SessionId ensures Occupied(l, Some(s)) <= 8 * 1024 * 1024 { HeldIsTotal(l.store, Some(s), 0, l.next); }
  }

  // ---- What the shared budgets let in --------------------------------------

  /** The batch and the records from `cut` on are together within the shared budgets. */
  ghost predicate Fit(l: Ledger, events: seq<Event>, cut: nat) {
    && |StoredIds(l.store, cut)| + |events| <= l.maxEvents
    && Sums.Total(StoredSizes(l.store, None, cut, l.next)) + Sum(BatchSizes(events, None)) <= l.maxBytes
    && forall s: SessionId ::
         Sums.Total(StoredSizes(l.store, Some(s), cut, l.next)) + Sum(BatchSizes(events, Some(s))) <= 8 * 1024 * 1024
  }

  lemma FitMeans(l: Ledger, events: seq<Event>, cut: nat)
    requires Inv(l) && cut <= l.next
    ensures GlobalFits(l, events, cut) <==> Fit(l, events, cut)
  {
    hide QueueInv, Increasing, Budgets, StoredSizes, BatchSizes, Held, Offered;
    HeldIsCount(l.store, cut, l.next);
    HeldIsTotal(l.store, None, cut, l.next);
    OfferedCount(events);
    OfferedIsSum(events, None);
    forall s: SessionId
      ensures Held(l.store, Of(s), cut, l.next) + Offered(events, Of(s))
              == Sums.Total(StoredSizes(l.store, Some(s), cut, l.next)) + Sum(BatchSizes(events, Some(s)))
    {
      HeldIsTotal(l.store, Some(s), cut, l.next);
      OfferedIsSum(events, Some(s));
    }
  }
}
