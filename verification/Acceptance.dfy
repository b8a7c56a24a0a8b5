/** Exactly which batches the recorder retains, and what makes room for them, in
    counts and sums of sizes. */
module Acceptance {
  import opened Prelude
  import opened Sums
  import opened Events
  import opened Ledger
  import opened LedgerInvariant
  import opened RecorderState
  import opened Consumers
  import opened Evolution
  import opened Runs
  import opened Isolation
  import opened Quotas
  import opened Grants
  import Releases

  /** Recording is available, and the batch within the limits that no eviction changes. */
  ghost predicate Recordable(l: Ledger, events: seq<Event>) {
    && l.available && |events| <= l.maxEvents
    && (forall j :: 0 <= j < |events| ==> events[j].session >= 0 && events[j].fields <= 131072 && events[j].encoded <= 131072)
    && Sum(BatchSizes(events, None)) <= 262144 && Sum(BatchSizes(events, None)) <= l.maxBytes
  }

  lemma RecordableShaped(l: Ledger, events: seq<Event>)
    ensures Recordable(l, events) <==> l.available && |events| <= l.maxEvents && Shaped(l, events)
  {
    hide Offered, BatchSizes;
    OfferedIsSum(events, None);
  }

  // ---- Required batches ----------------------------------------------------

  /** Every subscription that was granted something of the batch has room for it. */
  ghost predicate RoomEverywhere(l: Ledger, events: seq<Event>)
    requires Inv(l)
  {
    forall i :: 0 <= i < SLOTS && Live(l, i) ==> RoomIn(l, i, events)
  }

  ghost predicate RoomIn(l: Ledger, i: nat, events: seq<Event>)
    requires Inv(l) && i < SLOTS && Live(l, i)
  {
    SlotQueue(l, i);
    var q := l.slots[i].value;
    Granted(q.scope, events) == [] || MakesRoom(l, q, events, 0)
  }

  /** A required batch is retained exactly when nothing has to make room for it:
      every queue that it concerns has room, and so have the shared budgets. */
  lemma RequiredKeptExactly(l: Ledger, events: seq<Event>)
    requires Inv(l)
    ensures Decide(l, events, true).Fits? <==> Recordable(l, events) && RoomEverywhere(l, events) && Fit(l, events, 0)
    ensures Decide(l, events, true).Fits? ==> Decide(l, events, true).base == l
  {
    hide Inv, Recordable, Shaped, RoomEverywhere, SomeoneRefuses, Affordable, Local, Fit, Removed, Surplus;
    RecordableShaped(l, events);
    NobodyRefuses(l, events);
    if !SomeoneRefuses(l, events, true) {
      LocalUnchanged(l, events);
      AffordsRequired(l, events);
    }
    if Decide(l, events, true).Fits? { RequiredBase(l, events); }
  }

  lemma LocalUnchanged(l: Ledger, events: seq<Event>)
    requires Inv(l) && !SomeoneRefuses(l, events, true)
    ensures Local(l, events, true) == l
  {
    hide Inv, SomeoneRefuses, LocallyEvicted, Purge;
    RequiredPlans(l, events);
    Isolation.InvPurged(l);
    assert l.(slots := l.slots) == l;
  }

  lemma NobodyRefuses(l: Ledger, events: seq<Event>)
    requires Inv(l)
    ensures SomeoneRefuses(l, events, true) <==> !RoomEverywhere(l, events)
  {
    hide Inv, QueueInv, LocalPlan, MakesRoom, Granted;
    InvSlots(l);
    forall i | 0 <= i < SLOTS && Live(l, i)
      ensures LocalPlan(l.store, l.slots[i].value, events, true).Refuse? <==> !RoomIn(l, i, events)
    {
      SlotQueue(l, i);
      PlanMeans(l, l.slots[i].value, events, true);
    }
  }

  lemma AffordsRequired(l: Ledger, events: seq<Event>)
    requires Inv(l)
    ensures Affordable(l, events, true) <==> Fit(l, events, 0)
  {
    hide Inv, GlobalFits, Fit;
    FitMeans(l, events, 0);
    assert 0 <= l.next;
    var n := LeastCut(l, events, 0);
    if Affordable(l, events, true) {
      forall id | id in l.store ensures id >= n { assert id < n ==> id in Surplus(l, events); }
      CutNothing(l, events, n);
    } else {
      assert GlobalFits(l, events, 0) ==> n == 0 && Surplus(l, events) == {};
    }
  }

  lemma CutNothing(l: Ledger, events: seq<Event>, n: nat)
    requires n <= l.next && forall id :: id in l.store ==> id >= n
    requires GlobalFits(l, events, n)
    ensures GlobalFits(l, events, 0)
  {
    forall what ensures Held(l.store, what, 0, l.next) == Held(l.store, what, n, l.next) {
      HeldSplit(l.store, what, 0, n, l.next);
      HeldNone(l.store, what, 0, n);
    }
  }

  // ---- Best-effort batches -------------------------------------------------

  /** Once the queues have made their own room, dropping all records before `cut`,
      none of them required, makes room in the shared budgets. */
  ghost predicate CutsTo(local: Ledger, events: seq<Event>, cut: nat) {
    cut <= local.next && Fit(local, events, cut) && forall id :: id in local.store && id < cut ==> !local.store[id].required
  }

  /** A best-effort batch is retained exactly when dropping oldest best-effort
      records makes room for it in the shared budgets; no more is dropped than
      that needs. */
  lemma BestEffortKeptExactly(l: Ledger, events: seq<Event>)
    requires Inv(l)
    ensures Inv(Local(l, events, false))
    ensures var local := Local(l, events, false);
            Decide(l, events, false).Fits? <==> Recordable(l, events) && exists cut: nat :: CutsTo(local, events, cut)
    ensures Decide(l, events, false).Fits? ==>
              var local, base := Local(l, events, false), Decide(l, events, false).base;
              exists cut: nat :: CutsTo(local, events, cut) && (forall c :: 0 <= c < cut ==> !CutsTo(local, events, c))
                            && base.store == map id | id in local.store && cut <= id :: local.store[id]
  {
    hide Inv, Recordable, Shaped, SomeoneRefuses, Affordable, Local, Removed, Surplus, CutsTo, LeastCut;
    RecordableShaped(l, events);
    EvictedQueueInv(l, events, false);
    var local := Local(l, events, false);
    AffordsBestEffort(local, events);
    if Decide(l, events, false).Fits? {
      CutStore(local, events);
    }
  }

  lemma AffordsBestEffort(l: Ledger, events: seq<Event>)
    requires Inv(l)
    ensures Affordable(l, events, false) <==> exists cut: nat :: CutsTo(l, events, cut)
    ensures Affordable(l, events, false) ==> CutsTo(l, events, LeastCut(l, events, 0))
    ensures forall c :: 0 <= c < LeastCut(l, events, 0) ==> !CutsTo(l, events, c)
  {
    hide Inv, GlobalFits, Fit;
    var n := LeastCut(l, events, 0);
    FitMeans(l, events, n);
    forall c | 0 <= c < n ensures !CutsTo(l, events, c) { FitMeans(l, events, c); }
    if cut: nat :| CutsTo(l, events, cut) {
      FitMeans(l, events, cut);
      assert n <= cut;
      assert GlobalFits(l, events, n);
      forall id | id in Surplus(l, events) ensures !l.store[id].required { assert id < cut; }
      assert Affordable(l, events, false);
    }
    if Affordable(l, events, false) { assert CutsTo(l, events, n); }
  }

  lemma CutStore(local: Ledger, events: seq<Event>)
    requires Inv(local)
    ensures var cut := LeastCut(local, events, 0);
            Removed(local, Surplus(local, events)).store == map id | id in local.store && cut <= id :: local.store[id]
  {
    hide Inv, Removed, LeastCut;
    SurplusGone(local, events);
    var base, cut := Removed(local, Surplus(local, events)), LeastCut(local, events, 0);
    forall id | id in local.store && cut <= id ensures id in base.store {
      LooseToo(local);
      StaysClaimed(local, Surplus(local, events), id);
    }
  }

  lemma StaysClaimed(l: Ledger, gone: set<nat>, id: nat)
    requires Inv(l) && id in l.store && id !in gone
    ensures id in Removed(l, gone).store
  {
    hide OwnerKept, Kept, Budgets, QueueInv;
    OwnerKeptMembers(l.owner, gone);
    if id !in l.owner {
      var i :| 0 <= i < |l.slots| && InSlot(l.slots[i], id);
      KeptSources(l.slots[i].value.items, gone);
      assert InSlot(SlotsKept(l.slots, gone)[i], id);
    }
  }

  /** The room that a queue makes by itself: the oldest best-effort deliveries, as
      few as will do, and none where that cannot do. */
  lemma LocalRoom(l: Ledger, events: seq<Event>, i: nat)
    requires Inv(l) && i < SLOTS && Live(l, i)
    ensures Stocked(l.store, l.slots[i].value.items)
    ensures var q, slot := l.slots[i].value, Local(l, events, false).slots[i];
            if Granted(q.scope, events) != [] && exists k :: 0 <= k <= |q.items| && MakesRoom(l, q, events, k)
            then exists k :: 0 <= k <= |q.items| && MakesRoom(l, q, events, k) && (forall c :: 0 <= c < k ==> !MakesRoom(l, q, events, c))
                   && slot == Some(q.(items := q.items[k..]))
            else slot == Some(q)
  {
    hide Inv, QueueInv, LocalPlan, MakesRoom, Granted;
    InvSlots(l);
    var q := l.slots[i].value;
    StockedQueue(l, q);
    PlanMeans(l, q, events, false);
    PlanLeast(l, q, events);
    assert Local(l, events, false).slots[i] == Some(Evicted(l.store, q, events, false));
  }

  lemma PlanLeast(l: Ledger, q: Queue, events: seq<Event>)
    requires QueueInv(l.store, l.next, q)
    ensures Stocked(l.store, q.items)
    ensures var p := LocalPlan(l.store, q, events, false);
            p.Admit? ==> forall c :: 0 <= c < p.drop ==> !MakesRoom(l, q, events, c)
  {
    hide LeastDrop, Droppable, QueueSizes, GrantedSizes, Granted, Selected, SelectedBytes, QueueInv;
    StockedQueue(l, q);
    OffersGranted(q.scope, events, 0, 0);
    SelectedIsSum(q.scope, events);
    forall c | 0 <= c <= |q.items| ensures MakesRoom(l, q, events, c) ==> LocalFits(l.store, q, events, c) {
      QueueBytesIsSum(l.store, q.items[c..]);
    }
    DropMeans(l, q, events);
  }

  // ---- Identities ----------------------------------------------------------

  /** The batch's ids would leave 64 bits, at the source or in a subscription that
      was granted some of it. */
  ghost predicate RunsOut(l: Ledger, events: seq<Event>) {
    || l.next + |events| > 0xFFFF_FFFF_FFFF_FFFF
    || exists i :: 0 <= i < |l.slots| && RunsOutIn(l, i, events)
  }

  ghost predicate RunsOutIn(l: Ledger, i: nat, events: seq<Event>)
    requires i < |l.slots|
  {
    && Live(l, i) && Granted(l.slots[i].value.scope, events) != []
    && l.slots[i].value.next + |Granted(l.slots[i].value.scope, events)| > 0xFFFF_FFFF_FFFF_FFFF
  }

  lemma OverflowsExactly(l: Ledger, events: seq<Event>)
    ensures Overflows(l, events) <==> RunsOut(l, events)
  {
    hide Selected, Granted;
    forall i | 0 <= i < |l.slots| && l.slots[i].Some?
      ensures Selected(l.slots[i].value.scope, events) == |Granted(l.slots[i].value.scope, events)|
    {
      OffersGranted(l.slots[i].value.scope, events, 0, 0);
    }
    forall i | 0 <= i < |l.slots|
      ensures RunsOutIn(l, i, events) <==>
                l.slots[i].Some? && Selected(l.slots[i].value.scope, events) > 0
                && l.slots[i].value.next + Selected(l.slots[i].value.scope, events) > U64_MAX {}
  }

  /** What a call answers, case by case: the size of the batch, its identities, the
      clock, and for a required batch whether it was retained; in every other case
      what its commit says. */
  lemma AnswersExactly(l: Ledger, s: Step, l': Ledger)
    requires Inv(l) && s.Record? && RecordStep(l, s.events, s.required, s.clock, s.verdict, l', s.out)
    ensures s.out ==
            if !(1 <= |s.events| <= 16) then Outcome(Err(RequestInvalid), 0)
            else if RunsOut(l, s.events) || (l.available && |s.events| <= l.maxEvents && !s.clock)
                    || (s.required && !(Recordable(l, s.events) && RoomEverywhere(l, s.events) && Fit(l, s.events, 0)))
            then Outcome(Err(ObservationUnavailable), 0)
            else Outcome(s.verdict, 1)
  {
    hide Inv, Decide, Overflows, RunsOut, Recordable, RoomEverywhere, Fit, Publish, Advance, IdentitiesMoved, Unwrapped;
    OverflowsExactly(l, s.events);
    RequiredKeptExactly(l, s.events);
  }

  /** No identity of any record or delivery ever leaves 64 bits. */
  lemma {:induction false} IdentitiesFit(r: Run, k: nat)
    requires IsRun(r) && k < |r.states|
    ensures r.states[k].next <= 0xFFFF_FFFF_FFFF_FFFF
    ensures forall i :: 0 <= i < |r.states[k].slots| && Live(r.states[k], i) ==> r.states[k].slots[i].value.next <= 0xFFFF_FFFF_FFFF_FFFF
    decreases k
  {
    hide IsRun, Inv, Taken, Evolves;
    RunShape(r);
    if k == 0 {
      StartsLow(r);
    } else {
      IdentitiesFit(r, k - 1);
      RunStep(r, k - 1);
      RunInv(r, k - 1);
      RunInv(r, k);
      InvSlots(r.states[k - 1]);
      InvSlots(r.states[k]);
      StepIdentities(r.epoch, r.states[k - 1], r.steps[k - 1], r.states[k]);
      forall i | 0 <= i < SLOTS && Live(r.states[k], i) && !Live(r.states[k - 1], i) ensures r.states[k].slots[i].value.next == 1 {
        SlotTurns(r.epoch, r.states[k - 1], r.steps[k - 1], r.states[k], i);
      }
    }
  }

  lemma StartsLow(r: Run)
    requires IsRun(r)
    ensures r.states[0].next == 1 && forall i :: 0 <= i < |r.states[0].slots| ==> !Live(r.states[0], i)
  {
  }

  lemma StepIdentities(epoch: Epoch, l: Ledger, s: Step, l': Ledger)
    requires Inv(l) && Taken(epoch, l, s, l') && |l'.slots| == |l.slots|
    ensures Unwrapped(l, l')
  {
    hide Inv, RecordStep, ReleaseOwner, Reads, ValidScope, Kept;
    if s.Record? {
      RecordIdentities(l, s, l');
    } else if s.OwnerAck? {
      Releases.OwnerAckReleases(epoch, l, s, l');
    } else {
      InvSlots(l);
    }
  }

  lemma RecordIdentities(l: Ledger, s: Step, l': Ledger)
    requires Inv(l) && s.Record? && RecordStep(l, s.events, s.required, s.clock, s.verdict, l', s.out)
    ensures Unwrapped(l, l')
  {
    hide Inv, Decide, Selected, Offers, Recorded, Accepting;
    if Decide(l, s.events, s.required).Fits? { BaseNext(l, s.events, s.required); }
  }

  lemma BaseNext(l: Ledger, events: seq<Event>, required: bool)
    requires Inv(l) && Decide(l, events, required).Fits?
    ensures var base := Decide(l, events, required).base;
            && SameSlots(l, base)
            && forall i :: 0 <= i < |l.slots| && Live(l, i) ==>
                 base.slots[i].value.next == l.slots[i].value.next && base.slots[i].value.scope == l.slots[i].value.scope
  {
    hide Inv, Decide;
    FitsBase(l, events, required);
    InvSlots(l);
    forall i | 0 <= i < |l.slots| && Live(l, i)
      ensures Decide(l, events, required).base.slots[i].value.next == l.slots[i].value.next
      ensures Decide(l, events, required).base.slots[i].value.scope == l.slots[i].value.scope
    {
      BaseKeeps(l, events, required, i);
    }
  }
}
