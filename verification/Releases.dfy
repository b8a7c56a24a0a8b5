/** What acknowledging, closing and enrolling do to every queue and record, and
    what a consumer with a foreign or closed handle gets. */
module Releases {
  import opened Prelude
  import opened Sums
  import opened Events
  import opened Ledger
  import opened LedgerInvariant
  import opened RecorderState
  import opened Paging
  import opened Consumers
  import opened Evolution
  import opened Runs
  import opened Grants

  /** `source` is still in the owner's queue or in a subscriber's. */
  ghost predicate Wanted(l: Ledger, source: nat) {
    || source in l.owner
    || exists i, d :: 0 <= i < |l.slots| && l.slots[i].Some? && d in l.slots[i].value.items && d.source == source
  }

  /** Exactly the records are left that some queue of `l'` still wants, unchanged. */
  ghost predicate LeavesWanted(l: Ledger, l': Ledger) {
    && (forall id :: id in l'.store <==> id in l.store && Wanted(l', id))
    && (forall id :: id in l'.store ==> l'.store[id] == l.store[id])
  }

  lemma PurgeLeaves(l: Ledger)
    ensures LeavesWanted(l, Purge(l))
  {
    forall id ensures Wanted(l, id) <==> id in l.owner || Claimed(l.slots, id) {
      if Claimed(l.slots, id) {
        var i :| 0 <= i < |l.slots| && InSlot(l.slots[i], id);
        var k :| 0 <= k < |l.slots[i].value.items| && l.slots[i].value.items[k].source == id;
        assert l.slots[i].value.items[k] in l.slots[i].value.items;
      }
      if i, d :| 0 <= i < |l.slots| && l.slots[i].Some? && d in l.slots[i].value.items && d.source == id {
        var k :| 0 <= k < |l.slots[i].value.items| && l.slots[i].value.items[k] == d;
        assert InSlot(l.slots[i], id);
      }
    }
    forall id ensures Wanted(Purge(l), id) <==> Wanted(l, id) {}
  }

  // ---- Acknowledgments -----------------------------------------------------

  /** An owner acknowledgment takes exactly the ids up to its cursor from the
      owner's queue, and with them the records that no subscriber still wants; one
      with another epoch or an id not given out yet changes nothing. */
  lemma OwnerAckReleases(epoch: Epoch, l: Ledger, s: Step, l': Ledger)
    requires Inv(l) && s.OwnerAck? && Taken(epoch, l, s, l')
    ensures s.ownerReply == if s.ownerAcked.epoch == epoch && s.ownerAcked.after < l.next then Ok(()) else Err(RequestInvalid)
    ensures s.ownerReply.Err? ==> l' == l
    ensures s.ownerReply.Ok? ==>
              && (forall id :: id in l'.owner <==> id in l.owner && id > s.ownerAcked.after) && Increasing(l'.owner)
              && l'.slots == l.slots && l'.next == l.next && LeavesWanted(l, l')
  {
    hide Inv, LeavesWanted, Purge;
    if s.ownerReply.Ok? {
      var gone := Through(l.owner, s.ownerAcked.after);
      OwnerKeptMembers(l.owner, gone);
      ReleaseOwnerInv(l, gone);
      OwnerRises(l');
      PurgeLeaves(l.(owner := OwnerKept(l.owner, gone)));
      Purged(l.(owner := OwnerKept(l.owner, gone)));
      hide OwnerKept;
      SameStore(l, l.(owner := OwnerKept(l.owner, gone)), l');
    }
  }

  lemma OwnerRises(l: Ledger)
    requires Inv(l)
    ensures Increasing(l.owner)
  {
  }

  lemma Purged(l: Ledger)
    ensures Purge(l) == l.(store := Purge(l).store)
  {
  }

  lemma SameStore(l: Ledger, m: Ledger, l': Ledger)
    requires m.store == l.store && LeavesWanted(m, l')
    ensures LeavesWanted(l, l')
  {
  }

  /** A subscriber's acknowledgment takes exactly the deliveries up to its cursor
      from its own queue, and is refused unless the cursor names this epoch and
      subscription and an id that a read has given out. */
  lemma AckReleases(epoch: Epoch, l: Ledger, s: Step, l': Ledger, i: nat)
    requires Inv(l) && s.Ack? && Taken(epoch, l, s, l') && IsSlot(l.slots, s.acker, i) && i < SLOTS
    ensures var q := l.slots[i].value;
            s.reply == if s.acked.epoch == epoch && s.acked.subscription == s.acker && s.acked.after <= q.issued then Ok(()) else Err(RequestInvalid)
    ensures s.reply.Err? ==> l' == l
    ensures s.reply.Ok? ==>
              && Live(l', i) && l'.slots[i].value == l.slots[i].value.(items := l'.slots[i].value.items)
              && (forall d :: d in l'.slots[i].value.items <==> d in l.slots[i].value.items && d.id > s.acked.after)
              && Ordered(l'.slots[i].value.items)
              && l'.owner == l.owner && |l'.slots| == |l.slots| && (forall k :: 0 <= k < |l.slots| && k != i ==> l'.slots[k] == l.slots[k])
              && LeavesWanted(l, l')
  {
    hide Inv, LeavesWanted, ReleaseSlot, QueueInv, ThroughDelivery, Kept;
    InvSlots(l);
    var k: nat :| IsSlot(l.slots, s.acker, k) && SlotAckStep(l, epoch, k, s.acked, s.reply, l');
    SlotUnique(l.slots, s.acker, i, k);
    if s.reply.Ok? {
      var q := l.slots[i].value;
      var gone := ThroughDelivery(q.items, s.acked.after);
      ReleaseLeaves(l, i, gone);
      ReleaseSlotInv(l, i, gone);
      SlotRises(l', i);
      KeptMembers(q.items, gone);
      forall d | d in q.items ensures d.source in gone <==> d.id <= s.acked.after {
        ThroughMember(l, i, d, s.acked.after);
      }
    }
  }

  lemma ThroughMember(l: Ledger, i: nat, d: Delivery, after: nat)
    requires Inv(l) && i < SLOTS && Live(l, i) && d in l.slots[i].value.items
    ensures d.source in ThroughDelivery(l.slots[i].value.items, after) <==> d.id <= after
  {
    hide Budgets;
    assert QueueInv(l.store, l.next, l.slots[i].value);
    if d.id > after { ThroughOnly(l.slots[i].value, l.store, l.next, after, d); }
  }

  lemma SlotRises(l: Ledger, i: nat)
    requires Inv(l) && i < SLOTS && Live(l, i)
    ensures Ordered(l.slots[i].value.items)
  {
    hide Budgets;
    assert QueueInv(l.store, l.next, l.slots[i].value);
  }

  lemma ReleaseLeaves(l: Ledger, i: nat, gone: set<nat>)
    requires i < |l.slots| && Live(l, i)
    ensures var l' := ReleaseSlot(l, i, gone);
            && LeavesWanted(l, l')
            && l' == l.(store := l'.store, slots := l.slots[i := Some(l.slots[i].value.(items := Kept(l.slots[i].value.items, gone)))])
  {
    hide Purge, LeavesWanted, Kept;
    var m := l.(slots := l.slots[i := SlotKept(l.slots[i], gone)]);
    PurgeLeaves(m);
    Purged(m);
    SameStore(l, m, ReleaseSlot(l, i, gone));
  }

  // ---- Closing -------------------------------------------------------------

  /** Closing frees the subscription's slot, and with it the records that it
      alone still wanted; every other queue stays as it is. */
  lemma CloseReleases(epoch: Epoch, l: Ledger, s: Step, l': Ledger, i: nat)
    requires Inv(l) && s.Close? && Taken(epoch, l, s, l') && IsSlot(l.slots, s.closed, i) && i < SLOTS
    ensures |l'.slots| == |l.slots| && l'.slots[i].None? && (forall k :: 0 <= k < |l.slots| && k != i ==> l'.slots[k] == l.slots[k])
    ensures l'.owner == l.owner && l'.next == l.next && LeavesWanted(l, l')
  {
    hide Inv, LeavesWanted, ReleaseSlot, SourcesIn, Kept;
    InvSlots(l);
    var k: nat :| IsSlot(l.slots, s.closed, k) && l' == Closed(l, k);
    SlotUnique(l.slots, s.closed, i, k);
    var gone := SourcesIn(l.slots[i].value.items);
    ReleaseLeaves(l, i, gone);
    ClosedInv(l, i);
    var m := ReleaseSlot(l, i, gone);
    EmptyWantsNothing(m, i);
    SlotGone(l, m, l');
  }

  lemma EmptyWantsNothing(m: Ledger, i: nat)
    requires i < |m.slots| && Live(m, i) && m.slots[i].value.items == []
    ensures forall id :: Wanted(m, id) <==> Wanted(WithSlot(m, i, None), id)
  {
    var n := WithSlot(m, i, None);
    forall id ensures Wanted(m, id) <==> Wanted(n, id) {
      if k, d :| 0 <= k < |m.slots| && m.slots[k].Some? && d in m.slots[k].value.items && d.source == id {
        assert n.slots[k] == m.slots[k];
      }
      if k, d :| 0 <= k < |n.slots| && n.slots[k].Some? && d in n.slots[k].value.items && d.source == id {
        assert n.slots[k] == m.slots[k];
      }
    }
  }

  lemma SlotGone(l: Ledger, m: Ledger, l': Ledger)
    requires LeavesWanted(l, m) && l'.store == m.store && forall id :: Wanted(m, id) <==> Wanted(l', id)
    ensures LeavesWanted(l, l')
  {
    hide Wanted;
  }

  /** A subscription id is random: no two enrollments of a run share one. */
  ghost predicate DistinctIds(r: Run) {
    forall a, b :: 0 <= a < b < |r.steps| && r.steps[a].Enroll? && r.steps[b].Enroll? ==> r.steps[a].enrolled != r.steps[b].enrolled
  }

  /** Two slots with one id are one slot. */
  lemma OneSlotEach(r: Run, k: nat, i: nat, n: nat)
    requires IsRun(r) && DistinctIds(r) && k < |r.states| && i < SLOTS && n < SLOTS
    requires Live(r.states[k], i) && Live(r.states[k], n) && r.states[k].slots[i].value.id == r.states[k].slots[n].value.id
    ensures i == n
  {
    hide IsRun, Inv, Evolves;
    var a := EnrolledBy(r, i, k);
    var b := EnrolledBy(r, n, k);
    assert a == b;
    RunStep(r, a);
    hide Taken;
    assert Live(r.states[a + 1], i) && Live(r.states[a + 1], n);
    EnrollsOne(r.epoch, r.states[a], r.steps[a], r.states[a + 1], i, n);
  }

  lemma EnrollsOne(epoch: Epoch, l: Ledger, s: Step, l': Ledger, i: nat, n: nat)
    requires Inv(l) && s.Enroll? && Taken(epoch, l, s, l') && !Live(l, i) && !Live(l, n) && Live(l', i) && Live(l', n)
    ensures i == n
  {
    hide Inv, ValidScope, ValidLimits;
  }

  /** A subscription that was closed is never heard of again: every later read or
      acknowledgment under its id is refused. */
  lemma ClosedForGood(r: Run, c: nat, i: nat, k: nat)
    requires IsRun(r) && DistinctIds(r) && c < k < |r.steps| && |r.states| == |r.steps| + 1
    requires r.steps[c].Close? && i < SLOTS && IsSlot(r.states[c].slots, r.steps[c].closed, i)
    ensures r.steps[k].Read? && r.steps[k].reader == r.steps[c].closed ==> r.steps[k].batch.Err?
    ensures r.steps[k].Ack? && r.steps[k].acker == r.steps[c].closed ==> r.steps[k].reply == Err(ObservationUnavailable)
  {
    hide IsRun, Inv, Evolves, DistinctIds, SlotReadStep, SlotAckStep;
    RunStep(r, k);
    RunInv(r, k);
    InvSlots(r.states[k]);
    forall n | 0 <= n < SLOTS && Live(r.states[k], n) ensures r.states[k].slots[n].value.id != r.steps[c].closed {
      NeverAgain(r, c, i, k, n);
    }
    assert !exists n :: IsSlot(r.states[k].slots, r.steps[c].closed, n);
  }

  lemma NeverAgain(r: Run, c: nat, i: nat, k: nat, n: nat)
    requires IsRun(r) && DistinctIds(r) && c < k < |r.steps| && |r.states| == |r.steps| + 1
    requires r.steps[c].Close? && i < SLOTS && IsSlot(r.states[c].slots, r.steps[c].closed, i)
    requires n < SLOTS && Live(r.states[k], n)
    ensures r.states[k].slots[n].value.id != r.steps[c].closed
  {
    hide IsRun, Inv, Evolves, Taken;
    if r.states[k].slots[n].value.id == r.steps[c].closed {
      var a := EnrolledBy(r, i, c);
      var b := EnrolledBy(r, n, k);
      assert a == b;
      RunStep(r, c);
      CloseReleases(r.epoch, r.states[c], r.steps[c], r.states[c + 1], i);
      assert Live(r.states[c], n) && Live(r.states[c + 1], n);
      assert r.states[c].slots[n].value.id == r.steps[c].closed by {
        var d := EnrolledBy(r, n, c);
        assert d == a by { SameEnrollment(r, n, a, d, c, k); }
      }
      OneSlotEach(r, c, i, n);
    }
  }

  lemma SameEnrollment(r: Run, n: nat, a: nat, d: nat, c: nat, k: nat)
    requires a < c < k < |r.states| && d < c && LiveFrom(r, n, a + 1, k) && LiveFrom(r, n, d + 1, c)
    requires !Live(r.states[a], n) && !Live(r.states[d], n)
    ensures a == d
  {
  }
}
