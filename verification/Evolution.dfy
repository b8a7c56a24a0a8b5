/** What one recorder operation may change. Records and deliveries never come
    back or change; required ones leave only through an acknowledgment or a
    close; queues of one subscription never mix with another's. */
module Evolution {
  import opened Prelude
  import opened Events
  import opened Ledger
  import opened LedgerInvariant
  import opened Paging
  import opened Consumers

  // ---- One operation -------------------------------------------------------

  datatype Step =
    | Record(events: seq<Event>, required: bool, clock: bool, verdict: Result<()>, out: Outcome)
    | OwnerRead(ownerCursor: Option<Cursor>, ownerLimit: nat, ownerBytes: nat, ownerBatch: Result<Batch>)
    | OwnerAck(ownerAcked: Cursor, ownerReply: Result<()>)
    | Enroll(scope: Scope, limits: Limits, enrolled: nat, enrollment: Result<()>)
    | Read(reader: nat, cursor: Option<SubscriptionCursor>, limit: nat, maxBytes: nat, batch: Result<Batch>)
    | Ack(acker: nat, acked: SubscriptionCursor, reply: Result<()>)
    | Close(closed: nat)
    | SetAvailable(value: bool)

  ghost predicate Taken(epoch: Epoch, l: Ledger, s: Step, l': Ledger)
    requires Inv(l)
  {
    match s
    case Record(events, required, clock, verdict, out) => RecordStep(l, events, required, clock, verdict, l', out)
    case OwnerRead(cursor, limit, maxBytes, r) => l' == l && OwnerReadStep(l, epoch, cursor, limit, maxBytes, r)
    case OwnerAck(cursor, r) => OwnerAckStep(l, epoch, cursor, r, l')
    case Enroll(scope, limits, id, r) => SubscribeStep(l, scope, limits, id, r, l')
    case Read(id, cursor, limit, maxBytes, r) => SubscriptionReadStep(l, epoch, id, cursor, limit, maxBytes, r, l')
    case Ack(id, cursor, r) => SubscriptionAckStep(l, epoch, id, cursor, r, l')
    case Close(id) => CloseStep(l, id, l')
    case SetAvailable(value) => l' == l.(available := value)
  }

  // ---- What may change -----------------------------------------------------

  /** No old record appears or changes. */
  ghost predicate StoreEvolves(l: Ledger, l': Ledger) {
    && l.next <= l'.next
    && (forall id :: id in l'.store && id < l.next ==> id in l.store && l'.store[id] == l.store[id])
    && (forall id :: id in l'.owner && id < l.next ==> id in l.owner)
  }

  /** The same subscription, with nothing old added to its queue. */
  ghost predicate Continues(a: Queue, b: Queue, s: Step) {
    && b == a.(next := b.next, issued := b.issued, items := b.items)
    && a.next <= b.next && a.issued <= b.issued && (!s.Read? ==> b.issued == a.issued)
    && forall d :: d in b.items && d.id < a.next ==> d in a.items
  }

  ghost predicate SlotEvolves(a: Option<Queue>, b: Option<Queue>, s: Step) {
    match (a, b)
    case (None, None) => true
    case (None, Some(q)) => q.next == 1 && q.issued == 0 && q.items == []
    case (Some(_), None) => true
    case (Some(p), Some(q)) => Continues(p, q, s)
  }

  /** Required records and deliveries stay, but for those the step gives up. */
  ghost predicate OwnerRetains(l: Ledger, l': Ledger, s: Step) {
    forall id :: id in l.owner && id in l.store && l.store[id].required && !OwnerAcks(s, id) ==> id in l'.owner
  }

  ghost predicate OwnerAcks(s: Step, id: nat) {
    s.OwnerAck? && s.ownerReply.Ok? && id <= s.ownerAcked.after
  }

  ghost predicate GivesUp(s: Step, q: Queue, d: Delivery) {
    || (s.Ack? && s.reply.Ok? && s.acker == q.id && d.id <= s.acked.after)
    || (s.Close? && s.closed == q.id)
  }

  ghost predicate SlotRetains(l: Ledger, l': Ledger, i: nat, s: Step)
    requires i < |l.slots| && i < |l'.slots|
  {
    l.slots[i].Some? ==>
      && (s != Close(l.slots[i].value.id) ==> l'.slots[i].Some?)
      && forall d :: Bound(l, i, d) && !GivesUp(s, l.slots[i].value, d) ==> l'.slots[i].Some? && d in l'.slots[i].value.items
  }

  /** A required delivery that waits in slot `i`. */
  ghost predicate Bound(l: Ledger, i: nat, d: Delivery)
    requires i < |l.slots| && l.slots[i].Some?
  {
    d in l.slots[i].value.items && d.source in l.store && l.store[d.source].required
  }

  // ---- Recording -----------------------------------------------------------

  /** `base` is `l` with some best-effort records gone. */
  ghost predicate Shrinks(l: Ledger, base: Ledger) {
    && base == l.(store := base.store, owner := base.owner, slots := base.slots)
    && SubStore(base.store, l.store)
    && SameSlots(l, base)
    && (forall id :: id in base.owner ==> id in l.owner)
    && (forall id :: id in l.owner && id in l.store && l.store[id].required ==> id in base.owner)
    && (forall i :: 0 <= i < |l.slots| && l.slots[i].Some? ==> QueueShrinks(l.store, l.slots[i].value, base.slots[i].value))
  }

  ghost predicate QueueShrinks(store: map<nat, Entry>, a: Queue, b: Queue) {
    && b == a.(items := b.items)
    && (forall d :: d in b.items ==> d in a.items)
    && (forall d :: d in a.items && d.source in store && store[d.source].required ==> d in b.items)
  }

  lemma EvictedShrinks(l: Ledger, q: Queue, events: seq<Event>, required: bool)
    requires forall d :: d in q.items ==> d.source in l.store
    ensures QueueShrinks(l.store, q, Evicted(l.store, q, events, required))
  {
    hide Selected, SelectedBytes, LeastDrop, LocalFits;
    var p := LocalPlan(l.store, q, events, required);
    if p.Admit? {
      assert q.items == q.items[..p.drop] + q.items[p.drop..];
    }
  }

  lemma KeptShrinks(store: map<nat, Entry>, q: Queue, gone: set<nat>)
    requires forall id :: id in gone && id in store ==> !store[id].required
    ensures QueueShrinks(store, q, q.(items := Kept(q.items, gone)))
  {
    KeptMembers(q.items, gone);
  }

  lemma QueueShrinksTwice(store: map<nat, Entry>, a: Queue, b: Queue, c: Queue)
    requires QueueShrinks(store, a, b) && QueueShrinks(store, b, c)
    ensures QueueShrinks(store, a, c)
  {
  }

  lemma SurplusOptional(l: Ledger, events: seq<Event>, required: bool)
    requires Inv(l) && Decide(l, events, required).Fits?
    ensures var gone := Surplus(Local(l, events, required), events);
            && (forall id :: id in gone && id in l.store ==> !l.store[id].required)
            && Decide(l, events, required).base.owner == OwnerKept(l.owner, gone)
  {
    hide Inv, Shaped, SomeoneRefuses, GlobalFits, LocallyEvicted, LeastCut;
    var local := Local(l, events, required);
    assert SubStore(local.store, l.store);
  }

  lemma DecideShrinks(l: Ledger, events: seq<Event>, required: bool)
    requires Inv(l) && Decide(l, events, required).Fits?
    ensures Shrinks(l, Decide(l, events, required).base)
  {
    hide Decide, Evicted, Surplus, Local, QueueShrinks, Budgets;
    var base := Decide(l, events, required).base;
    var gone := Surplus(Local(l, events, required), events);
    FitsBase(l, events, required);
    SurplusOptional(l, events, required);
    OwnerKeptMembers(l.owner, gone);
    forall i | 0 <= i < |l.slots| && l.slots[i].Some?
      ensures QueueShrinks(l.store, l.slots[i].value, base.slots[i].value)
    {
      var q := l.slots[i].value;
      FitsSlot(l, events, required, i);
      assert QueueInv(l.store, l.next, q);
      EvictedShrinks(l, q, events, required);
      KeptShrinks(l.store, Evicted(l.store, q, events, required), gone);
      QueueShrinksTwice(l.store, q, Evicted(l.store, q, events, required), base.slots[i].value);
    }
  }

  lemma PublishEvolves(l: Ledger, base: Ledger, events: seq<Event>, required: bool, s: Step)
    requires Shrinks(l, base) && (forall id :: id in l.store ==> id < l.next) && s.Record?
    ensures var p := Publish(l, base, events, required);
            StoreEvolves(l, p) && OwnerRetains(l, p, s) && |p.slots| == |l.slots|
  {
    hide QueueShrinks, Extended, Accepting;
  }

  lemma PublishSlotEvolves(l: Ledger, base: Ledger, events: seq<Event>, required: bool, i: nat, s: Step)
    requires Shrinks(l, base) && i < |l.slots| && s.Record?
    ensures var p := Publish(l, base, events, required);
            |p.slots| == |l.slots| && SlotEvolves(l.slots[i], p.slots[i], s) && SlotRetains(l, p, i, s)
  {
    hide Accepting, Recorded, Sources, Selected;
    if l.slots[i].Some? {
      var b := base.slots[i].value;
      assert QueueShrinks(l.store, l.slots[i].value, b);
      OffersNumbered(b.scope, events, b.next, l.next);
    }
  }

  lemma MovedEvolves(l: Ledger, l': Ledger, events: seq<Event>, s: Step)
    requires IdentitiesMoved(l, l', events)
    ensures StoreEvolves(l, l') && OwnerRetains(l, l', s)
    ensures forall i :: 0 <= i < |l.slots| ==> SlotEvolves(l.slots[i], l'.slots[i], s) && SlotRetains(l, l', i, s)
  {
    forall i | 0 <= i < |l.slots| ensures SlotEvolves(l.slots[i], l'.slots[i], s) && SlotRetains(l, l', i, s) {
      assert SlotMoved(l.slots[i], l'.slots[i], events);
    }
  }

  /** What every step keeps, and what no step may do. */
  ghost predicate Evolves(l: Ledger, l': Ledger, s: Step) {
    && Inv(l')
    && StoreEvolves(l, l') && OwnerRetains(l, l', s)
    && |l'.slots| == |l.slots|
    && (forall i :: 0 <= i < |l.slots| ==> SlotEvolves(l.slots[i], l'.slots[i], s) && SlotRetains(l, l', i, s))
  }

  lemma SameEvolves(l: Ledger, s: Step)
    requires Inv(l)
    ensures Evolves(l, l, s)
  {
  }

  lemma RecordEvolves(l: Ledger, s: Step, l': Ledger)
    requires Inv(l) && s.Record? && RecordStep(l, s.events, s.required, s.clock, s.verdict, l', s.out)
    ensures Evolves(l, l', s)
  {
    hide Inv, IdentitiesMoved, Overflows, Decide, Advance, Publish, StoreEvolves, OwnerRetains, SlotEvolves, SlotRetains, Shrinks;
    AdvanceInv(l, s.events);
    AdvanceMoves(l, s.events);
    MovedEvolves(l, Advance(l, s.events), s.events, s);
    SameEvolves(l, s);
    MovedSlots(l, Advance(l, s.events), s.events);
    if l' == l || l' == Advance(l, s.events) {
    } else if Overflows(l, s.events) {
      MovedInv(l, l', s.events);
      MovedEvolves(l, l', s.events, s);
      MovedSlots(l, l', s.events);
    } else {
      FitsEvolves(l, s);
    }
  }

  lemma MovedSlots(l: Ledger, l': Ledger, events: seq<Event>)
    requires IdentitiesMoved(l, l', events)
    ensures |l'.slots| == |l.slots|
  {
  }

  lemma FitsEvolves(l: Ledger, s: Step)
    requires Inv(l) && s.Record? && Decide(l, s.events, s.required).Fits?
    ensures SameSlots(l, Decide(l, s.events, s.required).base)
    ensures Evolves(l, Publish(l, Decide(l, s.events, s.required).base, s.events, s.required), s)
  {
    hide Decide, Publish, StoreEvolves, OwnerRetains, SlotEvolves, SlotRetains, QueueShrinks, QueueInv, Budgets;
    var base := Decide(l, s.events, s.required).base;
    RecordInv(l, s.events, s.required);
    DecideShrinks(l, s.events, s.required);
    PublishEvolves(l, base, s.events, s.required, s);
    var p := Publish(l, base, s.events, s.required);
    forall i | 0 <= i < |l.slots| ensures SlotEvolves(l.slots[i], p.slots[i], s) && SlotRetains(l, p, i, s) {
      PublishSlotEvolves(l, base, s.events, s.required, i, s);
    }
  }

  // ---- The other operations ------------------------------------------------

  lemma OwnerAckEvolves(l: Ledger, epoch: Epoch, s: Step, l': Ledger)
    requires Inv(l) && s.OwnerAck? && OwnerAckStep(l, epoch, s.ownerAcked, s.ownerReply, l')
    ensures Evolves(l, l', s)
  {
    hide Inv, Budgets, QueueInv;
    SameEvolves(l, s);
    if s.ownerReply.Ok? {
      var gone := Through(l.owner, s.ownerAcked.after);
      OwnerKeptMembers(l.owner, gone);
      ReleaseOwnerInv(l, gone);
    }
  }

  lemma EnrollEvolves(l: Ledger, s: Step, l': Ledger)
    requires Inv(l) && s.Enroll? && SubscribeStep(l, s.scope, s.limits, s.enrolled, s.enrollment, l')
    ensures Evolves(l, l', s)
  {
    hide Inv, Budgets, QueueInv, ValidScope;
    SameEvolves(l, s);
    SubscribeInv(l, s.scope, s.limits, s.enrolled, s.enrollment, l');
  }

  lemma ReadEvolves(l: Ledger, epoch: Epoch, s: Step, l': Ledger)
    requires Inv(l) && s.Read? && SubscriptionReadStep(l, epoch, s.reader, s.cursor, s.limit, s.maxBytes, s.batch, l')
    ensures Evolves(l, l', s)
  {
    hide Inv, Budgets, QueueInv, Reads;
    SameEvolves(l, s);
    if l' != l {
      InvSlots(l);
      var i :| IsSlot(l.slots, s.reader, i) && SlotReadStep(l, epoch, i, s.cursor, s.limit, s.maxBytes, s.batch, l');
      IssuedInv(l, epoch, i, s.cursor, s.limit, s.maxBytes, s.batch, l');
    }
  }

  lemma ReleaseSlotEvolves(l: Ledger, i: nat, gone: set<nat>, s: Step)
    requires i < |l.slots| && l.slots[i].Some?
    ensures var l' := ReleaseSlot(l, i, gone);
            && StoreEvolves(l, l') && l'.owner == l.owner && |l'.slots| == |l.slots|
            && (forall k :: 0 <= k < |l.slots| && k != i ==> l'.slots[k] == l.slots[k])
            && l'.slots[i].Some? && Continues(l.slots[i].value, l'.slots[i].value, s)
            && forall d :: d in l.slots[i].value.items && d.source !in gone ==> d in l'.slots[i].value.items
  {
    KeptMembers(l.slots[i].value.items, gone);
  }

  /** Acknowledging through one delivery releases nothing behind it. */
  lemma ThroughOnly(q: Queue, store: map<nat, Entry>, next: nat, after: nat, d: Delivery)
    requires QueueInv(store, next, q) && d in q.items && d.id > after
    ensures d.source !in ThroughDelivery(q.items, after)
  {
  }

  lemma AckEvolves(l: Ledger, epoch: Epoch, s: Step, l': Ledger)
    requires Inv(l) && s.Ack? && SubscriptionAckStep(l, epoch, s.acker, s.acked, s.reply, l')
    ensures Evolves(l, l', s)
  {
    hide Inv, Budgets, QueueInv, ReleaseSlot, StoreEvolves, Continues, ThroughDelivery;
    SameEvolves(l, s);
    if s.reply.Ok? {
      InvSlots(l);
      var i: nat :| IsSlot(l.slots, s.acker, i) && SlotAckStep(l, epoch, i, s.acked, s.reply, l');
      var q := l.slots[i].value;
      var gone := ThroughDelivery(q.items, s.acked.after);
      ReleaseSlotInv(l, i, gone);
      ReleaseSlotEvolves(l, i, gone, s);
      SameContinues(l, s);
      forall d | d in q.items && d.id > s.acked.after ensures d.source !in gone {
        ThroughOnly(q, l.store, l.next, s.acked.after, d);
      }
    }
  }

  lemma SameContinues(l: Ledger, s: Step)
    ensures forall i :: 0 <= i < |l.slots| && l.slots[i].Some? ==> Continues(l.slots[i].value, l.slots[i].value, s)
  {
  }

  lemma CloseEvolves(l: Ledger, s: Step, l': Ledger)
    requires Inv(l) && s.Close? && CloseStep(l, s.closed, l')
    ensures Evolves(l, l', s)
  {
    hide Inv, Budgets, QueueInv, ReleaseSlot, Continues;
    SameEvolves(l, s);
    if exists i :: IsSlot(l.slots, s.closed, i) {
      InvSlots(l);
      var i: nat :| IsSlot(l.slots, s.closed, i) && l' == Closed(l, i);
      ClosedInv(l, i);
      ReleaseSlotEvolves(l, i, SourcesIn(l.slots[i].value.items), s);
      SameContinues(l, s);
    }
  }

  lemma SetAvailableEvolves(l: Ledger, s: Step, l': Ledger)
    requires Inv(l) && s.SetAvailable? && l' == l.(available := s.value)
    ensures Evolves(l, l', s)
  {
  }

  /** Every operation keeps the retention invariant, adds nothing old, changes
      no stored record, and gives up required records only as it says. */
  lemma StepEvolves(epoch: Epoch, l: Ledger, s: Step, l': Ledger)
    requires Inv(l) && Taken(epoch, l, s, l')
    ensures Evolves(l, l', s)
  {
    hide Inv, RecordStep, OwnerReadStep, OwnerAckStep, SubscribeStep, SubscriptionReadStep, SubscriptionAckStep, CloseStep, Evolves;
    match s
    case Record(_, _, _, _, _) => RecordEvolves(l, s, l');
    case OwnerRead(_, _, _, _) => SameEvolves(l, s);
    case OwnerAck(_, _) => OwnerAckEvolves(l, epoch, s, l');
    case Enroll(_, _, _, _) => EnrollEvolves(l, s, l');
    case Read(_, _, _, _, _) => ReadEvolves(l, epoch, s, l');
    case Ack(_, _, _) => AckEvolves(l, epoch, s, l');
    case Close(_) => CloseEvolves(l, s, l');
    case SetAvailable(_) => SetAvailableEvolves(l, s, l');
  }

  lemma EvolvesParts(l: Ledger, l': Ledger, s: Step)
    requires Evolves(l, l', s)
    ensures Inv(l') && StoreEvolves(l, l')
  {
  }
}
