/** What the owner and the subscribers do with the ledger: enroll, read,
    acknowledge and close. */
module Consumers {
  import opened Prelude
  import opened Events
  import opened Ledger
  import opened LedgerInvariant
  import opened Paging

  const MIN_QUEUE_BYTES: nat := 512
  const MAX_SCOPE_SESSIONS: nat := 64
  const DELIVERY_FRAME: nat := 26

  /** Names one incarnation of the daemon. */
  type Epoch = int

  datatype Cursor = Cursor(epoch: Epoch, after: nat)

  datatype SubscriptionCursor = SubscriptionCursor(epoch: Epoch, subscription: nat, after: nat)

  datatype Told = Told(id: nat, source: nat, event: Event)

  datatype Batch = Batch(told: seq<Told>, gap: Option<Gap>, after: nat)

  // ---- Pages of a queue ----------------------------------------------------

  function Ids(items: seq<Delivery>): seq<nat> {
    seq(|items|, k requires 0 <= k < |items| => items[k].id)
  }

  function Digits(n: nat): nat {
    if n < 10 then 1 else 1 + Digits(n / 10)
  }

  /** A record's share of a page; a subscriber's is wrapped with its delivery id. */
  function Share(store: map<nat, Entry>, d: Delivery, wrapped: bool): nat {
    (if d.source in store then store[d.source].event.encoded else 0)
    + (if wrapped then DELIVERY_FRAME + Digits(d.id) else 0)
  }

  function Sizes(store: map<nat, Entry>, items: seq<Delivery>, wrapped: bool): seq<nat> {
    seq(|items|, k requires 0 <= k < |items| => Share(store, items[k], wrapped))
  }

  ghost predicate Stocked(store: map<nat, Entry>, items: seq<Delivery>) {
    forall k :: 0 <= k < |items| ==> items[k].source in store
  }

  function Tell(store: map<nat, Entry>, d: Delivery): Told
    requires d.source in store
  {
    Told(d.id, d.source, store[d.source].event)
  }

  function Render(store: map<nat, Entry>, items: seq<Delivery>, page: Result<Page>): Result<Batch>
    requires Stocked(store, items)
    requires page.Ok? ==> page.value.start <= page.value.end <= |items|
  {
    match page
    case Err(e) => Err(e)
    case Ok(p) => Ok(Batch(seq(p.end - p.start, k requires 0 <= k < p.end - p.start => Tell(store, items[p.start + k])),
                           p.gap, p.after))
  }

  ghost predicate PageFor(items: seq<Delivery>, sizes: seq<nat>, next: nat, after: nat, previous: bool,
                          limit: nat, maxBytes: nat, page: Result<Page>)
    requires |sizes| == |items|
  {
    var ids := Ids(items);
    match page
    case Err(e) => e == LimitExceeded && exists k :: TooLarge(ids, sizes, after, maxBytes, k)
    case Ok(p) =>
      && p.start <= p.end <= |items|
      && IsPage(ids, sizes, after, p.start, p.end, limit, maxBytes)
      && Accounts(ids, next, after, previous, p)
      && First(ids, p.start, next) > after
      && p.gap == GapBefore(First(ids, p.start, next), after, previous)
      && p.after == First(ids, p.start, next) + (p.end - p.start) - 1
      && !exists k :: TooLarge(ids, sizes, after, maxBytes, k)
  }

  ghost predicate Reads(store: map<nat, Entry>, items: seq<Delivery>, wrapped: bool, next: nat, after: nat, previous: bool,
                        limit: nat, maxBytes: nat, r: Result<Batch>)
    requires Stocked(store, items)
  {
    exists page :: PageFor(items, Sizes(store, items, wrapped), next, after, previous, limit, maxBytes, page)
                   && r == Render(store, items, page)
  }

  // ---- The owner -----------------------------------------------------------

  function OwnerItems(owner: seq<nat>): seq<Delivery> {
    seq(|owner|, k requires 0 <= k < |owner| => Delivery(owner[k], owner[k]))
  }

  predicate Previous(epoch: Epoch, cursor: Option<Cursor>) {
    cursor.Some? && cursor.value.epoch != epoch
  }

  function After(epoch: Epoch, cursor: Option<Cursor>): nat {
    if cursor.None? || Previous(epoch, cursor) then 0 else cursor.value.after
  }

  ghost predicate OwnerReadStep(l: Ledger, epoch: Epoch, cursor: Option<Cursor>, limit: nat, maxBytes: nat, r: Result<Batch>)
    requires Inv(l)
  {
    if !PageBounds(limit, maxBytes) || After(epoch, cursor) >= l.next then r == Err(RequestInvalid)
    else Reads(l.store, OwnerItems(l.owner), false, l.next, After(epoch, cursor), Previous(epoch, cursor), limit, maxBytes, r)
  }

  ghost function Through(owner: seq<nat>, after: nat): set<nat> {
    set id | id in owner && id <= after
  }

  ghost predicate OwnerAckStep(l: Ledger, epoch: Epoch, cursor: Cursor, r: Result<()>, l': Ledger) {
    if cursor.epoch != epoch || cursor.after >= l.next then r == Err(RequestInvalid) && l' == l
    else r == Ok(()) && l' == ReleaseOwner(l, Through(l.owner, cursor.after))
  }

  // ---- Subscribers ---------------------------------------------------------

  predicate ValidScope(s: Scope) {
    && 1 <= |s.sessions| <= MAX_SCOPE_SESSIONS
    && (forall k :: 0 <= k < |s.sessions| ==> WellFormed(s.sessions[k]))
    && (forall j, k :: 0 <= j < k < |s.sessions| ==> s.sessions[j] != s.sessions[k])
    && 1 <= |s.views| <= 2 && (|s.views| == 2 ==> s.views[0] != s.views[1])
    && 1 <= |s.classes| <= 2 && (|s.classes| == 2 ==> s.classes[0] != s.classes[1])
  }

  predicate ValidLimits(l: Ledger, limits: Limits) {
    1 <= limits.maxEvents <= l.maxEvents && MIN_QUEUE_BYTES <= limits.maxBytes <= l.maxBytes
  }

  /** The first slot with `id`, or the first free one. */
  ghost predicate IsSlot(slots: seq<Option<Queue>>, id: nat, i: nat) {
    && i < |slots| && slots[i].Some? && slots[i].value.id == id
    && forall k :: 0 <= k < i ==> !(slots[k].Some? && slots[k].value.id == id)
  }

  ghost predicate IsFree(slots: seq<Option<Queue>>, i: nat) {
    i < |slots| && slots[i].None? && forall k :: 0 <= k < i ==> slots[k].Some?
  }

  function Enrolled(id: nat, scope: Scope, limits: Limits): Queue {
    Queue(id, scope, limits, 1, 0, [])
  }

  ghost predicate SubscribeStep(l: Ledger, scope: Scope, limits: Limits, id: nat, r: Result<()>, l': Ledger) {
    if !ValidScope(scope) || !ValidLimits(l, limits) then r == Err(RequestInvalid) && l' == l
    else if forall i :: 0 <= i < |l.slots| ==> l.slots[i].Some? then r == Err(LimitExceeded) && l' == l
    else r == Ok(()) && exists i :: IsFree(l.slots, i) && l' == WithSlot(l, i, Some(Enrolled(id, scope, limits)))
  }

  ghost function WithSlot(l: Ledger, i: nat, slot: Option<Queue>): Ledger
    requires i < |l.slots|
  {
    l.(slots := l.slots[i := slot])
  }

  predicate CursorFits(epoch: Epoch, q: Queue, id: nat, cursor: SubscriptionCursor) {
    cursor.subscription == id && cursor.epoch == epoch && cursor.after <= q.issued
  }

  function SubscriptionAfter(cursor: Option<SubscriptionCursor>): nat {
    if cursor.None? then 0 else cursor.value.after
  }

  ghost predicate SubscriptionReadStep(l: Ledger, epoch: Epoch, id: nat, cursor: Option<SubscriptionCursor>, limit: nat, maxBytes: nat,
                                       r: Result<Batch>, l': Ledger)
    requires Inv(l)
  {
    if !PageBounds(limit, maxBytes) then r == Err(RequestInvalid) && l' == l
    else if !exists i :: IsSlot(l.slots, id, i) then r == Err(ObservationUnavailable) && l' == l
    else exists i :: IsSlot(l.slots, id, i) && SlotReadStep(l, epoch, i, cursor, limit, maxBytes, r, l')
  }

  ghost predicate SlotReadStep(l: Ledger, epoch: Epoch, i: nat, cursor: Option<SubscriptionCursor>, limit: nat, maxBytes: nat,
                               r: Result<Batch>, l': Ledger)
    requires Inv(l) && i < SLOTS && l.slots[i].Some?
  {
    var q := l.slots[i].value;
    if cursor.Some? && !CursorFits(epoch, q, q.id, cursor.value) then r == Err(RequestInvalid) && l' == l
    else
      && Reads(l.store, q.items, true, q.next, SubscriptionAfter(cursor), false, limit, maxBytes, r)
      && l' == if r.Ok? then WithSlot(l, i, Some(q.(issued := Max(q.issued, r.value.after)))) else l
  }

  ghost function ThroughDelivery(items: seq<Delivery>, after: nat): set<nat> {
    set k | 0 <= k < |items| && items[k].id <= after :: items[k].source
  }

  ghost predicate SubscriptionAckStep(l: Ledger, epoch: Epoch, id: nat, cursor: SubscriptionCursor, r: Result<()>, l': Ledger)
    requires Inv(l)
  {
    if !exists i :: IsSlot(l.slots, id, i) then r == Err(ObservationUnavailable) && l' == l
    else exists i :: IsSlot(l.slots, id, i) && SlotAckStep(l, epoch, i, cursor, r, l')
  }

  ghost predicate SlotAckStep(l: Ledger, epoch: Epoch, i: nat, cursor: SubscriptionCursor, r: Result<()>, l': Ledger)
    requires Inv(l) && i < SLOTS && l.slots[i].Some?
  {
    var q := l.slots[i].value;
    if !CursorFits(epoch, q, q.id, cursor) then r == Err(RequestInvalid) && l' == l
    else r == Ok(()) && l' == ReleaseSlot(l, i, ThroughDelivery(q.items, cursor.after))
  }

  ghost function SourcesIn(items: seq<Delivery>): set<nat> {
    set k | 0 <= k < |items| :: items[k].source
  }

  ghost function Closed(l: Ledger, i: nat): Ledger
    requires i < |l.slots| && l.slots[i].Some?
  {
    var released := ReleaseSlot(l, i, SourcesIn(l.slots[i].value.items));
    WithSlot(released, i, None)
  }

  ghost predicate CloseStep(l: Ledger, id: nat, l': Ledger)
    requires Inv(l)
  {
    if !exists i :: IsSlot(l.slots, id, i) then l' == l
    else exists i :: IsSlot(l.slots, id, i) && l' == Closed(l, i)
  }

  // ---- These keep the retention invariant ----------------------------------

  lemma SlotUnique(slots: seq<Option<Queue>>, id: nat, i: nat, j: nat)
    requires IsSlot(slots, id, i) && IsSlot(slots, id, j)
    ensures i == j
  {
  }

  /** Replacing a slot by one that holds the same records keeps the invariant. */
  lemma SlotReplaced(l: Ledger, i: nat, slot: Option<Queue>)
    requires Inv(l) && i < SLOTS
    requires forall id :: InSlot(slot, id) <==> InSlot(l.slots[i], id)
    requires slot.Some? ==> QueueInv(l.store, l.next, slot.value)
    ensures Inv(WithSlot(l, i, slot))
  {
    hide InSlot, QueueInv, Held;
    var l' := WithSlot(l, i, slot);
    forall id | id in l.store && id !in l.owner ensures Claimed(l'.slots, id) {
      var k :| 0 <= k < SLOTS && InSlot(l.slots[k], id);
      assert InSlot(l'.slots[k], id);
    }
  }

  /** Enrolling keeps the invariant, */
  lemma SubscribeInv(l: Ledger, scope: Scope, limits: Limits, id: nat, r: Result<()>, l': Ledger)
    requires Inv(l) && SubscribeStep(l, scope, limits, id, r, l')
    ensures Inv(l')
  {
    hide Inv;
    if r.Ok? {
      var i :| IsFree(l.slots, i) && l' == WithSlot(l, i, Some(Enrolled(id, scope, limits)));
      InvSlots(l);
      SlotReplaced(l, i, Some(Enrolled(id, scope, limits)));
    }
  }

  lemma InvSlots(l: Ledger)
    requires Inv(l)
    ensures |l.slots| == SLOTS
    ensures forall i :: 0 <= i < SLOTS && l.slots[i].Some? ==> QueueInv(l.store, l.next, l.slots[i].value)
  {
  }

  /** so does raising the bound that a read has issued, */
  lemma IssuedInv(l: Ledger, epoch: Epoch, i: nat, cursor: Option<SubscriptionCursor>, limit: nat, maxBytes: nat, r: Result<Batch>, l': Ledger)
    requires Inv(l) && i < SLOTS && l.slots[i].Some?
    requires SlotReadStep(l, epoch, i, cursor, limit, maxBytes, r, l')
    ensures Inv(l')
  {
    hide Inv, IsPage, TooLarge;
    InvSlots(l);
    if r.Ok? {
      var q := l.slots[i].value;
      SlotReplaced(l, i, Some(q.(issued := Max(q.issued, r.value.after))));
    }
  }

  lemma EmptiedItems(items: seq<Delivery>, gone: set<nat>)
    requires forall k :: 0 <= k < |items| ==> items[k].source in gone
    ensures Kept(items, gone) == []
  {
    FilterNone((d: Delivery) => d.source !in gone, items);
  }

  /** and so does closing. */
  lemma ClosedInv(l: Ledger, i: nat)
    requires Inv(l) && i < SLOTS && l.slots[i].Some?
    ensures Inv(Closed(l, i))
    ensures ReleaseSlot(l, i, SourcesIn(l.slots[i].value.items)).slots[i] == Some(l.slots[i].value.(items := []))
  {
    hide Inv;
    InvSlots(l);
    var q := l.slots[i].value;
    var gone := SourcesIn(q.items);
    EmptiedItems(q.items, gone);
    ReleaseSlotInv(l, i, gone);
    SlotReplaced(ReleaseSlot(l, i, gone), i, None);
  }

  // ---- Queues, as their readers see them -----------------------------------

  lemma OwnerQueue(l: Ledger)
    requires Inv(l)
    ensures Stocked(l.store, OwnerItems(l.owner))
    ensures Ascending(Ids(OwnerItems(l.owner)))
    ensures forall k :: 0 <= k < |l.owner| ==> 1 <= OwnerItems(l.owner)[k].id < l.next
  {
    forall k | 0 <= k < |l.owner| ensures l.owner[k] in l.store { assert l.owner[k] in l.owner; }
  }

  lemma SlotQueue(l: Ledger, i: nat)
    requires Inv(l) && i < SLOTS && l.slots[i].Some?
    ensures var q := l.slots[i].value;
            && q.issued < q.next
            && Stocked(l.store, q.items) && Ascending(Ids(q.items))
            && forall k :: 0 <= k < |q.items| ==> 1 <= q.items[k].id < q.next
  {
    hide Budgets, Held;
  }

  lemma ReadsBelow(store: map<nat, Entry>, items: seq<Delivery>, wrapped: bool, next: nat, after: nat, previous: bool,
                   limit: nat, maxBytes: nat, r: Result<Batch>)
    requires Stocked(store, items) && Reads(store, items, wrapped, next, after, previous, limit, maxBytes, r)
    ensures r.Ok? ==> after <= r.value.after < next
  {
  }

  lemma IssuedQueueInv(store: map<nat, Entry>, next: nat, q: Queue, issued: nat)
    requires QueueInv(store, next, q) && issued < q.next
    ensures QueueInv(store, next, q.(issued := issued))
    ensures forall id :: InSlot(Some(q.(issued := issued)), id) <==> InSlot(Some(q), id)
  {
  }

  lemma EnrolledFits(l: Ledger, i: nat, id: nat, scope: Scope, limits: Limits)
    requires i < |l.slots| && l.slots[i].None?
    ensures forall source :: InSlot(Some(Enrolled(id, scope, limits)), source) <==> InSlot(l.slots[i], source)
    ensures QueueInv(l.store, l.next, Enrolled(id, scope, limits))
    ensures QueueBytes(l.store, Enrolled(id, scope, limits).items) == 0
  {
  }

  lemma EmptySlot(slot: Option<Queue>)
    requires slot.Some? && slot.value.items == []
    ensures forall source :: InSlot(slot, source) <==> InSlot(None, source)
  {
  }

  lemma ThroughPrefix(owner: seq<nat>, k: nat, after: nat)
    requires k <= |owner| && forall j :: k <= j < |owner| ==> owner[j] > after
    ensures Through(owner[..k], after) == Through(owner, after)
  {
    assert owner == owner[..k] + owner[k..];
  }

  lemma ThroughNext(items: seq<Delivery>, k: nat, after: nat)
    requires k < |items| && items[k].id <= after
    ensures ThroughDelivery(items[..k + 1], after) == ThroughDelivery(items[..k], after) + {items[k].source}
  {
    var a, b := ThroughDelivery(items[..k + 1], after), ThroughDelivery(items[..k], after) + {items[k].source};
    forall s | s in a ensures s in b {
      var j :| 0 <= j < k + 1 && items[..k + 1][j].id <= after && items[..k + 1][j].source == s;
      if j < k { assert items[..k][j] == items[j]; }
    }
    forall s | s in b ensures s in a {
      var j :| 0 <= j < k + 1 && items[j].id <= after && items[j].source == s;
      assert items[..k + 1][j] == items[j];
    }
  }

  lemma ThroughDeliveryPrefix(store: map<nat, Entry>, next: nat, q: Queue, k: nat, after: nat)
    requires QueueInv(store, next, q)
    requires k <= |q.items| && (k < |q.items| ==> q.items[k].id > after)
    ensures ThroughDelivery(q.items[..k], after) == ThroughDelivery(q.items, after)
  {
    forall j | 0 <= j < |q.items| && q.items[j].id <= after ensures j < k && q.items[..k][j] == q.items[j] {}
  }
}
