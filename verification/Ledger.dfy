/** What the shared recorder retains, as a value: one record store, an owner
    queue and sixteen subscriber slots. Every counter, flag and mask that the
    recorder maintains incrementally is absent here. */
module Ledger {
  import opened Prelude
  import opened Events

  const SLOTS: nat := 16
  const MAX_BATCH: nat := 16
  const MAX_RECORD: nat := 128 * 1024
  const MAX_UPDATE: nat := 256 * 1024
  const SESSION_CAP: nat := 8 * 1024 * 1024

  datatype Entry = Entry(event: Event, required: bool)

  datatype Delivery = Delivery(id: nat, source: nat)

  datatype Queue = Queue(id: nat, scope: Scope, limits: Limits, next: nat, issued: nat, items: seq<Delivery>)

  datatype Ledger = Ledger(maxEvents: nat, maxBytes: nat, available: bool, next: nat,
                           store: map<nat, Entry>, owner: seq<nat>, slots: seq<Option<Queue>>)

  // ---- Sums over the store -------------------------------------------------

  datatype Measure = Records | Total | Of(session: SessionId)

  function Weight(e: Event, what: Measure): nat {
    match what
    case Records => 1
    case Total => e.encoded
    case Of(session) => if e.session == session then e.encoded else 0
  }

  /** The measure of the stored records whose id lies in [lo, hi). */
  function Held(store: map<nat, Entry>, what: Measure, lo: nat, hi: nat): nat
    decreases hi - lo
  {
    if lo >= hi then 0
    else (if lo in store then Weight(store[lo].event, what) else 0) + Held(store, what, lo + 1, hi)
  }

  /** The measure of a batch of new events. */
  function Offered(events: seq<Event>, what: Measure): nat {
    if events == [] then 0
    else Offered(events[..|events| - 1], what) + Weight(events[|events| - 1], what)
  }

  /** The encoded size of the records that a queue refers to. */
  function QueueBytes(store: map<nat, Entry>, items: seq<Delivery>): nat {
    if items == [] then 0
    else (if items[0].source in store then store[items[0].source].event.encoded else 0)
         + QueueBytes(store, items[1..])
  }

  // ---- The retention invariant --------------------------------------------

  ghost predicate InQueue(items: seq<Delivery>, source: nat) {
    exists k :: 0 <= k < |items| && items[k].source == source
  }

  ghost predicate InSlot(slot: Option<Queue>, source: nat) {
    slot.Some? && InQueue(slot.value.items, source)
  }

  ghost predicate Claimed(slots: seq<Option<Queue>>, source: nat) {
    exists i :: 0 <= i < |slots| && InSlot(slots[i], source)
  }

  ghost predicate Increasing(ids: seq<nat>) {
    forall i, j :: 0 <= i < j < |ids| ==> ids[i] < ids[j]
  }

  ghost predicate Ordered(items: seq<Delivery>) {
    forall i, j :: 0 <= i < j < |items| ==> items[i].id < items[j].id && items[i].source < items[j].source
  }

  ghost predicate QueueInv(store: map<nat, Entry>, next: nat, q: Queue) {
    && 1 <= q.next
    && q.issued < q.next
    && Ordered(q.items)
    && |q.items| <= q.limits.maxEvents
    && QueueBytes(store, q.items) <= q.limits.maxBytes
    && (forall k :: 0 <= k < |q.items| ==>
          && 1 <= q.items[k].id < q.next
          && q.items[k].source in store
          && q.scope.Permits(store[q.items[k].source].event))
  }

  ghost predicate Budgets(l: Ledger) {
    && Held(l.store, Total, 0, l.next) <= l.maxBytes
    && Held(l.store, Records, 0, l.next) <= l.maxEvents
    && forall s: SessionId :: Held(l.store, Of(s), 0, l.next) <= SESSION_CAP
  }

  ghost predicate Inv(l: Ledger) {
    && |l.slots| == SLOTS
    && 1 <= l.next
    && Increasing(l.owner)
    && (forall id :: id in l.store ==> 1 <= id < l.next)
    && (forall id :: id in l.owner ==> id in l.store)
    && (forall id :: id in l.store ==> id in l.owner || Claimed(l.slots, id))
    && (forall i :: 0 <= i < SLOTS && l.slots[i].Some? ==> QueueInv(l.store, l.next, l.slots[i].value))
    && Budgets(l)
  }

  /** An empty ledger. */
  function Initial(maxEvents: nat, maxBytes: nat): Ledger {
    Ledger(maxEvents, maxBytes, true, 1, map[], [], seq(SLOTS, _ => None))
  }

  // ---- Releasing references ------------------------------------------------

  /** Forget every record that no queue refers to any more. */
  ghost function Purge(l: Ledger): Ledger {
    l.(store := map id | id in l.store && (id in l.owner || Claimed(l.slots, id)) :: l.store[id])
  }

  function Kept(items: seq<Delivery>, gone: set<nat>): seq<Delivery> {
    Filter((d: Delivery) => d.source !in gone, items)
  }

  function OwnerKept(owner: seq<nat>, gone: set<nat>): seq<nat> {
    Filter((id: nat) => id !in gone, owner)
  }

  function SlotKept(slot: Option<Queue>, gone: set<nat>): Option<Queue> {
    if slot.None? then None else Some(slot.value.(items := Kept(slot.value.items, gone)))
  }

  /** Drop `gone` from the owner queue. */
  ghost function ReleaseOwner(l: Ledger, gone: set<nat>): Ledger {
    Purge(l.(owner := OwnerKept(l.owner, gone)))
  }

  /** Drop `gone` from one subscriber queue. */
  ghost function ReleaseSlot(l: Ledger, i: nat, gone: set<nat>): Ledger
    requires i < |l.slots|
  {
    Purge(l.(slots := l.slots[i := SlotKept(l.slots[i], gone)]))
  }

  function SlotsKept(slots: seq<Option<Queue>>, gone: set<nat>): seq<Option<Queue>> {
    seq(|slots|, i requires 0 <= i < |slots| => SlotKept(slots[i], gone))
  }

  /** Drop `gone` from every queue. */
  ghost function Removed(l: Ledger, gone: set<nat>): Ledger {
    Purge(l.(owner := OwnerKept(l.owner, gone), slots := SlotsKept(l.slots, gone)))
  }

  // ---- Recording a batch ---------------------------------------------------

  /** Give the batch its source ids and every selected event its delivery id. */
  function Advance(l: Ledger, events: seq<Event>): Ledger {
    l.(next := l.next + |events|,
       slots := seq(|l.slots|, i requires 0 <= i < |l.slots| =>
                  if l.slots[i].None? then None
                  else Some(l.slots[i].value.(
                              next := l.slots[i].value.next + Selected(l.slots[i].value.scope, events)))))
  }

  predicate Overflows(l: Ledger, events: seq<Event>) {
    || l.next + |events| > U64_MAX
    || exists i :: 0 <= i < |l.slots| && l.slots[i].Some? &&
         Selected(l.slots[i].value.scope, events) > 0 &&
         l.slots[i].value.next + Selected(l.slots[i].value.scope, events) > U64_MAX
  }

  predicate Shaped(l: Ledger, events: seq<Event>) {
    && (forall j :: 0 <= j < |events| ==>
          WellFormed(events[j].session) && events[j].fields <= MAX_RECORD && events[j].encoded <= MAX_RECORD)
    && Offered(events, Total) <= MAX_UPDATE
    && Offered(events, Total) <= l.maxBytes
  }

  /** What one consumer's queue does with a batch. */
  datatype Plan = Untouched | Refuse | Admit(drop: nat)

  predicate LocalFits(store: map<nat, Entry>, q: Queue, events: seq<Event>, k: nat)
    requires k <= |q.items|
  {
    && |q.items| - k + Selected(q.scope, events) <= q.limits.maxEvents
    && QueueBytes(store, q.items[k..]) + SelectedBytes(q.scope, events) <= q.limits.maxBytes
  }

  /** The least number of oldest deliveries to drop, counting from `k`. */
  function LeastDrop(store: map<nat, Entry>, q: Queue, events: seq<Event>, k: nat): (n: nat)
    requires k <= |q.items|
    ensures k <= n <= |q.items|
    ensures n < |q.items| ==> LocalFits(store, q, events, n)
    ensures forall j :: k <= j < n ==> !LocalFits(store, q, events, j)
    decreases |q.items| - k
  {
    if k == |q.items| || LocalFits(store, q, events, k) then k
    else LeastDrop(store, q, events, k + 1)
  }

  predicate Droppable(store: map<nat, Entry>, items: seq<Delivery>, k: nat)
    requires k <= |items|
  {
    forall j :: 0 <= j < k ==> items[j].source in store ==> !store[items[j].source].required
  }

  function LocalPlan(store: map<nat, Entry>, q: Queue, events: seq<Event>, required: bool): (p: Plan)
    ensures p.Admit? ==> p.drop <= |q.items|
  {
    if Selected(q.scope, events) == 0 then Untouched
    else if Selected(q.scope, events) > q.limits.maxEvents
            || SelectedBytes(q.scope, events) > q.limits.maxBytes then Refuse
    else
      var k := LeastDrop(store, q, events, 0);
      if k == 0 || (!required && Droppable(store, q.items, k)) then Admit(k) else Refuse
  }

  function Evicted(store: map<nat, Entry>, q: Queue, events: seq<Event>, required: bool): Queue {
    match LocalPlan(store, q, events, required)
    case Admit(k) => q.(items := q.items[k..])
    case _ => q
  }

  /** The queues after each consumer has made its own room. */
  function LocallyEvicted(l: Ledger, events: seq<Event>, required: bool): seq<Option<Queue>> {
    seq(|l.slots|, i requires 0 <= i < |l.slots| =>
      if l.slots[i].None? then None else Some(Evicted(l.store, l.slots[i].value, events, required)))
  }

  ghost predicate GlobalFits(l: Ledger, events: seq<Event>, cut: nat) {
    && Held(l.store, Total, cut, l.next) + Offered(events, Total) <= l.maxBytes
    && Held(l.store, Records, cut, l.next) + Offered(events, Records) <= l.maxEvents
    && forall s: SessionId :: Held(l.store, Of(s), cut, l.next) + Offered(events, Of(s)) <= SESSION_CAP
  }

  /** The least bound below which every record must go, counting from `cut`. */
  ghost function LeastCut(l: Ledger, events: seq<Event>, cut: nat): (n: nat)
    requires cut <= l.next
    ensures cut <= n <= l.next
    ensures n < l.next ==> GlobalFits(l, events, n)
    ensures forall j :: cut <= j < n ==> !GlobalFits(l, events, j)
    decreases l.next - cut
  {
    if cut == l.next || GlobalFits(l, events, cut) then cut
    else LeastCut(l, events, cut + 1)
  }

  ghost function Older(store: map<nat, Entry>, cut: nat): set<nat> {
    set id | id in store && id < cut
  }

  /** The ledger once each consumer has made its own room and orphans are gone. */
  ghost function Local(l: Ledger, events: seq<Event>, required: bool): Ledger {
    Purge(l.(slots := LocallyEvicted(l, events, required)))
  }

  /** The records that must go besides, oldest first, to meet the shared budgets. */
  ghost function Surplus(l: Ledger, events: seq<Event>): set<nat> {
    Older(l.store, LeastCut(l, events, 0))
  }

  /** The shared budgets can be met without dropping a required record, and
      without dropping anything for a required batch. */
  ghost predicate Affordable(l: Ledger, events: seq<Event>, required: bool) {
    && GlobalFits(l, events, LeastCut(l, events, 0))
    && forall id :: id in Surplus(l, events) ==> !required && !l.store[id].required
  }

  /** Whether the batch can be retained at all, and what must go first. */
  datatype Fate = Lost | Fits(base: Ledger)

  predicate SomeoneRefuses(l: Ledger, events: seq<Event>, required: bool) {
    exists i :: 0 <= i < |l.slots| && l.slots[i].Some? &&
      LocalPlan(l.store, l.slots[i].value, events, required).Refuse?
  }

  ghost function Decide(l: Ledger, events: seq<Event>, required: bool): Fate {
    if !l.available || |events| > l.maxEvents || !Shaped(l, events) then Lost
    else if required && SomeoneRefuses(l, events, required) then Lost
    else
      var local := Local(l, events, required);
      if !Affordable(local, events, required) then Lost
      else Fits(Removed(local, Surplus(local, events)))
  }

  /** The deliveries that a scope selects, in order. */
  function Offers(scope: Scope, events: seq<Event>, id: nat, source: nat): seq<Delivery> {
    if events == [] then []
    else
      var n := |events| - 1;
      Offers(scope, events[..n], id, source)
      + (if scope.Permits(events[n]) then [Delivery(id + Selected(scope, events[..n]), source + n)] else [])
  }

  function Accepting(store: map<nat, Entry>, q: Queue, events: seq<Event>, required: bool): bool {
    LocalPlan(store, q, events, required).Admit?
  }

  function BatchEntry(first: nat, events: seq<Event>, required: bool, id: nat): Entry
    requires first <= id < first + |events|
  {
    Entry(events[id - first], required)
  }

  function Recorded(first: nat, events: seq<Event>, required: bool): map<nat, Entry> {
    map id: nat | first <= id < first + |events| :: BatchEntry(first, events, required, id)
  }

  /** One consumer's queue `b`, already evicted, after the batch. */
  function Extended(b: Queue, events: seq<Event>, first: nat, accepting: bool): Queue {
    b.(next := b.next + Selected(b.scope, events),
       items := b.items + (if accepting then Offers(b.scope, events, b.next, first) else []))
  }

  function Sources(first: nat, n: nat): seq<nat> {
    seq(n, j requires 0 <= j < n => first + j)
  }

  /** Publish the batch into `base`, the evicted form of `l`. */
  ghost function Publish(l: Ledger, base: Ledger, events: seq<Event>, required: bool): Ledger
    requires |base.slots| == |l.slots|
    requires forall i :: 0 <= i < |l.slots| ==> (base.slots[i].Some? <==> l.slots[i].Some?)
  {
    base.(next := l.next + |events|,
          store := base.store + Recorded(l.next, events, required),
          owner := base.owner + Sources(l.next, |events|),
          slots := seq(|l.slots|, i requires 0 <= i < |l.slots| =>
                     if l.slots[i].None? then None
                     else Some(Extended(base.slots[i].value, events, l.next,
                                        Accepting(l.store, l.slots[i].value, events, required)))))
  }

  // ---- One call of `record_batch_with` -------------------------------------

  /** What the caller sees: the result, and how often its commit ran. */
  datatype Outcome = Outcome(result: Result<()>, calls: nat)

  /** Identity counters may have moved forward; nothing else changed. */
  ghost predicate IdentitiesMoved(l: Ledger, l': Ledger, events: seq<Event>) {
    && l' == l.(next := l'.next, slots := l'.slots)
    && l.next <= l'.next <= l.next + |events|
    && |l'.slots| == |l.slots|
    && forall i :: 0 <= i < |l.slots| ==> SlotMoved(l.slots[i], l'.slots[i], events)
  }

  predicate SlotMoved(a: Option<Queue>, b: Option<Queue>, events: seq<Event>) {
    if a.None? then b.None?
    else
      && b.Some?
      && b.value == a.value.(next := b.value.next)
      && a.value.next <= b.value.next <= a.value.next + Selected(a.value.scope, events)
  }

  /** No identity counter has gone beyond 64 bits. */
  ghost predicate Unwrapped(l: Ledger, l': Ledger) {
    && (l'.next == l.next || l'.next <= U64_MAX)
    && forall i :: 0 <= i < |l.slots| && i < |l'.slots| && l.slots[i].Some? && l'.slots[i].Some? ==>
         l'.slots[i].value.next == l.slots[i].value.next || l'.slots[i].value.next <= U64_MAX
  }

  /** The commit ran once; its rejection leaves the ledger exactly as it was. */
  ghost predicate Committed(l: Ledger, target: Ledger, verdict: Result<()>, l': Ledger, out: Outcome) {
    out == Outcome(verdict, 1) && l' == (if verdict.Ok? then target else l)
  }

  /** `clock` says that the host clock is readable, `verdict` what the commit answers. */
  ghost predicate RecordStep(l: Ledger, events: seq<Event>, required: bool, clock: bool, verdict: Result<()>,
                             l': Ledger, out: Outcome)
    requires Inv(l)
  {
    if |events| == 0 || |events| > MAX_BATCH then
      l' == l && out == Outcome(Err(RequestInvalid), 0)
    else if Overflows(l, events) then
      IdentitiesMoved(l, l', events) && Unwrapped(l, l') && out == Outcome(Err(ObservationUnavailable), 0)
    else if l.available && |events| <= l.maxEvents && !clock then
      l' == Advance(l, events) && out == Outcome(Err(ObservationUnavailable), 0)
    else
      match Decide(l, events, required)
      case Lost =>
        if required then l' == Advance(l, events) && out == Outcome(Err(ObservationUnavailable), 0)
        else Committed(l, Advance(l, events), verdict, l', out)
      case Fits(base) =>
        && |base.slots| == |l.slots|
        && (forall i :: 0 <= i < |l.slots| ==> (base.slots[i].Some? <==> l.slots[i].Some?))
        && Committed(l, Publish(l, base, events, required), verdict, l', out)
  }
}
