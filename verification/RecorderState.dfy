/** How the recorder's incremental flags, masks and counters relate to the
    ledger, and how each step of the recorder keeps that relation. */
module RecorderState {
  import opened Prelude
  import opened Events
  import opened Ledger
  import opened LedgerInvariant
  import opened RecorderPlan

  datatype Stored = Stored(entry: Entry, owner: bool, claims: set<nat>)

  datatype Subscriber = Subscriber(queue: Queue, bytes: nat)

  ghost function StoreOf(records: map<nat, Stored>): map<nat, Entry> {
    map id | id in records :: records[id].entry
  }

  ghost function SlotOf(s: Option<Subscriber>): Option<Queue> {
    if s.None? then None else Some(s.value.queue)
  }

  ghost function SlotsOf(s: seq<Option<Subscriber>>): seq<Option<Queue>> {
    seq(|s|, i requires 0 <= i < |s| => SlotOf(s[i]))
  }

  /** Owner flags and claim bits say exactly which queues hold the record. */
  ghost predicate Flagged(records: map<nat, Stored>, owner: seq<nat>, slots: seq<Option<Queue>>) {
    forall id :: id in records ==>
      && (records[id].owner <==> id in owner)
      && (forall i: nat :: i in records[id].claims <==> i < |slots| && InSlot(slots[i], id))
  }

  /** The byte counters equal the sums over the stored records. */
  ghost predicate Accounted(store: map<nat, Entry>, hi: nat, bytes: nat, sessions: map<SessionId, nat>) {
    && bytes == Held(store, Total, 0, hi)
    && forall s: SessionId :: Get(sessions, s) == Held(store, Of(s), 0, hi) && (s in sessions ==> sessions[s] > 0)
  }

  function Get(sessions: map<SessionId, nat>, s: SessionId): nat {
    if s in sessions then sessions[s] else 0
  }

  ghost predicate Charged(store: map<nat, Entry>, s: Option<Subscriber>) {
    s.Some? ==> s.value.bytes == QueueBytes(store, s.value.queue.items)
  }

  lemma ChosenAt(l: Ledger, events: seq<Event>, required: bool, deliveries: seq<map<nat, nat>>, i: nat)
    requires i < |l.slots| && l.slots[i].Some? && Chosen(l, events, required, deliveries, i)
    ensures |deliveries| == |events|
    ensures forall j :: 0 <= j < |events| ==> (i in deliveries[j] <==> l.slots[i].value.scope.Permits(events[j]))
  {
    forall j | 0 <= j < |events| ensures i in deliveries[j] <==> l.slots[i].value.scope.Permits(events[j]) {
      assert ChosenFor(l, events, required, j, deliveries[j], i);
    }
  }

  lemma RefusedAt(store: map<nat, Entry>, q: Queue, events: seq<Event>, required: bool, k: nat)
    requires k < |q.items| && q.items[k].source in store
    requires Selected(q.scope, events) != 0
    requires !LocalFits(store, q, events, k)
    requires LeastDrop(store, q, events, 0) == LeastDrop(store, q, events, k)
    requires required || store[q.items[k].source].required
    ensures LocalPlan(store, q, events, required) == Refuse
  {
  }

  lemma SourcesNext(items: seq<Delivery>, d: Delivery)
    ensures SourcesOf(items + [d]) == SourcesOf(items) + {d.source}
  {
    var all := items + [d];
    forall s | s in SourcesOf(items) + {d.source} ensures s in SourcesOf(all) {
      if s == d.source {
        assert all[|items|].source == s;
      } else {
        var k :| 0 <= k < |items| && items[k].source == s;
        assert all[k].source == s;
      }
    }
  }

  ghost predicate Selects(s: Option<Subscriber>, e: Event) {
    s.Some? && s.value.queue.scope.Permits(e)
  }

  ghost predicate SameBytes(a: Option<Subscriber>, b: Option<Subscriber>) {
    (a.Some? <==> b.Some?) && (a.Some? ==> a.value.bytes == b.value.bytes)
  }

  ghost function Numbered(s: Option<Subscriber>, events: seq<Event>): Option<Subscriber> {
    if s.None? then None
    else Some(s.value.(queue := s.value.queue.(next := s.value.queue.next + Selected(s.value.queue.scope, events))))
  }

  ghost predicate SlotOverflows(s: Option<Subscriber>, events: seq<Event>) {
    s.Some? && Selected(s.value.queue.scope, events) > 0
    && s.value.queue.next + Selected(s.value.queue.scope, events) > U64_MAX
  }

  /** Each event's deliveries: the consumers that select it, and the id each gets. */
  ghost predicate Assigned(was: seq<Option<Subscriber>>, events: seq<Event>, deliveries: seq<map<nat, nat>>) {
    && |deliveries| == |events|
    && forall j :: 0 <= j < |events| ==> AssignedTo(was, events, j, deliveries[j])
  }

  ghost predicate AssignedTo(was: seq<Option<Subscriber>>, events: seq<Event>, j: nat, m: map<nat, nat>)
    requires j < |events|
  {
    && (forall i: nat :: i in m <==> i < |was| && Selects(was[i], events[j]))
    && (forall i: nat :: i in m ==> m[i] == was[i].value.queue.next + Selected(was[i].value.queue.scope, events[..j]))
  }

  lemma AssignedNext(was: seq<Option<Subscriber>>, events: seq<Event>, j: nat, deliveries: seq<map<nat, nat>>, m: map<nat, nat>)
    requires j < |events| && Assigned(was, events[..j], deliveries) && AssignedTo(was, events, j, m)
    ensures Assigned(was, events[..j + 1], deliveries + [m])
  {
    forall k | 0 <= k < j + 1 ensures AssignedTo(was, events[..j + 1], k, (deliveries + [m])[k]) {
      assert events[..j + 1][..k] == events[..k];
      if k < j {
        assert events[..j][..k] == events[..k];
        assert AssignedTo(was, events[..j], k, deliveries[k]);
      }
    }
  }

  lemma NumberedNone(s: Option<Subscriber>, events: seq<Event>)
    requires events == []
    ensures Numbered(s, events) == s && !SlotOverflows(s, events)
  {
  }

  lemma NumberedStep(s: Option<Subscriber>, events: seq<Event>, j: nat)
    requires j < |events|
    ensures var n := Numbered(s, events[..j]);
            && (n.Some? <==> s.Some?)
            && (s.Some? ==> n.value.queue.scope == s.value.queue.scope
                            && n.value.queue.next == s.value.queue.next + Selected(s.value.queue.scope, events[..j]))
            && (!Selects(s, events[j]) ==>
                  && Numbered(s, events[..j + 1]) == n
                  && (SlotOverflows(s, events[..j + 1]) <==> SlotOverflows(s, events[..j])))
            && (Selects(s, events[j]) ==>
                  && Numbered(s, events[..j + 1]) == Some(n.value.(queue := n.value.queue.(next := n.value.queue.next + 1)))
                  && (SlotOverflows(s, events[..j + 1]) <==> n.value.queue.next + 1 > U64_MAX))
  {
    assert events[..j + 1][..j] == events[..j];
  }

  lemma SlotsOverflow(l: Ledger, was: seq<Option<Subscriber>>, events: seq<Event>)
    requires l.slots == SlotsOf(was)
    ensures Overflows(l, events) <==>
            l.next + |events| > U64_MAX || exists i :: 0 <= i < |was| && SlotOverflows(was[i], events)
  {
    forall i | 0 <= i < |was|
      ensures SlotOverflows(was[i], events) <==>
              l.slots[i].Some? && Selected(l.slots[i].value.scope, events) > 0
              && l.slots[i].value.next + Selected(l.slots[i].value.scope, events) > U64_MAX {}
  }

  lemma SlotsAdvance(l: Ledger, was: seq<Option<Subscriber>>, events: seq<Event>)
    requires l.slots == SlotsOf(was)
    ensures Advance(l, events)
            == l.(next := l.next + |events|,
                  slots := SlotsOf(seq(|was|, i requires 0 <= i < |was| => Numbered(was[i], events))))
    ensures forall i :: 0 <= i < |was| ==> SameBytes(was[i], Numbered(was[i], events))
  {
  }

  lemma OverflowMonotone(s: Option<Subscriber>, events: seq<Event>, k: nat)
    requires k <= |events| && SlotOverflows(s, events[..k])
    ensures SlotOverflows(s, events)
  {
    SelectedMonotone(s.value.queue.scope, events, k);
  }

  lemma NumberedMoved(s: Option<Subscriber>, events: seq<Event>, k: nat)
    requires k <= |events|
    ensures SlotMoved(SlotOf(s), SlotOf(Numbered(s, events[..k])), events)
    ensures SameBytes(s, Numbered(s, events[..k]))
  {
    if s.Some? { SelectedMonotone(s.value.queue.scope, events, k); }
  }

  lemma NumberedFits(s: Option<Subscriber>, events: seq<Event>)
    requires !SlotOverflows(s, events) && s.Some?
    ensures var n := Numbered(s, events);
            n.value.queue.next == s.value.queue.next || n.value.queue.next <= U64_MAX
  {
  }

  lemma RemovedClaims(l: Ledger, sources: set<nat>, id: nat)
    requires id in l.store && (id in l.owner || Claimed(l.slots, id))
    ensures var target := Removed(l, sources);
            id in target.owner || Claimed(target.slots, id) <==> id !in sources
  {
    var target := Removed(l, sources);
    OwnerKeptMembers(l.owner, sources);
    forall i | 0 <= i < |l.slots| ensures InSlot(target.slots[i], id) <==> InSlot(l.slots[i], id) && id !in sources {
      if l.slots[i].Some? { KeptSources(l.slots[i].value.items, sources); }
    }
    if Claimed(l.slots, id) {
      var i :| 0 <= i < |l.slots| && InSlot(l.slots[i], id);
      assert id !in sources ==> InSlot(target.slots[i], id);
    }
  }

  lemma RemovedFlags(l: Ledger, before: map<nat, Stored>, sources: set<nat>)
    requires Flagged(before, l.owner, l.slots)
    ensures Flagged(before - sources, Removed(l, sources).owner, Removed(l, sources).slots)
  {
    var target := Removed(l, sources);
    OwnerKeptMembers(l.owner, sources);
    forall i | 0 <= i < |l.slots|
      ensures forall id :: InSlot(target.slots[i], id) <==> InSlot(l.slots[i], id) && id !in sources
    {
      if l.slots[i].Some? { KeptSources(l.slots[i].value.items, sources); }
    }
  }

  lemma RemovedState(l: Ledger, before: map<nat, Stored>, sources: set<nat>)
    requires Inv(l) && l.store == StoreOf(before) && Flagged(before, l.owner, l.slots)
    ensures var target := Removed(l, sources);
            && Inv(target)
            && target == l.(store := target.store, owner := OwnerKept(l.owner, sources), slots := SlotsKept(l.slots, sources))
            && StoreOf(before - sources) == target.store
            && SubStore(target.store, l.store)
            && Flagged(before - sources, target.owner, target.slots)
  {
    hide Claimed, Flagged, InSlot, Kept, OwnerKept;
    RemoveInv(l, sources);
    RemovedFlags(l, before, sources);
    var target := Removed(l, sources);
    forall id | id in l.store ensures id in target.store <==> id !in sources {
      RemovedClaims(l, sources, id);
    }
    assert StoreOf(before - sources) == target.store;
  }

  ghost function Released(l: Ledger, sources: set<nat>, subscriber: Option<nat>): Ledger
    requires subscriber.Some? ==> subscriber.value < |l.slots|
  {
    if subscriber.None? then ReleaseOwner(l, sources) else ReleaseSlot(l, subscriber.value, sources)
  }

  lemma ReleasedParts(l: Ledger, sources: set<nat>, subscriber: Option<nat>)
    requires subscriber.Some? ==> subscriber.value < |l.slots|
    ensures var target := Released(l, sources, subscriber);
            && target == Purge(l.(owner := target.owner, slots := target.slots))
            && target == l.(store := target.store, owner := target.owner, slots := target.slots)
            && SubStore(target.store, l.store)
            && target.owner == (if subscriber.None? then OwnerKept(l.owner, sources) else l.owner)
            && target.slots == (if subscriber.None? then l.slots
                                else l.slots[subscriber.value := SlotKept(l.slots[subscriber.value], sources)])
  {
  }

  lemma StillClaimed(l: Ledger, before: map<nat, Stored>, sources: set<nat>, subscriber: Option<nat>, id: nat)
    requires Flagged(before, l.owner, l.slots) && id in before && id !in sources
    requires subscriber.Some? ==> subscriber.value < |l.slots|
    requires id in l.owner || Claimed(l.slots, id)
    ensures id in Released(l, sources, subscriber).owner || Claimed(Released(l, sources, subscriber).slots, id)
  {
    hide Claimed, Flagged, Purge;
    var target := Released(l, sources, subscriber);
    ReleasedParts(l, sources, subscriber);
    ReleasedFlags(before, l.owner, l.slots, sources, subscriber);
    FlaggedClaimed(before, l.owner, l.slots, id);
    FlaggedClaimed(Cleared(before, sources, subscriber), target.owner, target.slots, id);
  }

  /** Clearing flags and discarding what nobody holds tracks the ledger. */
  lemma ReleasedState(l: Ledger, before: map<nat, Stored>, sources: set<nat>, subscriber: Option<nat>)
    requires Inv(l) && l.store == StoreOf(before) && Flagged(before, l.owner, l.slots)
    requires subscriber.Some? ==> subscriber.value < SLOTS
    ensures var target := Released(l, sources, subscriber);
            var after := HeldOnly(Cleared(before, sources, subscriber), sources);
            && Inv(target)
            && StoreOf(after) == target.store
            && SubStore(target.store, l.store)
            && Flagged(after, target.owner, target.slots)
  {
    hide *;
    InvClaims(l);
    var target := Released(l, sources, subscriber);
    var flags := Cleared(before, sources, subscriber);
    ClearedStore(before, sources, subscriber);
    ReleasedInv(l, sources, subscriber);
    ReleasedParts(l, sources, subscriber);
    ReleasedFlags(before, l.owner, l.slots, sources, subscriber);
    forall id | id in flags && id !in sources ensures id in target.owner || Claimed(target.slots, id) {
      StillClaimed(l, before, sources, subscriber, id);
    }
    HeldOnlyPurges(l, before, flags, target.owner, target.slots, sources);
  }

  lemma InvClaims(l: Ledger)
    requires Inv(l)
    ensures |l.slots| == SLOTS
    ensures forall id :: id in l.store ==> 1 <= id < l.next && (id in l.owner || Claimed(l.slots, id))
  {
  }

  lemma ClearedStore(before: map<nat, Stored>, sources: set<nat>, subscriber: Option<nat>)
    ensures StoreOf(Cleared(before, sources, subscriber)) == StoreOf(before)
    ensures forall id :: id in Cleared(before, sources, subscriber) <==> id in before
    ensures forall id :: id in StoreOf(before) <==> id in before
  {
  }

  lemma ItemsStored(l: Ledger, i: nat)
    requires Inv(l) && i < SLOTS && l.slots[i].Some?
    ensures forall k :: 0 <= k < |l.slots[i].value.items| ==> l.slots[i].value.items[k].source in l.store
  {
  }

  lemma ReleasedInv(l: Ledger, sources: set<nat>, subscriber: Option<nat>)
    requires Inv(l)
    requires subscriber.Some? ==> subscriber.value < SLOTS
    ensures Inv(Released(l, sources, subscriber))
  {
    hide Inv;
    if subscriber.None? {
      ReleaseOwnerInv(l, sources);
    } else {
      ReleaseSlotInv(l, subscriber.value, sources);
    }
  }

  function ClearOne(s: Stored, subscriber: Option<nat>): Stored {
    if subscriber.Some? then s.(claims := s.claims - {subscriber.value}) else s.(owner := false)
  }

  ghost function Cleared(records: map<nat, Stored>, sources: set<nat>, subscriber: Option<nat>): map<nat, Stored> {
    map id | id in records :: if id in sources then ClearOne(records[id], subscriber) else records[id]
  }

  /** Without those of `sources` that nobody holds. */
  ghost function HeldOnly(records: map<nat, Stored>, sources: set<nat>): map<nat, Stored> {
    map id | id in records && (id in sources ==> records[id].owner || records[id].claims != {}) :: records[id]
  }

  lemma ClearStep(before: map<nat, Stored>, done: set<nat>, source: nat, subscriber: Option<nat>)
    requires source !in done
    ensures var r := HeldOnly(Cleared(before, done, subscriber), done);
            var r' := HeldOnly(Cleared(before, done + {source}, subscriber), done + {source});
            if source !in r then r' == r
            else
              var e := ClearOne(r[source], subscriber);
              r' == if !e.owner && e.claims == {} then r[source := e] - {source} else r[source := e]
  {
  }

  lemma FlaggedClaimed(records: map<nat, Stored>, owner: seq<nat>, slots: seq<Option<Queue>>, id: nat)
    requires Flagged(records, owner, slots) && id in records
    ensures records[id].owner || records[id].claims != {} <==> id in owner || Claimed(slots, id)
  {
    if Claimed(slots, id) {
      var i: nat :| i < |slots| && InSlot(slots[i], id);
      assert i in records[id].claims;
    }
    if records[id].claims != {} {
      var i :| i in records[id].claims;
      assert InSlot(slots[i], id);
    }
  }

  /** Clearing a consumer's flags matches filtering that consumer's queue. */
  lemma ReleasedFlags(records: map<nat, Stored>, owner: seq<nat>, slots: seq<Option<Queue>>, sources: set<nat>, subscriber: Option<nat>)
    requires Flagged(records, owner, slots)
    requires subscriber.Some? ==> subscriber.value < |slots|
    ensures Flagged(Cleared(records, sources, subscriber),
                    if subscriber.None? then OwnerKept(owner, sources) else owner,
                    if subscriber.None? then slots
                    else slots[subscriber.value := SlotKept(slots[subscriber.value], sources)])
  {
    if subscriber.None? {
      OwnerKeptMembers(owner, sources);
    } else if slots[subscriber.value].Some? {
      KeptSources(slots[subscriber.value].value.items, sources);
    }
  }

  /** Discarding the unheld sources is exactly purging the ledger. */
  lemma HeldOnlyPurges(l: Ledger, before: map<nat, Stored>, flags: map<nat, Stored>, owner: seq<nat>, slots: seq<Option<Queue>>, sources: set<nat>)
    requires l.store == StoreOf(before) && StoreOf(flags) == StoreOf(before)
    requires Flagged(flags, owner, slots)
    requires forall id :: id in flags && id !in sources ==> id in owner || Claimed(slots, id)
    ensures StoreOf(HeldOnly(flags, sources)) == Purge(l.(owner := owner, slots := slots)).store
    ensures Flagged(HeldOnly(flags, sources), owner, slots)
  {
    forall id | id in flags ensures id in HeldOnly(flags, sources) <==> id in owner || Claimed(slots, id) {
      FlaggedClaimed(flags, owner, slots, id);
    }
  }

  /** Subscriber byte counters survive any purge that keeps their records. */
  lemma ChargedAgree(store: map<nat, Entry>, l: Ledger, subs: seq<Option<Subscriber>>)
    requires forall i :: 0 <= i < |subs| ==> Charged(store, subs[i])
    requires SubStore(l.store, store)
    requires Inv(l) && l.slots == SlotsOf(subs)
    ensures forall i :: 0 <= i < |subs| ==> Charged(l.store, subs[i])
  {
    forall i | 0 <= i < |subs| ensures Charged(l.store, subs[i]) {
      if subs[i].Some? {
        assert l.slots[i] == Some(subs[i].value.queue);
        assert QueueInv(l.store, l.next, subs[i].value.queue);
        QueueBytesAgree(store, l.store, subs[i].value.queue.items);
      }
    }
  }

  lemma KeptOne(d: Delivery, gone: set<nat>)
    ensures Kept([d], gone) == if d.source in gone then [] else [d]
  {
    FilterOne((d: Delivery) => d.source !in gone, d);
  }

  /** Projected totals: what the store holds in [lo, hi), plus the batch. */
  ghost predicate Totals(store: map<nat, Entry>, lo: nat, hi: nat, events: seq<Event>, size: nat, count: nat, sessions: map<SessionId, nat>) {
    && size == Held(store, Total, lo, hi) + Offered(events, Total)
    && count == Held(store, Records, lo, hi) + Offered(events, Records)
    && forall s: SessionId :: Get(sessions, s) == Held(store, Of(s), lo, hi) + Offered(events, Of(s))
  }

  lemma TotalsStart(l: Ledger, events: seq<Event>, bytes: nat, sessions: map<SessionId, nat>, projected: map<SessionId, nat>)
    requires Inv(l) && Accounted(l.store, l.next + |events|, bytes, sessions)
    requires forall s: SessionId :: Get(projected, s) == Get(sessions, s) + Offered(events, Of(s))
    ensures Totals(l.store, 0, l.next, events, bytes + Offered(events, Total), |l.store| + |events|, projected)
  {
    hide Inv, Held, Offered, Get;
    InvClaims(l);
    HeldBeyond(l.store, Total, l.next, l.next + |events|);
    HeldCount(l.store, l.next);
    OfferedCount(events);
    forall s: SessionId ensures Get(projected, s) == Held(l.store, Of(s), 0, l.next) + Offered(events, Of(s)) {
      SessionStart(l, events, bytes, sessions, s);
    }
  }

  lemma SessionStart(l: Ledger, events: seq<Event>, bytes: nat, sessions: map<SessionId, nat>, s: SessionId)
    requires Inv(l) && Accounted(l.store, l.next + |events|, bytes, sessions)
    ensures Get(sessions, s) == Held(l.store, Of(s), 0, l.next)
  {
    hide Held, Get;
    HeldBeyond(l.store, Of(s), l.next, l.next + |events|);
  }

  lemma TotalsDrop(store: map<nat, Entry>, lo: nat, hi: nat, events: seq<Event>, size: nat, count: nat, sessions: map<SessionId, nat>, id: nat)
    requires Totals(store, lo, hi, events, size, count, sessions)
    requires id in store && lo <= id < hi
    ensures var e := store[id].event;
            && size >= e.encoded && count >= 1 && Get(sessions, e.session) >= e.encoded
            && Totals(store - {id}, lo, hi, events, size - e.encoded, count - 1,
                      sessions[e.session := Get(sessions, e.session) - e.encoded])
  {
    var e := store[id].event;
    HeldWithout(store, Total, lo, hi, id);
    HeldWithout(store, Records, lo, hi, id);
    HeldWithout(store, Of(e.session), lo, hi, id);
    var after := sessions[e.session := Get(sessions, e.session) - e.encoded];
    forall s: SessionId ensures Get(after, s) == Held(store - {id}, Of(s), lo, hi) + Offered(events, Of(s)) {
      HeldWithout(store, Of(s), lo, hi, id);
    }
  }

  lemma LocalSub(l: Ledger, events: seq<Event>, required: bool)
    ensures SubStore(Local(l, events, required).store, l.store)
    ensures Local(l, events, required) == l.(store := Local(l, events, required).store, slots := LocallyEvicted(l, events, required))
  {
  }

  /** The recorder's flag test recognizes exactly the records local eviction orphans. */
  lemma OrphanTest(l: Ledger, records: map<nat, Stored>, owner: seq<nat>, events: seq<Event>, required: bool, drops: seq<set<nat>>, id: nat)
    requires Inv(l) && id in l.store && id in records && owner == l.owner
    requires Flagged(records, owner, Advance(l, events).slots)
    requires |drops| == SLOTS && forall i :: 0 <= i < SLOTS ==> drops[i] == LocalDrops(l, events, required, i)
    ensures forall i :: i in records[id].claims ==> i < SLOTS
    ensures id !in Local(l, events, required).store
            <==> !records[id].owner && forall i :: i in records[id].claims ==> id in drops[i]
  {
    hide Local, LocalDrops, LocallyEvicted;
    LocalSurvivor(l, events, required, id);
    var slots := Advance(l, events).slots;
    forall i | 0 <= i < SLOTS ensures InSlot(slots[i], id) <==> InSlot(l.slots[i], id) {}
    forall i: nat ensures i in records[id].claims <==> i < SLOTS && InSlot(l.slots[i], id) {}
  }

  /** Of the ids below `id`, `gone` are those of `store` that `local` lacks; `rest`
      is the remaining store. */
  ghost predicate Sifted(store: map<nat, Entry>, local: map<nat, Entry>, gone: set<nat>, rest: map<nat, Entry>, id: nat) {
    && (forall k :: k in gone <==> k in store && k < id && k !in local)
    && (forall k :: k in rest <==> k in store && k !in gone)
    && SubStore(rest, store)
  }

  lemma SiftStart(store: map<nat, Entry>, local: map<nat, Entry>)
    ensures Sifted(store, local, {}, store, 0)
  {
  }

  lemma SiftNext(store: map<nat, Entry>, local: map<nat, Entry>, gone: set<nat>, rest: map<nat, Entry>, id: nat)
    requires Sifted(store, local, gone, rest, id)
    ensures id in store && id !in local ==>
              id in rest && rest[id] == store[id] && Sifted(store, local, gone + {id}, rest - {id}, id + 1)
    ensures !(id in store && id !in local) ==> Sifted(store, local, gone, rest, id + 1)
  {
  }

  lemma SiftEnd(store: map<nat, Entry>, local: map<nat, Entry>, gone: set<nat>, rest: map<nat, Entry>, id: nat)
    requires Sifted(store, local, gone, rest, id) && SubStore(local, store) && forall k :: k in store ==> k < id
    ensures gone == store.Keys - local.Keys && rest == local
  {
  }

  lemma FitsIsGlobalFits(l: Ledger, events: seq<Event>, id: nat, size: nat, count: nat, sessions: map<SessionId, nat>)
    requires Totals(l.store, id, l.next, events, size, count, sessions)
    ensures GlobalFits(l, events, id) <==>
            size <= l.maxBytes && count <= l.maxEvents && forall s :: s in sessions ==> sessions[s] <= SESSION_CAP
  {
    hide Held, Offered;
    if forall s :: s in sessions ==> sessions[s] <= SESSION_CAP {
      forall s: SessionId ensures Held(l.store, Of(s), id, l.next) + Offered(events, Of(s)) <= SESSION_CAP {
        assert Get(sessions, s) <= SESSION_CAP;
      }
    }
    if GlobalFits(l, events, id) {
      forall s | s in sessions ensures sessions[s] <= SESSION_CAP {
        assert Get(sessions, s) == Held(l.store, Of(s), id, l.next) + Offered(events, Of(s));
      }
    }
  }

  lemma NotAffordable(l: Ledger, events: seq<Event>, required: bool, id: nat)
    requires id < l.next && id in l.store && !GlobalFits(l, events, id)
    requires LeastCut(l, events, 0) == LeastCut(l, events, id)
    requires required || l.store[id].required
    ensures !Affordable(l, events, required)
  {
    hide GlobalFits;
    assert LeastCut(l, events, id) == LeastCut(l, events, id + 1);
    assert id in Surplus(l, events);
  }

  lemma AffordableAt(l: Ledger, events: seq<Event>, required: bool, id: nat)
    requires id <= l.next && (id == l.next || GlobalFits(l, events, id))
    requires LeastCut(l, events, 0) == LeastCut(l, events, id)
    requires forall k :: k in l.store && k < id ==> !required && !l.store[k].required
    ensures Affordable(l, events, required) <==> GlobalFits(l, events, id)
    ensures Surplus(l, events) == Older(l.store, id)
  {
    hide GlobalFits;
  }

  lemma TotalsStep(store: map<nat, Entry>, lo: nat, hi: nat, events: seq<Event>, size: nat, count: nat, sessions: map<SessionId, nat>)
    requires Totals(store, lo, hi, events, size, count, sessions)
    requires lo in store && lo < hi
    ensures var e := store[lo].event;
            && size >= e.encoded && count >= 1 && Get(sessions, e.session) >= e.encoded
            && Totals(store, lo + 1, hi, events, size - e.encoded, count - 1,
                      sessions[e.session := Get(sessions, e.session) - e.encoded])
  {
    hide Offered;
    var e := store[lo].event;
    var after := sessions[e.session := Get(sessions, e.session) - e.encoded];
    forall s: SessionId ensures Get(after, s) == Held(store, Of(s), lo + 1, hi) + Offered(events, Of(s)) {
      assert Held(store, Of(s), lo, hi) == Weight(e, Of(s)) + Held(store, Of(s), lo + 1, hi);
      assert Get(sessions, s) == Held(store, Of(s), lo, hi) + Offered(events, Of(s));
    }
  }

  lemma TotalsSkip(store: map<nat, Entry>, lo: nat, hi: nat, events: seq<Event>, size: nat, count: nat, sessions: map<SessionId, nat>)
    requires Totals(store, lo, hi, events, size, count, sessions)
    requires lo !in store && lo < hi
    ensures Totals(store, lo + 1, hi, events, size, count, sessions)
  {
    hide Offered;
    forall s: SessionId ensures Held(store, Of(s), lo, hi) == Held(store, Of(s), lo + 1, hi) {}
  }

  ghost function PartlyPurged(l: Ledger, events: seq<Event>, required: bool, i: nat): Ledger {
    Purge(l.(slots := Partly(l, events, required, i)))
  }

  lemma PartlySlots(l: Ledger, events: seq<Event>, required: bool, i: nat)
    ensures SameSlots(PartlyPurged(l, events, required, i), Advance(l, events))
    ensures |PartlyPurged(l, events, required, i).slots| == |l.slots|
  {
    var a := Advance(l, events);
    var p := PartlyPurged(l, events, required, i);
    forall k | 0 <= k < |p.slots| ensures a.slots[k].Some? <==> p.slots[k].Some? {
      assert LocallyEvicted(l, events, required)[k].Some? <==> l.slots[k].Some?;
    }
  }

  lemma InvPurged(l: Ledger)
    requires Inv(l)
    ensures Purge(l) == l
    ensures |l.slots| == SLOTS
    ensures forall i :: 0 <= i < SLOTS && l.slots[i].Some? ==> Ordered(l.slots[i].value.items)
  {
    assert Purge(l).store == l.store;
  }

  lemma EvictStart(l: Ledger, events: seq<Event>, required: bool)
    requires Inv(l)
    ensures SameSlots(PartlyPurged(l, events, required, 0), Advance(l, events))
    ensures Advance(l, events) == Renumber(PartlyPurged(l, events, required, 0), Advance(l, events))
  {
    hide Inv, Purge;
    InvPurged(l);
    PartlyNext(l, events, required, 0);
    PartlySlots(l, events, required, 0);
    assert l.(slots := l.slots) == l;
    RenumberAdvance(l, events);
  }

  lemma ReleaseNothing(l: Ledger, i: nat)
    requires i < |l.slots| && Purge(l) == l
    ensures ReleaseSlot(l, i, {}) == l
  {
    if l.slots[i].Some? { KeptNothingGone(l.slots[i].value.items); }
    assert l.slots[i := SlotKept(l.slots[i], {})] == l.slots;
    assert l.(slots := l.slots) == l;
  }

  lemma EvictStep(l: Ledger, events: seq<Event>, required: bool, i: nat, gone: set<nat>)
    requires Inv(l) && i < SLOTS && gone == LocalDrops(l, events, required, i)
    ensures var p := PartlyPurged(l, events, required, i);
            var p' := PartlyPurged(l, events, required, i + 1);
            var a := Advance(l, events);
            && SameSlots(p, a) && SameSlots(p', a)
            && i < |Renumber(p, a).slots|
            && ReleaseSlot(Renumber(p, a), i, gone) == Renumber(p', a)
            && (gone == {} ==> p' == p)
  {
    hide Inv, Purge, LocalDrops, LocallyEvicted, ReleaseSlot, Advance;
    InvPurged(l);
    PartlySlots(l, events, required, i);
    PartlySlots(l, events, required, i + 1);
    var p := PartlyPurged(l, events, required, i);
    EvictOneMore(l, events, required, i);
    RenumberReleaseSlot(p, Advance(l, events), i, gone);
    if gone == {} {
      PurgeIdempotent(l.(slots := Partly(l, events, required, i)));
      ReleaseNothing(p, i);
    }
  }

  lemma PurgeIdempotent(l: Ledger)
    ensures Purge(Purge(l)) == Purge(l)
  {
    PurgeTwice(l, l);
    assert Purge(l).(owner := l.owner, slots := l.slots) == Purge(l);
  }

  lemma OwnerKeptAll(owner: seq<nat>, gone: set<nat>)
    requires forall id :: id in owner ==> id !in gone
    ensures OwnerKept(owner, gone) == owner
  {
    FilterAll((id: nat) => id !in gone, owner);
  }

  lemma RemovedNothing(l: Ledger)
    requires Purge(l) == l
    ensures Removed(l, {}) == l
  {
    OwnerKeptAll(l.owner, {});
    forall i | 0 <= i < |l.slots| ensures SlotKept(l.slots[i], {}) == l.slots[i] {
      if l.slots[i].Some? { KeptNothingGone(l.slots[i].value.items); }
    }
    assert SlotsKept(l.slots, {}) == l.slots;
    assert l.(owner := l.owner, slots := l.slots) == l;
  }

  lemma EvictEnd(l: Ledger, events: seq<Event>, required: bool, gone: set<nat>)
    requires Inv(l)
    requires gone == (l.store.Keys - Local(l, events, required).store.Keys) + Surplus(Local(l, events, required), events)
    ensures var local := Local(l, events, required);
            var base := Removed(local, Surplus(local, events));
            var a := Advance(l, events);
            && PartlyPurged(l, events, required, SLOTS) == local
            && SameSlots(local, a) && SameSlots(base, a)
            && Removed(Renumber(local, a), gone) == Renumber(base, a)
            && (gone == {} ==> base == local)
  {
    hide Inv, LocallyEvicted, Removed, Advance, Surplus;
    InvPurged(l);
    PartlyNext(l, events, required, 0);
    var local := Local(l, events, required);
    var surplus := Surplus(local, events);
    var orphans := l.store.Keys - local.store.Keys;
    PartlySlots(l, events, required, SLOTS);
    RemovedOrphans(local, orphans, surplus);
    RenumberRemoved(local, Advance(l, events), gone);
    if gone == {} {
      assert surplus == {};
      PurgeIdempotent(l.(slots := LocallyEvicted(l, events, required)));
      RemovedNothing(local);
    }
  }

  ghost function Pushed(s: Option<Subscriber>, delivery: map<nat, nat>, i: nat, source: nat, e: Event): Option<Subscriber> {
    if s.Some? && i in delivery
    then Some(Subscriber(s.value.queue.(items := s.value.queue.items + [Delivery(delivery[i], source)]), s.value.bytes + e.encoded))
    else s
  }

  lemma PushedClaims(was: seq<Option<Subscriber>>, delivery: map<nat, nat>, source: nat, e: Event, now: seq<Option<Subscriber>>, i: nat, id: nat)
    requires |now| == |was| && i < |was| && now[i] == Pushed(was[i], delivery, i, source, e)
    requires i in delivery ==> was[i].Some?
    requires !InSlot(SlotOf(was[i]), source)
    ensures InSlot(SlotOf(now[i]), id) <==> if id == source then i in delivery else InSlot(SlotOf(was[i]), id)
  {
    if i in delivery {
      var items := was[i].value.queue.items;
      var d := Delivery(delivery[i], source);
      assert (items + [d])[|items|] == d;
      assert InQueue(items + [d], source);
      if InQueue(items, id) {
        var k :| 0 <= k < |items| && items[k].source == id;
        assert (items + [d])[k].source == id;
      }
    }
  }

  lemma PushedFlags(records: map<nat, Stored>, owner: seq<nat>, was: seq<Option<Subscriber>>, delivery: map<nat, nat>, source: nat, entry: Entry, now: seq<Option<Subscriber>>)
    requires |was| == |now| == SLOTS && Flagged(records, owner, SlotsOf(was))
    requires source !in records && source !in owner
    requires forall i :: 0 <= i < SLOTS ==> !InSlot(SlotOf(was[i]), source)
    requires forall i :: i in delivery ==> i < SLOTS && was[i].Some?
    requires forall i :: 0 <= i < SLOTS ==> now[i] == Pushed(was[i], delivery, i, source, entry.event)
    ensures Flagged(records[source := Stored(entry, true, delivery.Keys)], owner + [source], SlotsOf(now))
  {
    hide InSlot;
    var records' := records[source := Stored(entry, true, delivery.Keys)];
    var slots := SlotsOf(now);
    forall id, i: nat | id in records'
      ensures i in records'[id].claims <==> i < |slots| && InSlot(slots[i], id)
    {
      if i < SLOTS {
        PushedClaims(was, delivery, source, entry.event, now, i, id);
        assert SlotsOf(was)[i] == SlotOf(was[i]);
      }
    }
  }

  lemma PushedAccounts(store: map<nat, Entry>, hi: nat, bytes: nat, sessions: map<SessionId, nat>, source: nat, entry: Entry)
    requires Accounted(store, hi, bytes, sessions) && source !in store && source < hi
    ensures var e := entry.event;
            Accounted(store[source := entry], hi, bytes + e.encoded, sessions[e.session := Get(sessions, e.session) + e.encoded])
  {
    hide Held;
    var e := entry.event;
    var full := store[source := entry];
    assert full - {source} == store;
    HeldWithout(full, Total, 0, hi, source);
    var after := sessions[e.session := Get(sessions, e.session) + e.encoded];
    forall s: SessionId ensures Get(after, s) == Held(full, Of(s), 0, hi) && (s in after ==> after[s] > 0) {
      HeldWithout(full, Of(s), 0, hi, source);
      assert Get(sessions, s) == Held(store, Of(s), 0, hi);
    }
  }

  lemma PushedCharges(store: map<nat, Entry>, was: seq<Option<Subscriber>>, delivery: map<nat, nat>, source: nat, entry: Entry, now: seq<Option<Subscriber>>)
    requires |was| == |now| == SLOTS && source !in store
    requires forall i :: 0 <= i < SLOTS ==> !InSlot(SlotOf(was[i]), source)
    requires forall i :: 0 <= i < SLOTS ==> now[i] == Pushed(was[i], delivery, i, source, entry.event)
    requires forall i :: 0 <= i < SLOTS ==> Charged(store, was[i])
    ensures forall i :: 0 <= i < SLOTS ==> Charged(store[source := entry], now[i])
  {
    var full := store[source := entry];
    forall i | 0 <= i < SLOTS ensures Charged(full, now[i]) {
      if was[i].Some? {
        var items := was[i].value.queue.items;
        assert Charged(store, was[i]);
        assert !InSlot(SlotOf(was[i]), source);
        QueueBytesAgree(store, full, items);
        if i in delivery {
          var d := Delivery(delivery[i], source);
          QueueBytesAppend(full, items, [d]);
          assert QueueBytes(full, [d]) == entry.event.encoded + QueueBytes(full, [d][1..]);
        }
      }
    }
  }

  ghost function StageSlot(l: Ledger, base: Ledger, events: seq<Event>, required: bool, j: nat, i: nat): Option<Queue>
    requires j <= |events| && SameSlots(l, base) && SameSlots(base, Advance(l, events)) && i < |l.slots|
  {
    if base.slots[i].None? then None
    else
      var b := base.slots[i].value;
      var taken := if Accepting(l.store, l.slots[i].value, events, required)
                   then Offers(b.scope, events[..j], b.next, l.next) else [];
      Some(b.(next := Advance(l, events).slots[i].value.next, items := b.items + taken))
  }

  /** `base` numbers its queues as `l` does. */
  ghost predicate Renumbered(l: Ledger, base: Ledger) {
    && SameSlots(l, base)
    && forall i :: 0 <= i < |l.slots| && l.slots[i].Some? ==>
         base.slots[i].value.next == l.slots[i].value.next && base.slots[i].value.scope == l.slots[i].value.scope
  }

  lemma StageStart(l: Ledger, base: Ledger, events: seq<Event>, required: bool, slots: seq<Option<Queue>>)
    requires SameSlots(l, base) && SameSlots(base, Advance(l, events))
    requires slots == Renumber(base, Advance(l, events)).slots
    ensures forall i :: 0 <= i < |l.slots| ==> slots[i] == StageSlot(l, base, events, required, 0, i)
    ensures base.store + Recorded(l.next, events[..0], required) == base.store
    ensures base.owner + Sources(l.next, 0) == base.owner
    ensures Advance(l, events).next == l.next + |events|
  {
    forall i | 0 <= i < |l.slots| ensures slots[i] == StageSlot(l, base, events, required, 0, i) {
      if base.slots[i].Some? { assert base.slots[i].value.items + [] == base.slots[i].value.items; }
    }
    assert Recorded(l.next, events[..0], required) == map[];
  }

  lemma StageNext(base: Ledger, first: nat, events: seq<Event>, required: bool, j: nat)
    requires j < |events|
    ensures base.store + Recorded(first, events[..j + 1], required)
            == (base.store + Recorded(first, events[..j], required))[first + j := Entry(events[j], required)]
    ensures base.owner + Sources(first, j + 1) == base.owner + Sources(first, j) + [first + j]
  {
  }

  lemma StageFresh(l: Ledger, base: Ledger, events: seq<Event>, required: bool, j: nat)
    requires j < |events| && SameSlots(l, base) && SameSlots(base, Advance(l, events))
    requires Inv(base) && base.next == l.next && Renumbered(l, base)
    ensures l.next + j !in base.store + Recorded(l.next, events[..j], required)
    ensures l.next + j !in base.owner + Sources(l.next, j)
    ensures forall i :: 0 <= i < SLOTS ==> !InSlot(StageSlot(l, base, events, required, j, i), l.next + j)
  {
    hide StageSlot, Advance, Renumbered, Offers, Budgets, QueueInv;
    forall i | 0 <= i < SLOTS ensures !InSlot(StageSlot(l, base, events, required, j, i), l.next + j) {
      StageSlotFresh(l, base, events, required, j, i);
    }
  }

  lemma StageSlotFresh(l: Ledger, base: Ledger, events: seq<Event>, required: bool, j: nat, i: nat)
    requires j < |events| && SameSlots(l, base) && SameSlots(base, Advance(l, events)) && i < SLOTS
    requires Inv(base) && base.next == l.next && Renumbered(l, base)
    ensures !InSlot(StageSlot(l, base, events, required, j, i), l.next + j)
  {
    hide Advance, Budgets, Accepting, Selected;
    if base.slots[i].Some? {
      var b := base.slots[i].value;
      assert QueueInv(base.store, base.next, b);
      OffersNumbered(b.scope, events[..j], b.next, l.next);
    }
  }

  lemma StageStepSlot(l: Ledger, base: Ledger, events: seq<Event>, required: bool, m: map<nat, nat>, j: nat, i: nat, s: Option<Subscriber>)
    requires j < |events| && SameSlots(l, base) && SameSlots(base, Advance(l, events)) && i < |l.slots| == SLOTS
    requires Renumbered(l, base) && ChosenFor(l, events, required, j, m, SLOTS)
    requires SlotOf(s) == StageSlot(l, base, events, required, j, i)
    ensures i in m ==> s.Some?
    ensures SlotOf(Pushed(s, m, i, l.next + j, events[j])) == StageSlot(l, base, events, required, j + 1, i)
  {
    hide Selected, Accepting, Advance;
    if base.slots[i].Some? {
      var b := base.slots[i].value;
      assert events[..j + 1][..j] == events[..j];
      var o := Offers(b.scope, events[..j], b.next, l.next);
      var accepting := Accepting(l.store, l.slots[i].value, events, required);
      assert i in m <==> b.scope.Permits(events[j]) && accepting;
      assert Offers(b.scope, events[..j + 1], b.next, l.next)
          == o + (if b.scope.Permits(events[j]) then [Delivery(b.next + Selected(b.scope, events[..j]), l.next + j)] else []);
      if i in m {
        assert b.items + (o + [Delivery(m[i], l.next + j)]) == b.items + o + [Delivery(m[i], l.next + j)];
      } else {
        assert o + [] == o;
      }
    } else {
      assert i !in m;
    }
  }

  lemma StageStep(l: Ledger, base: Ledger, events: seq<Event>, required: bool, deliveries: seq<map<nat, nat>>, j: nat, subs: seq<Option<Subscriber>>)
    requires j < |events| && SameSlots(l, base) && SameSlots(base, Advance(l, events)) && |subs| == |l.slots| == SLOTS
    requires Renumbered(l, base) && Chosen(l, events, required, deliveries, SLOTS)
    requires forall i :: 0 <= i < SLOTS ==> SlotOf(subs[i]) == StageSlot(l, base, events, required, j, i)
    ensures |deliveries| == |events|
    ensures forall i :: i in deliveries[j] ==> i < SLOTS && subs[i].Some?
    ensures forall i :: 0 <= i < SLOTS ==>
              SlotOf(Pushed(subs[i], deliveries[j], i, l.next + j, events[j])) == StageSlot(l, base, events, required, j + 1, i)
  {
    assert ChosenFor(l, events, required, j, deliveries[j], SLOTS);
    forall i | 0 <= i < SLOTS
      ensures i in deliveries[j] ==> subs[i].Some?
      ensures SlotOf(Pushed(subs[i], deliveries[j], i, l.next + j, events[j])) == StageSlot(l, base, events, required, j + 1, i)
    {
      StageStepSlot(l, base, events, required, deliveries[j], j, i, subs[i]);
    }
  }

  lemma StageEnd(l: Ledger, base: Ledger, events: seq<Event>, required: bool, slots: seq<Option<Queue>>)
    requires SameSlots(l, base) && SameSlots(base, Advance(l, events)) && Renumbered(l, base) && |slots| == |l.slots|
    requires forall i :: 0 <= i < |l.slots| ==> slots[i] == StageSlot(l, base, events, required, |events|, i)
    ensures var p := Publish(l, base, events, required);
            && slots == p.slots
            && p == base.(next := l.next + |events|,
                          store := base.store + Recorded(l.next, events[..|events|], required),
                          owner := base.owner + Sources(l.next, |events|), slots := slots)
  {
    assert events[..|events|] == events;
    var p := Publish(l, base, events, required);
    forall i | 0 <= i < |l.slots| ensures slots[i] == p.slots[i] {}
    assert slots == p.slots;
  }

  ghost predicate Saved(previous: seq<Option<nat>>, l: Ledger) {
    && |previous| == |l.slots|
    && forall i :: 0 <= i < |l.slots| ==>
         previous[i] == if l.slots[i].None? then None else Some(l.slots[i].value.next)
  }


  lemma UndoSlots(l: Ledger, events: seq<Event>, subs: seq<Option<Subscriber>>)
    requires SlotsOf(subs) == Advance(l, events).slots
    ensures |subs| == |l.slots|
    ensures forall i :: 0 <= i < |l.slots| ==>
              && (subs[i].Some? <==> l.slots[i].Some?)
              && (subs[i].Some? ==> subs[i].value.queue.(next := l.slots[i].value.next) == l.slots[i].value)
  {
    forall i | 0 <= i < |l.slots|
      ensures (subs[i].Some? <==> l.slots[i].Some?)
              && (subs[i].Some? ==> subs[i].value.queue.(next := l.slots[i].value.next) == l.slots[i].value)
    {
      assert SlotOf(subs[i]) == Advance(l, events).slots[i];
    }
  }

  /** Counters, flags and masks do not depend on identity counters: whatever is
      tied to one of `l` and `l'` is tied to the other. */
  lemma MovedTied(l: Ledger, l': Ledger, events: seq<Event>, records: map<nat, Stored>, owner: seq<nat>, bytes: nat,
                  sessions: map<SessionId, nat>, subs: seq<Option<Subscriber>>, subs': seq<Option<Subscriber>>)
    requires Inv(l) && IdentitiesMoved(l, l', events) && |subs| == |subs'| == SLOTS
    requires SlotsOf(subs) == l.slots && SlotsOf(subs') == l'.slots
    requires forall i :: 0 <= i < SLOTS ==> SameBytes(subs'[i], subs[i])
    ensures Flagged(records, owner, l.slots) <==> Flagged(records, owner, l'.slots)
    ensures Accounted(l.store, l.next, bytes, sessions) <==> Accounted(l.store, l'.next, bytes, sessions)
    ensures forall i :: 0 <= i < SLOTS ==> (Charged(l.store, subs[i]) <==> Charged(l.store, subs'[i]))
  {
    hide Held, Inv, QueueBytes;
    InvClaims(l);
    forall i, id | 0 <= i < SLOTS ensures InSlot(l.slots[i], id) <==> InSlot(l'.slots[i], id) {
      assert SlotMoved(l.slots[i], l'.slots[i], events);
    }
    forall what ensures Held(l.store, what, 0, l'.next) == Held(l.store, what, 0, l.next) {
      HeldBeyond(l.store, what, l.next, l'.next);
    }
    forall i | 0 <= i < SLOTS ensures Charged(l.store, subs[i]) <==> Charged(l.store, subs'[i]) {
      assert SlotMoved(l.slots[i], l'.slots[i], events);
      assert SlotOf(subs[i]) == l.slots[i] && SlotOf(subs'[i]) == l'.slots[i];
    }
  }


  lemma AssignedChosen(l: Ledger, was: seq<Option<Subscriber>>, events: seq<Event>, required: bool, deliveries: seq<map<nat, nat>>)
    requires l.slots == SlotsOf(was) && Assigned(was, events, deliveries)
    ensures Chosen(l, events, required, deliveries, 0)
  {
    forall j | 0 <= j < |events| ensures ChosenFor(l, events, required, j, deliveries[j], 0) {
      assert AssignedTo(was, events, j, deliveries[j]);
      forall k: nat | k < |was| ensures l.slots[k] == SlotOf(was[k]) {}
    }
  }

  lemma ShapedAlike(l: Ledger, events: seq<Event>)
    ensures Shaped(Advance(l, events), events) <==> Shaped(l, events)
  {
  }

  lemma LocalShape(l: Ledger, events: seq<Event>, required: bool)
    ensures var local := Local(l, events, required);
            && local.next == l.next && local.maxEvents == l.maxEvents && local.maxBytes == l.maxBytes
            && SubStore(local.store, l.store)
            && forall id :: id in l.store ==> (id in local.store <==> id !in l.store.Keys - local.store.Keys)
  {
  }

  lemma DecideFits(l: Ledger, events: seq<Event>, required: bool)
    requires Inv(l)
    requires l.available && |events| <= l.maxEvents && Shaped(l, events)
    requires !(required && SomeoneRefuses(l, events, required))
    requires Affordable(Local(l, events, required), events, required)
    ensures var base := Removed(Local(l, events, required), Surplus(Local(l, events, required), events));
            && Decide(l, events, required) == Fits(base)
            && Inv(base) && base.next == l.next && SameSlots(l, base) && Renumbered(l, base)
            && SameSlots(base, Advance(l, events))
  {
    hide Inv, Removed, Local, Surplus, Affordable, SomeoneRefuses, Shaped;
    FitsBase(l, events, required);
    InvClaims(l);
    var base := Removed(Local(l, events, required), Surplus(Local(l, events, required), events));
    forall i | 0 <= i < |l.slots| && l.slots[i].Some?
      ensures base.slots[i].value.next == l.slots[i].value.next && base.slots[i].value.scope == l.slots[i].value.scope
    {
      FitsSlot(l, events, required, i);
    }
  }

  lemma NoCharge(store: map<nat, Entry>)
    ensures Charged(store, None)
  {
  }
}
