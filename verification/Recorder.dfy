/** The recorder itself: a shared record store with incrementally maintained
    byte counters, owner flags and claim masks, proved to track the ledger. */
module Recorder {
  import opened Prelude
  import opened Events
  import opened Ledger
  import opened LedgerInvariant
  import opened Paging
  import opened Consumers
  import opened RecorderPlan
  import opened RecorderState

  const MAX_EVENTS: nat := 65536
  const MAX_TOTAL: nat := 64 * 1024 * 1024

  class Recorder {
    const epoch: Epoch
    const maxEvents: nat
    const maxBytes: nat
    const subscribers: array<Option<Subscriber>>
    var next: nat
    var records: map<nat, Stored>
    var owner: seq<nat>
    var sessionBytes: map<SessionId, nat>
    var bytes: nat
    var available: bool

    ghost function Model(): Ledger
      reads this, subscribers
    {
      Ledger(maxEvents, maxBytes, available, next, StoreOf(records), owner, SlotsOf(subscribers[..]))
    }

    ghost predicate Tied()
      reads this, subscribers
    {
      && subscribers.Length == SLOTS
      && Flagged(records, owner, SlotsOf(subscribers[..]))
      && Accounted(StoreOf(records), next, bytes, sessionBytes)
      && forall i :: 0 <= i < SLOTS ==> Charged(StoreOf(records), subscribers[i])
    }

    ghost predicate Valid()
      reads this, subscribers
    {
      Tied() && Inv(Model())
    }

    constructor Empty(epoch: Epoch, maxEvents: nat, maxBytes: nat)
      ensures Valid() && fresh(subscribers)
      ensures Model() == Initial(maxEvents, maxBytes) && this.epoch == epoch
    {
      this.epoch, this.maxEvents, this.maxBytes := epoch, maxEvents, maxBytes;
      next, records, owner := 1, map[], [];
      sessionBytes, bytes, available := map[], 0, true;
      subscribers := new Option<Subscriber>[SLOTS](_ => None);
      new;
      assert SlotsOf(subscribers[..]) == Initial(maxEvents, maxBytes).slots;
      InitialInv(maxEvents, maxBytes);
      forall what ensures Held(map[], what, 0, 1) == 0 { HeldNone(map[], what, 0, 1); }
    }

    /** A recorder with limits in range, or `RequestInvalid`. */
    static method New(epoch: Epoch, maxEvents: nat, maxBytes: nat) returns (r: Result<Recorder>)
      ensures r.Ok? <==> WellFormed(epoch) && 1 <= maxEvents <= MAX_EVENTS && MIN_QUEUE_BYTES <= maxBytes <= MAX_TOTAL
      ensures r.Err? ==> r.error == RequestInvalid
      ensures r.Ok? ==> fresh(r.value) && fresh(r.value.subscribers) && r.value.Valid()
      ensures r.Ok? ==> r.value.Model() == Initial(maxEvents, maxBytes) && r.value.epoch == epoch
    {
      if !WellFormed(epoch) || maxEvents == 0 || maxEvents > MAX_EVENTS || maxBytes < MIN_QUEUE_BYTES || maxBytes > MAX_TOTAL {
        return Err(RequestInvalid);
      }
      var recorder := new Recorder.Empty(epoch, maxEvents, maxBytes);
      return Ok(recorder);
    }

    /** Forget one record and its charges. */
    method Discard(source: nat)
      requires Accounted(StoreOf(records), next, bytes, sessionBytes)
      requires source in records ==> source < next
      modifies this`records, this`bytes, this`sessionBytes
      ensures records == old(records) - {source}
      ensures Accounted(StoreOf(records), next, bytes, sessionBytes)
    {
      if source in records {
        var entry := records[source].entry;
        var session := entry.event.session;
        ghost var store := StoreOf(records);
        ghost var counts := sessionBytes;
        HeldWithout(store, Total, 0, next, source);
        HeldWithout(store, Of(session), 0, next, source);
        records := records - {source};
        assert StoreOf(records) == store - {source};
        bytes := bytes - entry.event.encoded;
        assert Get(sessionBytes, session) > 0;
        var left := sessionBytes[session] - entry.event.encoded;
        if left == 0 {
          sessionBytes := sessionBytes - {session};
        } else {
          sessionBytes := sessionBytes[session := left];
        }
        forall s: SessionId ensures Get(sessionBytes, s) == Held(StoreOf(records), Of(s), 0, next) {
          HeldWithout(store, Of(s), 0, next, source);
          assert Get(counts, s) == Held(store, Of(s), 0, next);
        }
      }
    }

    /** Retain in one subscriber queue only what is not in `sources`. */
    method RetainSlot(i: nat, sources: set<nat>)
      requires i < SLOTS == subscribers.Length
      requires Charged(StoreOf(records), subscribers[i])
      requires subscribers[i].Some? ==>
                 forall k :: 0 <= k < |subscribers[i].value.queue.items| ==> subscribers[i].value.queue.items[k].source in records
      modifies subscribers
      ensures SlotOf(subscribers[i]) == SlotKept(SlotOf(old(subscribers[i])), sources)
      ensures Charged(StoreOf(records), subscribers[i])
      ensures forall j :: 0 <= j < SLOTS && j != i ==> subscribers[j] == old(subscribers[j])
    {
      if subscribers[i].Some? {
        var s := subscribers[i].value;
        var items := s.queue.items;
        var kept: seq<Delivery> := [];
        var charge := s.bytes;
        ghost var store := StoreOf(records);
        for k := 0 to |items|
          invariant subscribers[..] == old(subscribers[..])
          invariant kept == Kept(items[..k], sources)
          invariant charge == QueueBytes(store, kept) + QueueBytes(store, items[k..])
        {
          var d := items[k];
          assert items[..k + 1] == items[..k] + [d];
          FilterAppend((d: Delivery) => d.source !in sources, items[..k], [d]);
          KeptOne(d, sources);
          assert items[k..][1..] == items[k + 1..];
          if d.source in sources {
            charge := charge - records[d.source].entry.event.encoded;
          } else {
            QueueBytesAppend(store, kept, [d]);
            assert QueueBytes(store, [d]) == store[d.source].event.encoded + QueueBytes(store, [d][1..]);
            kept := kept + [d];
          }
        }
        assert items[..|items|] == items;
        subscribers[i] := Some(Subscriber(s.queue.(items := kept), charge));
      }
    }

    /** Clear one consumer's flag on `sources`, discarding what nobody holds. */
    method ClearSources(sources: set<nat>, subscriber: Option<nat>)
      requires Accounted(StoreOf(records), next, bytes, sessionBytes)
      requires forall id :: id in records ==> id < next
      modifies this`records, this`bytes, this`sessionBytes
      ensures Accounted(StoreOf(records), next, bytes, sessionBytes)
      ensures records == HeldOnly(Cleared(old(records), sources, subscriber), sources)
    {
      ghost var before := records;
      var pending := sources;
      while pending != {}
        invariant pending <= sources
        invariant Accounted(StoreOf(records), next, bytes, sessionBytes)
        invariant records == HeldOnly(Cleared(before, sources - pending, subscriber), sources - pending)
      {
        var source :| source in pending;
        ghost var done := sources - pending;
        pending := pending - {source};
        assert sources - pending == done + {source};
        ClearStep(before, done, source, subscriber);
        if source in records {
          var entry := ClearOne(records[source], subscriber);
          ghost var store := StoreOf(records);
          records := records[source := entry];
          assert StoreOf(records) == store;
          if !entry.owner && entry.claims == {} {
            Discard(source);
          }
        }
      }
      assert sources - {} == sources;
    }

    /** Give up one consumer's references to `sources`, discarding every record
        that no consumer refers to any more. */
    method Release(sources: set<nat>, subscriber: Option<nat>)
      requires Valid() && (subscriber.Some? ==> subscriber.value < SLOTS)
      modifies this`owner, this`records, this`bytes, this`sessionBytes, subscribers
      ensures Valid()
      ensures Model() == Released(old(Model()), sources, subscriber)
    {
      hide Inv, Flagged, Accounted, Charged, Purge, HeldOnly, Cleared, Kept, OwnerKept;
      ghost var l := Model();
      ghost var before := records;
      InvClaims(l);
      if subscriber.Some? {
        if subscribers[subscriber.value].Some? { ItemsStored(l, subscriber.value); }
        RetainSlot(subscriber.value, sources);
      } else {
        owner := OwnerKept(owner, sources);
      }
      ghost var target := Released(l, sources, subscriber);
      ReleasedParts(l, sources, subscriber);
      ClearedStore(before, sources, subscriber);
      assert SlotsOf(subscribers[..]) == target.slots;
      ClearSources(sources, subscriber);
      ReleasedState(l, before, sources, subscriber);
      ChargedAgree(l.store, target, subscribers[..]);
      assert Model() == target;
    }

    /** Forget every record of `sources`. */
    method DiscardAll(sources: set<nat>)
      requires Accounted(StoreOf(records), next, bytes, sessionBytes)
      requires forall id :: id in records ==> id < next
      modifies this`records, this`bytes, this`sessionBytes
      ensures Accounted(StoreOf(records), next, bytes, sessionBytes)
      ensures records == old(records) - sources
    {
      var pending := sources;
      while pending != {}
        invariant pending <= sources
        invariant Accounted(StoreOf(records), next, bytes, sessionBytes)
        invariant records == old(records) - (sources - pending)
      {
        var source :| source in pending;
        pending := pending - {source};
        Discard(source);
      }
      assert sources - {} == sources;
    }

    /** Drop every consumer's references to `sources`, and the records. */
    method Remove(sources: set<nat>)
      requires Valid()
      modifies this`owner, this`records, this`bytes, this`sessionBytes, subscribers
      ensures Valid()
      ensures Model() == Removed(old(Model()), sources)
    {
      hide Inv, Flagged, Accounted, Charged, Purge, Kept, OwnerKept;
      ghost var l := Model();
      ghost var before := records;
      InvClaims(l);
      owner := OwnerKept(owner, sources);
      for i := 0 to SLOTS
        modifies subscribers
        invariant subscribers.Length == SLOTS
        invariant forall j :: 0 <= j < i ==> SlotOf(subscribers[j]) == SlotKept(l.slots[j], sources)
        invariant forall j :: i <= j < SLOTS ==> subscribers[j] == old(subscribers[j])
        invariant forall j :: 0 <= j < SLOTS ==> Charged(StoreOf(before), subscribers[j])
      {
        if subscribers[i].Some? { ItemsStored(l, i); }
        RetainSlot(i, sources);
      }
      ghost var target := Removed(l, sources);
      RemovedState(l, before, sources);
      assert SlotsOf(subscribers[..]) == target.slots;
      ClearedStore(before, sources, None);
      DiscardAll(sources);
      ChargedAgree(l.store, target, subscribers[..]);
      assert Model() == target;
    }

    /** Give one event its delivery id in every queue that selects it. */
    method AssignEvent(events: seq<Event>, j: nat, ghost was: seq<Option<Subscriber>>)
      returns (ok: bool, selected: map<nat, nat>)
      requires j < |events| && subscribers.Length == |was| == SLOTS
      requires forall i :: 0 <= i < SLOTS ==> subscribers[i] == Numbered(was[i], events[..j])
      requires forall i :: 0 <= i < SLOTS ==> !SlotOverflows(was[i], events[..j])
      modifies subscribers
      ensures ok ==> forall i :: 0 <= i < SLOTS ==>
                subscribers[i] == Numbered(was[i], events[..j + 1]) && !SlotOverflows(was[i], events[..j + 1])
      ensures ok ==> AssignedTo(was, events, j, selected)
      ensures !ok ==> exists i :: 0 <= i < SLOTS && SlotOverflows(was[i], events)
      ensures forall i :: 0 <= i < SLOTS ==>
                || subscribers[i] == Numbered(was[i], events[..j])
                || (subscribers[i] == Numbered(was[i], events[..j + 1]) && !SlotOverflows(was[i], events[..j + 1]))
    {
      hide Selected, Numbered, SlotOverflows;
      ok, selected := true, map[];
      for i := 0 to SLOTS
        modifies subscribers
        invariant forall k :: 0 <= k < i ==> subscribers[k] == Numbered(was[k], events[..j + 1])
        invariant forall k :: i <= k < SLOTS ==> subscribers[k] == Numbered(was[k], events[..j])
        invariant forall k :: 0 <= k < i ==> !SlotOverflows(was[k], events[..j + 1])
        invariant forall k: nat :: k in selected <==> k < i && Selects(was[k], events[j])
        invariant forall k: nat :: k in selected ==>
                    k < i && selected[k] == was[k].value.queue.next + Selected(was[k].value.queue.scope, events[..j])
      {
        NumberedStep(was[i], events, j);
        if subscribers[i].Some? && subscribers[i].value.queue.scope.Permits(events[j]) {
          var q := subscribers[i].value.queue;
          selected := selected[i := q.next];
          if q.next + 1 > U64_MAX {
            OverflowMonotone(was[i], events, j + 1);
            return false, map[];
          }
          subscribers[i] := Some(subscribers[i].value.(queue := q.(next := q.next + 1)));
        }
      }
    }

    /** Number the batch: source ids first, then one delivery id per selection. */
    method AssignIdentities(events: seq<Event>) returns (ok: bool, deliveries: seq<map<nat, nat>>)
      requires subscribers.Length == SLOTS && events != []
      modifies this`next, subscribers
      ensures ok <==> !Overflows(old(Model()), events)
      ensures ok ==> Model() == Advance(old(Model()), events)
      ensures ok ==> Assigned(old(subscribers[..]), events, deliveries)
      ensures ok ==> forall i :: 0 <= i < SLOTS ==> SameBytes(old(subscribers[i]), subscribers[i])
      ensures !ok ==> IdentitiesMoved(old(Model()), Model(), events) && Unwrapped(old(Model()), Model())
      ensures !ok ==> forall i :: 0 <= i < SLOTS ==> SameBytes(old(subscribers[i]), subscribers[i])
    {
      hide Inv, StoreOf, AssignedTo, Selected, Numbered, SlotOverflows;
      ghost var was := subscribers[..];
      ok, deliveries := true, [];
      if next + |events| > U64_MAX { return false, []; }
      next := next + |events|;
      forall i | 0 <= i < SLOTS ensures was[i] == Numbered(was[i], events[..0]) && !SlotOverflows(was[i], events[..0]) {
        NumberedNone(was[i], events[..0]);
      }
      for j := 0 to |events|
        modifies subscribers
        invariant forall i :: 0 <= i < SLOTS ==> subscribers[i] == Numbered(was[i], events[..j])
        invariant forall i :: 0 <= i < SLOTS ==> !SlotOverflows(was[i], events[..j])
        invariant Assigned(was, events[..j], deliveries)
      {
        var numbered, selected := AssignEvent(events, j, was);
        if !numbered {
          forall k | 0 <= k < SLOTS
            ensures SlotMoved(SlotOf(was[k]), SlotOf(subscribers[k]), events) && SameBytes(was[k], subscribers[k])
            ensures was[k].Some? && subscribers[k].Some? ==>
                      subscribers[k].value.queue.next == was[k].value.queue.next || subscribers[k].value.queue.next <= U64_MAX
          {
            NumberedMoved(was[k], events, j);
            NumberedMoved(was[k], events, j + 1);
            if was[k].Some? && !SlotOverflows(was[k], events[..j]) { NumberedFits(was[k], events[..j]); }
            if was[k].Some? && !SlotOverflows(was[k], events[..j + 1]) { NumberedFits(was[k], events[..j + 1]); }
          }
          SlotsOverflow(old(Model()), was, events);
          return false, [];
        }
        AssignedNext(was, events, j, deliveries, selected);
        deliveries := deliveries + [selected];
      }
      assert events[..|events|] == events;
      SlotsOverflow(old(Model()), was, events);
      SlotsAdvance(old(Model()), was, events);
      assert subscribers[..] == seq(SLOTS, i requires 0 <= i < SLOTS => Numbered(was[i], events));
    }

    /** Check the batch's shape and total its charges. */
    method Weigh(events: seq<Event>) returns (ok: bool, added: nat, projected: map<SessionId, nat>)
      ensures ok <==> Shaped(Model(), events)
      ensures ok ==> added == Offered(events, Total)
      ensures ok ==> forall s: SessionId :: Get(projected, s) == Get(sessionBytes, s) + Offered(events, Of(s))
    {
      ok, added, projected := true, 0, sessionBytes;
      for j := 0 to |events|
        invariant added == Offered(events[..j], Total)
        invariant j == 0 || (added <= MAX_UPDATE && added <= maxBytes)
        invariant forall k :: 0 <= k < j ==>
                    WellFormed(events[k].session) && events[k].fields <= MAX_RECORD && events[k].encoded <= MAX_RECORD
        invariant forall s: SessionId :: Get(projected, s) == Get(sessionBytes, s) + Offered(events[..j], Of(s))
      {
        var e := events[j];
        assert events[..j + 1][..j] == events[..j];
        OfferedMonotone(events, Total, j + 1);
        if !WellFormed(e.session) || e.fields > MAX_RECORD { return false, 0, map[]; }
        added := added + e.encoded;
        if e.encoded > MAX_RECORD || added > MAX_UPDATE || added > maxBytes { return false, 0, map[]; }
        projected := projected[e.session := Get(projected, e.session) + e.encoded];
      }
      assert events[..|events|] == events;
    }

    /** How many of the batch one consumer gets, and their size. */
    static method Share(events: seq<Event>, deliveries: seq<map<nat, nat>>, i: nat, ghost scope: Scope)
      returns (selected: nat, size: nat)
      requires |deliveries| == |events|
      requires forall j :: 0 <= j < |events| ==> (i in deliveries[j] <==> scope.Permits(events[j]))
      ensures selected == Selected(scope, events) && size == SelectedBytes(scope, events)
    {
      selected, size := 0, 0;
      for j := 0 to |events|
        invariant selected == Selected(scope, events[..j]) && size == SelectedBytes(scope, events[..j])
      {
        assert events[..j + 1][..j] == events[..j];
        if i in deliveries[j] {
          selected, size := selected + 1, size + events[j].encoded;
        }
      }
      assert events[..|events|] == events;
    }

    /** Drop a queue's oldest records until `count` and `total` fit its limits,
        and refuse rather than drop a required one. */
    method MakeRoom(q: Queue, events: seq<Event>, required: bool, selected: nat, size: nat, held: nat)
      returns (accepted: bool, k: nat, drops: set<nat>)
      requires forall k :: 0 <= k < |q.items| ==> q.items[k].source in records
      requires 0 < selected == Selected(q.scope, events) <= q.limits.maxEvents
      requires size == SelectedBytes(q.scope, events) <= q.limits.maxBytes
      requires held == QueueBytes(StoreOf(records), q.items)
      ensures k <= |q.items|
      ensures LocalPlan(StoreOf(records), q, events, required) == if accepted then Admit(k) else Refuse
      ensures accepted ==> drops == SourcesOf(q.items[..k])
    {
      ghost var store := StoreOf(records);
      var count, total := |q.items| + selected, held + size;
      accepted, k, drops := true, 0, {};
      while k < |q.items| && !(count <= q.limits.maxEvents && total <= q.limits.maxBytes)
        invariant k <= |q.items|
        invariant count == |q.items| - k + selected
        invariant total == QueueBytes(store, q.items[k..]) + size
        invariant LeastDrop(store, q, events, 0) == LeastDrop(store, q, events, k)
        invariant Droppable(store, q.items, k) && (k > 0 ==> !required)
        invariant drops == SourcesOf(q.items[..k])
      {
        var source := q.items[k].source;
        if required || records[source].entry.required {
          RefusedAt(store, q, events, required, k);
          accepted := false;
          return;
        }
        assert q.items[k..][1..] == q.items[k + 1..];
        assert q.items[..k + 1] == q.items[..k] + [q.items[k]];
        SourcesNext(q.items[..k], q.items[k]);
        drops := drops + {source};
        count := count - 1;
        total := total - records[source].entry.event.encoded;
        k := k + 1;
      }
      assert LeastDrop(store, q, events, k) == k;
    }

    /** Plan one consumer's eviction. */
    method PlanSlot(i: nat, events: seq<Event>, deliveries: seq<map<nat, nat>>, required: bool)
      returns (plan: Plan, drops: set<nat>)
      requires i < SLOTS == subscribers.Length && subscribers[i].Some?
      requires Charged(StoreOf(records), subscribers[i])
      requires forall k :: 0 <= k < |subscribers[i].value.queue.items| ==> subscribers[i].value.queue.items[k].source in records
      requires |deliveries| == |events|
      requires forall j :: 0 <= j < |events| ==> (i in deliveries[j] <==> subscribers[i].value.queue.scope.Permits(events[j]))
      ensures plan == LocalPlan(StoreOf(records), subscribers[i].value.queue, events, required)
      ensures drops == if plan.Admit? then SourcesOf(subscribers[i].value.queue.items[..plan.drop]) else {}
    {
      var q := subscribers[i].value.queue;
      var selected, size := Share(events, deliveries, i, q.scope);
      if selected == 0 {
        return Untouched, {};
      } else if selected > q.limits.maxEvents || size > q.limits.maxBytes {
        return Refuse, {};
      }
      var accepted, k, gone := MakeRoom(q, events, required, selected, size, subscribers[i].value.bytes);
      if accepted {
        return Admit(k), gone;
      } else {
        return Refuse, {};
      }
    }

    /** The batch is numbered but nothing else has changed since `l`. */
    ghost predicate Planning(l: Ledger, events: seq<Event>)
      reads this, subscribers
    {
      Tied() && Inv(l) && Model() == Advance(l, events)
    }

    /** Plan every consumer's eviction independently, without changing anything. */
    method PlanLocal(events: seq<Event>, numbering: seq<map<nat, nat>>, required: bool, ghost l: Ledger)
      returns (ok: bool, drops: seq<set<nat>>, deliveries: seq<map<nat, nat>>)
      requires Planning(l, events)
      requires Chosen(l, events, required, numbering, 0)
      ensures ok <==> !(required && SomeoneRefuses(l, events, required))
      ensures ok ==> |drops| == SLOTS && forall i :: 0 <= i < SLOTS ==> drops[i] == LocalDrops(l, events, required, i)
      ensures ok ==> Chosen(l, events, required, deliveries, SLOTS)
    {
      hide Inv, Flagged, Accounted, Chosen;
      InvClaims(l);
      ok, drops, deliveries := true, [], numbering;
      for i := 0 to SLOTS
        invariant |drops| == i
        invariant forall k :: 0 <= k < i ==> drops[k] == LocalDrops(l, events, required, k)
        invariant Chosen(l, events, required, deliveries, i)
        invariant required ==> forall k :: 0 <= k < i && l.slots[k].Some? ==>
                    !LocalPlan(l.store, l.slots[k].value, events, required).Refuse?
      {
        ChosenNext(l, events, required, deliveries, i);
        if subscribers[i].None? {
          assert Model().slots[i].None?;
          drops := drops + [{}];
        } else {
          assert Model().slots[i] == Some(subscribers[i].value.queue);
          ghost var q := l.slots[i].value;
          assert subscribers[i].value.queue == q.(next := subscribers[i].value.queue.next);
          LocalPlanUnnumbered(l.store, q, subscribers[i].value.queue.next, events, required);
          ItemsStored(l, i);
          ChosenAt(l, events, required, deliveries, i);
          var plan, gone := PlanSlot(i, events, deliveries, required);
          if plan.Refuse? {
            if required { return false, [], []; }
            deliveries := Without(deliveries, i);
          }
          drops := drops + [gone];
        }
      }
    }

    predicate Fits(size: nat, count: nat, sessions: map<SessionId, nat>) {
      size <= maxBytes && count <= maxEvents && forall s :: s in sessions ==> sessions[s] <= SESSION_CAP
    }

    /** The records that local eviction leaves to nobody, and the totals without them. */
    method Orphans(events: seq<Event>, drops: seq<set<nat>>, added: nat, projected: map<SessionId, nat>, first: nat, required: bool, ghost l: Ledger)
      returns (gone: set<nat>, size: nat, count: nat, sessions: map<SessionId, nat>)
      requires Planning(l, events) && first == l.next
      requires |drops| == SLOTS && forall i :: 0 <= i < SLOTS ==> drops[i] == LocalDrops(l, events, required, i)
      requires added == Offered(events, Total)
      requires forall s: SessionId :: Get(projected, s) == Get(sessionBytes, s) + Offered(events, Of(s))
      ensures gone == l.store.Keys - Local(l, events, required).store.Keys
      ensures Totals(Local(l, events, required).store, 0, first, events, size, count, sessions)
    {
      hide Inv, Flagged, Local, LocalDrops, Totals, Held, Offered, Sifted;
      InvClaims(l);
      ghost var local := Local(l, events, required).store;
      ghost var store := l.store;
      assert store == StoreOf(records);
      gone, size, count, sessions := {}, bytes + added, |records| + |events|, projected;
      TotalsStart(l, events, bytes, sessionBytes, projected);
      assert records.Keys == store.Keys;
      ghost var rest := store;
      SiftStart(store, local);
      for id := 0 to first
        invariant Sifted(store, local, gone, rest, id)
        invariant Totals(rest, 0, first, events, size, count, sessions)
      {
        SiftNext(store, local, gone, rest, id);
        if id in records {
          OrphanTest(l, records, owner, events, required, drops, id);
          if !records[id].owner && forall i :: i in records[id].claims ==> id in drops[i] {
            var e := records[id].entry.event;
            TotalsDrop(rest, 0, first, events, size, count, sessions, id);
            rest := rest - {id};
            gone := gone + {id};
            size, count := size - e.encoded, count - 1;
            sessions := sessions[e.session := Get(sessions, e.session) - e.encoded];
          }
        }
      }
      LocalSub(l, events, required);
      SiftEnd(store, local, gone, rest, first);
    }

    /** Drop the oldest remaining records until the shared budgets fit, and give
        up rather than drop a required one or drop anything for a required batch. */
    method Trim(events: seq<Event>, required: bool, orphans: set<nat>, size: nat, count: nat, sessions: map<SessionId, nat>,
                first: nat, ghost l: Ledger)
      returns (ok: bool, gone: set<nat>)
      requires l.next == first && l.maxEvents == maxEvents && l.maxBytes == maxBytes
      requires SubStore(l.store, StoreOf(records))
      requires forall id :: id in records ==> (id in l.store <==> id !in orphans)
      requires Totals(l.store, 0, first, events, size, count, sessions)
      ensures ok <==> Affordable(l, events, required)
      ensures ok ==> gone == orphans + Surplus(l, events)
    {
      hide Held, Offered, Totals, Affordable;
      var left: nat, number: nat, each: map<SessionId, nat> := size, count, sessions;
      ok, gone := true, orphans;
      var id := 0;
      while id < first && !Fits(left, number, each)
        invariant id <= first
        invariant Totals(l.store, id, first, events, left, number, each)
        invariant LeastCut(l, events, 0) == LeastCut(l, events, id)
        invariant forall k :: k in l.store && k < id ==> !required && !l.store[k].required
        invariant gone == orphans + Older(l.store, id)
      {
        FitsIsGlobalFits(l, events, id, left, number, each);
        if id in records && id !in gone {
          assert id in l.store;
          if required || records[id].entry.required {
            NotAffordable(l, events, required, id);
            return false, {};
          }
          TotalsStep(l.store, id, first, events, left, number, each);
          var e := records[id].entry.event;
          gone := gone + {id};
          left, number := left - e.encoded, number - 1;
          each := each[e.session := Get(each, e.session) - e.encoded];
        } else {
          assert id !in l.store;
          TotalsSkip(l.store, id, first, events, left, number, each);
        }
        id := id + 1;
      }
      FitsIsGlobalFits(l, events, id, left, number, each);
      AffordableAt(l, events, required, id);
      if !Fits(left, number, each) { return false, {}; }
    }

    /** Carry out a plan: every consumer's own eviction, then the shared one. */
    method Evict(events: seq<Event>, required: bool, drops: seq<set<nat>>, gone: set<nat>, ghost l: Ledger)
      requires Planning(l, events)
      requires |drops| == SLOTS && forall i :: 0 <= i < SLOTS ==> drops[i] == LocalDrops(l, events, required, i)
      requires gone == (l.store.Keys - Local(l, events, required).store.Keys) + Surplus(Local(l, events, required), events)
      modifies this`owner, this`records, this`bytes, this`sessionBytes, subscribers
      ensures Tied()
      ensures var base := Removed(Local(l, events, required), Surplus(Local(l, events, required), events));
              && SameSlots(base, Advance(l, events))
              && Model() == Renumber(base, Advance(l, events))
    {
      hide Inv, Flagged, Accounted, Charged, LocalDrops, Surplus, LocallyEvicted, Removed, ReleaseSlot, Purge, Advance;
      ghost var a := Advance(l, events);
      AdvanceInv(l, events);
      EvictStart(l, events, required);
      for i := 0 to SLOTS
        invariant Valid()
        invariant SameSlots(PartlyPurged(l, events, required, i), a)
        invariant Model() == Renumber(PartlyPurged(l, events, required, i), a)
      {
        EvictStep(l, events, required, i, drops[i]);
        if drops[i] != {} {
          Release(drops[i], Some(i));
        }
      }
      EvictEnd(l, events, required, gone);
      if gone != {} {
        Remove(gone);
      }
    }

    /** Store one record and append it to the owner's and the chosen queues. */
    method Push(e: Event, required: bool, source: nat, delivery: map<nat, nat>)
      requires Tied() && source < next && source !in records
      requires source !in owner && forall i :: 0 <= i < SLOTS ==> !InSlot(SlotOf(subscribers[i]), source)
      requires forall i :: i in delivery ==> i < SLOTS && subscribers[i].Some?
      modifies this`owner, this`records, this`bytes, this`sessionBytes, subscribers
      ensures Tied()
      ensures StoreOf(records) == old(StoreOf(records))[source := Entry(e, required)]
      ensures owner == old(owner) + [source]
      ensures forall i :: 0 <= i < SLOTS ==> subscribers[i] == Pushed(old(subscribers[i]), delivery, i, source, e)
    {
      hide Flagged, Accounted, Charged;
      ghost var was := subscribers[..];
      ghost var store := StoreOf(records);
      for i := 0 to SLOTS
        modifies subscribers
        invariant forall k :: 0 <= k < i ==> subscribers[k] == Pushed(was[k], delivery, k, source, e)
        invariant forall k :: i <= k < SLOTS ==> subscribers[k] == was[k]
      {
        if i in delivery {
          var s := subscribers[i].value;
          subscribers[i] := Some(Subscriber(s.queue.(items := s.queue.items + [Delivery(delivery[i], source)]), s.bytes + e.encoded));
        }
      }
      PushedFlags(records, owner, was, delivery, source, Entry(e, required), subscribers[..]);
      PushedAccounts(store, next, bytes, sessionBytes, source, Entry(e, required));
      PushedCharges(store, was, delivery, source, Entry(e, required), subscribers[..]);
      bytes := bytes + e.encoded;
      sessionBytes := sessionBytes[e.session := Get(sessionBytes, e.session) + e.encoded];
      owner := owner + [source];
      records := records[source := Stored(Entry(e, required), true, delivery.Keys)];
      assert StoreOf(records) == store[source := Entry(e, required)];
    }

    /** The first `j` events are published into the evicted ledger `base`. */
    ghost predicate Stage(l: Ledger, base: Ledger, events: seq<Event>, required: bool, j: nat)
      requires j <= |events| && SameSlots(l, base) && SameSlots(base, Advance(l, events))
      reads this, subscribers
    {
      && subscribers.Length == |l.slots|
      && next == l.next + |events|
      && StoreOf(records) == base.store + Recorded(l.next, events[..j], required)
      && owner == base.owner + Sources(l.next, j)
      && forall i :: 0 <= i < |l.slots| ==> SlotOf(subscribers[i]) == StageSlot(l, base, events, required, j, i)
    }

    /** Publish every event of the batch, in order. */
    method PublishBatch(events: seq<Event>, required: bool, deliveries: seq<map<nat, nat>>, first: nat, ghost l: Ledger, ghost base: Ledger)
      requires Tied() && Inv(l) && Inv(base) && first == l.next == base.next
      requires SameSlots(l, base) && SameSlots(base, Advance(l, events)) && Renumbered(l, base)
      requires Model() == Renumber(base, Advance(l, events))
      requires Chosen(l, events, required, deliveries, SLOTS)
      modifies this`owner, this`records, this`bytes, this`sessionBytes, subscribers
      ensures Tied()
      ensures Model() == Publish(l, base, events, required)
    {
      hide Inv, Flagged, Accounted, Charged, Chosen, Publish, Advance, StageSlot, Recorded, Sources, SameSlots, Renumbered, Pushed;
      InvClaims(l);
      StageStart(l, base, events, required, SlotsOf(subscribers[..]));
      for j := 0 to |events|
        invariant Tied()
        invariant Stage(l, base, events, required, j)
      {
        StageFresh(l, base, events, required, j);
        StageStep(l, base, events, required, deliveries, j, subscribers[..]);
        StageNext(base, first, events, required, j);
        Push(events[j], required, first + j, deliveries[j]);
      }
      StageEnd(l, base, events, required, SlotsOf(subscribers[..]));
    }

    /** Take back every identity that the batch was given. */
    method Undo(first: nat, previous: seq<Option<nat>>, ghost l: Ledger, ghost events: seq<Event>)
      requires Planning(l, events) && Saved(previous, l) && first == l.next
      modifies this`next, subscribers
      ensures Tied() && Model() == l
    {
      hide Inv, Flagged, Accounted, Charged;
      InvClaims(l);
      ghost var was := subscribers[..];
      ghost var a := Model();
      UndoSlots(l, events, was);
      next := first;
      for i := 0 to SLOTS
        modifies subscribers
        invariant forall k :: 0 <= k < i ==> SlotOf(subscribers[k]) == l.slots[k] && SameBytes(was[k], subscribers[k])
        invariant forall k :: i <= k < SLOTS ==> subscribers[k] == was[k]
      {
        if subscribers[i].Some? && previous[i].Some? {
          var s := subscribers[i].value;
          subscribers[i] := Some(s.(queue := s.queue.(next := previous[i].value)));
        }
      }
      assert SlotsOf(subscribers[..]) == l.slots;
      AdvanceMoves(l, events);
      MovedTied(l, a, events, records, owner, bytes, sessionBytes, subscribers[..], was);
      assert Model() == l;
    }

    /** Run the caller's commit; its rejection takes back the batch's identities. */
    method Commit(first: nat, previous: seq<Option<nat>>, verdict: Result<()>, ghost l: Ledger, ghost events: seq<Event>)
      returns (result: Result<()>, calls: nat)
      requires Planning(l, events) && Saved(previous, l) && first == l.next
      modifies this`next, subscribers
      ensures result == verdict && calls == 1
      ensures Tied() && Model() == if verdict.Ok? then Advance(l, events) else l
    {
      if verdict.Err? { Undo(first, previous, l, events); }
      return verdict, 1;
    }

    /** The batch cannot be retained: refuse a required one, lose a best-effort one. */
    method Unavailable(required: bool, first: nat, previous: seq<Option<nat>>, verdict: Result<()>, ghost l: Ledger, ghost events: seq<Event>)
      returns (result: Result<()>, calls: nat)
      requires Planning(l, events) && Saved(previous, l) && first == l.next
      modifies this`next, subscribers
      ensures Valid()
      ensures if required then Model() == Advance(l, events) && result == Err(ObservationUnavailable) && calls == 0
              else Committed(l, Advance(l, events), verdict, Model(), Outcome(result, calls))
    {
      AdvanceInv(l, events);
      if required {
        return Err(ObservationUnavailable), 0;
      }
      result, calls := Commit(first, previous, verdict, l, events);
    }

    /** Record a batch, running `commit` after planning and before any eviction
        or publication. `clock` says whether the host clock is readable and
        `verdict` what the commit answers; `calls` counts its runs. */
    method RecordBatchWith(events: seq<Event>, required: bool, clock: bool, verdict: Result<()>)
      returns (result: Result<()>, calls: nat)
      requires Valid()
      modifies this`next, this`owner, this`records, this`bytes, this`sessionBytes, subscribers
      ensures Valid()
      ensures RecordStep(old(Model()), events, required, clock, verdict, Model(), Outcome(result, calls))
    {
      hide Inv, Flagged, Accounted, Charged, Chosen, Publish, Advance, Totals, Assigned, Shaped, Affordable, SomeoneRefuses,
           Removed, Surplus, Local, LocalDrops, SameSlots, Renumber, IdentitiesMoved, Unwrapped, Overflows, Get;
      if |events| == 0 || |events| > MAX_BATCH { return Err(RequestInvalid), 0; }
      ghost var l := Model();
      var first := next;
      var previous := SaveIdentities();
      var numbered, all := NumberBatch(events, required);
      if !numbered { return Err(ObservationUnavailable), 0; }
      if !available || |events| > maxEvents {
        result, calls := Unavailable(required, first, previous, verdict, l, events);
        return;
      }
      if !clock {
        AdvanceInv(l, events);
        return Err(ObservationUnavailable), 0;
      }
      var shaped, added, projected := Weigh(events);
      ShapedAlike(l, events);
      if !shaped {
        result, calls := Unavailable(required, first, previous, verdict, l, events);
        return;
      }
      var planned, drops, deliveries := PlanLocal(events, all, required, l);
      if !planned {
        result, calls := Unavailable(required, first, previous, verdict, l, events);
        return;
      }
      var orphans, size, count, sessions := Orphans(events, drops, added, projected, first, required, l);
      LocalShape(l, events, required);
      var fits, gone := Trim(events, required, orphans, size, count, sessions, first, Local(l, events, required));
      if !fits {
        result, calls := Unavailable(required, first, previous, verdict, l, events);
        return;
      }
      DecideFits(l, events, required);
      RecordInv(l, events, required);
      result, calls := Commit(first, previous, verdict, l, events);
      if result.Err? { return; }
      Evict(events, required, drops, gone, l);
      PublishBatch(events, required, deliveries, first, l, Decide(l, events, required).base);
    }

    /** Remember every subscriber's next delivery id. */
    method SaveIdentities() returns (previous: seq<Option<nat>>)
      requires subscribers.Length == SLOTS
      ensures Saved(previous, Model())
    {
      previous := [];
      for i := 0 to SLOTS
        invariant |previous| == i
        invariant forall k :: 0 <= k < i ==>
                    previous[k] == if subscribers[k].None? then None else Some(subscribers[k].value.queue.next)
      {
        previous := previous + [if subscribers[i].None? then None else Some(subscribers[i].value.queue.next)];
      }
    }

    /** Number the batch; on overflow only identity counters have moved. */
    method NumberBatch(events: seq<Event>, required: bool) returns (ok: bool, deliveries: seq<map<nat, nat>>)
      requires Valid() && events != []
      modifies this`next, subscribers
      ensures ok <==> !Overflows(old(Model()), events)
      ensures ok ==> Planning(old(Model()), events) && Chosen(old(Model()), events, required, deliveries, 0)
      ensures !ok ==> Valid() && IdentitiesMoved(old(Model()), Model(), events) && Unwrapped(old(Model()), Model())
    {
      hide Inv, Flagged, Accounted, Charged, Chosen, Advance, Overflows, IdentitiesMoved, Unwrapped, Assigned;
      ghost var l := Model();
      ghost var was := subscribers[..];
      ok, deliveries := AssignIdentities(events);
      AdvanceMoves(l, events);
      MovedTied(l, Model(), events, records, owner, bytes, sessionBytes, was, subscribers[..]);
      MovedInv(l, Model(), events);
      if ok { AssignedChosen(l, was, events, required, deliveries); }
    }

    /** One page of a queue whose records are all stored. */
    method ReadPage(items: seq<Delivery>, wrapped: bool, bound: nat, after: nat, previous: bool, limit: nat, maxBytes: nat)
      returns (r: Result<Batch>)
      requires Stocked(StoreOf(records), items)
      requires limit > 0 && after < bound
      requires Ascending(Ids(items)) && forall k :: 0 <= k < |items| ==> 1 <= items[k].id < bound
      ensures Reads(StoreOf(records), items, wrapped, bound, after, previous, limit, maxBytes, r)
    {
      ghost var store := StoreOf(records);
      var sizes: seq<nat> := [];
      for k := 0 to |items|
        invariant sizes == Sizes(store, items, wrapped)[..k]
      {
        var size := records[items[k].source].entry.event.encoded;
        sizes := sizes + [size + if wrapped then DELIVERY_FRAME + Digits(items[k].id) else 0];
      }
      assert sizes == Sizes(store, items, wrapped);
      var page := Take(Ids(items), sizes, bound, after, previous, limit, maxBytes);
      assert PageFor(items, sizes, bound, after, previous, limit, maxBytes, page);
      if page.Err? { return Err(page.error); }
      var told: seq<Told> := [];
      for k := page.value.start to page.value.end
        invariant |told| == k - page.value.start
        invariant forall j :: 0 <= j < |told| ==> told[j] == Tell(store, items[page.value.start + j])
      {
        told := told + [Told(items[k].id, items[k].source, records[items[k].source].entry.event)];
      }
      r := Ok(Batch(told, page.value.gap, page.value.after));
      assert told == Render(store, items, page).value.told;
    }

    /** The owner's next page after `cursor`. */
    method ReadBounded(cursor: Option<Cursor>, limit: nat, maxBytes: nat) returns (r: Result<Batch>)
      requires Valid()
      ensures OwnerReadStep(Model(), epoch, cursor, limit, maxBytes, r)
    {
      hide Reads, Tied;
      if !PageBounds(limit, maxBytes) { return Err(RequestInvalid); }
      var after := After(epoch, cursor);
      if after >= next { return Err(RequestInvalid); }
      OwnerQueue(Model());
      r := ReadPage(OwnerItems(owner), false, next, after, Previous(epoch, cursor), limit, maxBytes);
    }

    /** Release every owner reference at or below `cursor`. */
    method Acknowledge(cursor: Cursor) returns (r: Result<()>)
      requires Valid()
      modifies this`owner, this`records, this`bytes, this`sessionBytes, subscribers
      ensures Valid()
      ensures OwnerAckStep(old(Model()), epoch, cursor, r, Model())
    {
      hide Tied, ReleaseOwner;
      if cursor.epoch != epoch || cursor.after >= next { return Err(RequestInvalid); }
      var removed: set<nat> := {};
      var k := 0;
      while k < |owner| && owner[k] <= cursor.after
        invariant k <= |owner|
        invariant removed == Through(owner[..k], cursor.after)
      {
        removed := removed + {owner[k]};
        k := k + 1;
      }
      assert forall j :: k <= j < |owner| ==> owner[j] > cursor.after;
      assert removed == Through(owner, cursor.after) by { ThroughPrefix(owner, k, cursor.after); }
      Release(removed, None);
      return Ok(());
    }

    method SetAvailable(value: bool)
      requires Valid()
      modifies this`available
      ensures Valid() && Model() == old(Model()).(available := value)
    {
      available := value;
    }

    /** Enroll a forward-only subscriber in the first free slot. `id` is the
        random identity the subscription is given. */
    method Enroll(scope: Scope, limits: Limits, id: nat) returns (r: Result<()>)
      requires Valid()
      modifies subscribers
      ensures Valid()
      ensures SubscribeStep(old(Model()), scope, limits, id, r, Model())
    {
      hide Inv, QueueInv, Accounted, InSlot, Flagged, ValidScope;
      if !ValidScope(scope) { return Err(RequestInvalid); }
      if limits.maxEvents == 0 || limits.maxEvents > maxEvents || limits.maxBytes < MIN_QUEUE_BYTES || limits.maxBytes > maxBytes {
        return Err(RequestInvalid);
      }
      ghost var l := Model();
      var i := 0;
      while i < SLOTS && subscribers[i].Some?
        invariant i <= SLOTS && forall k :: 0 <= k < i ==> l.slots[k].Some?
      {
        assert l.slots[i] == SlotOf(subscribers[i]);
        i := i + 1;
      }
      if i == SLOTS { return Err(LimitExceeded); }
      assert l.slots[i] == SlotOf(subscribers[i]);
      var q := Enrolled(id, scope, limits);
      EnrolledFits(l, i, id, scope, limits);
      SetSlot(i, Some(Subscriber(q, 0)));
      assert IsFree(l.slots, i) && Model() == WithSlot(l, i, Some(q));
      return Ok(());
    }

    /** Replace one slot by one that refers to the same records. */
    method SetSlot(i: nat, s: Option<Subscriber>)
      requires Valid() && i < SLOTS
      requires forall id :: InSlot(SlotOf(s), id) <==> InSlot(SlotOf(subscribers[i]), id)
      requires s.Some? ==> QueueInv(StoreOf(records), next, s.value.queue)
      requires Charged(StoreOf(records), s)
      modifies subscribers
      ensures Valid() && Model() == WithSlot(old(Model()), i, SlotOf(s))
    {
      hide Inv, QueueInv, InSlot, Accounted;
      ghost var l := Model();
      SlotReplaced(l, i, SlotOf(s));
      subscribers[i] := s;
      assert SlotsOf(subscribers[..]) == l.slots[i := SlotOf(s)];
      assert Model() == WithSlot(l, i, SlotOf(s));
    }

    /** The slot of subscription `id`. */
    method Locate(id: nat) returns (r: Option<nat>)
      requires subscribers.Length == SLOTS
      ensures r.Some? ==> IsSlot(Model().slots, id, r.value)
      ensures r.None? ==> !exists i :: IsSlot(Model().slots, id, i)
    {
      ghost var slots := Model().slots;
      for i := 0 to SLOTS
        invariant forall k :: 0 <= k < i ==> !(slots[k].Some? && slots[k].value.id == id)
      {
        assert slots[i] == SlotOf(subscribers[i]);
        if subscribers[i].Some? && subscribers[i].value.queue.id == id { return Some(i); }
      }
      return None;
    }

    /** A subscriber's next page after `cursor`; it may then acknowledge through it. */
    method SubscriptionRead(id: nat, cursor: Option<SubscriptionCursor>, limit: nat, maxBytes: nat) returns (r: Result<Batch>)
      requires Valid()
      modifies subscribers
      ensures Valid()
      ensures SubscriptionReadStep(old(Model()), epoch, id, cursor, limit, maxBytes, r, Model())
    {
      hide Inv, Accounted, QueueInv, InSlot, Flagged, Reads;
      if !PageBounds(limit, maxBytes) { return Err(RequestInvalid); }
      var slot := Locate(id);
      if slot.None? { return Err(ObservationUnavailable); }
      var i := slot.value;
      ghost var l := Model();
      assert l.slots[i] == SlotOf(subscribers[i]);
      var s := subscribers[i].value;
      var q := s.queue;
      if cursor.Some? && !CursorFits(epoch, q, id, cursor.value) {
        assert SlotReadStep(l, epoch, i, cursor, limit, maxBytes, Err(RequestInvalid), l);
        return Err(RequestInvalid);
      }
      InvSlots(l);
      SlotQueue(l, i);
      assert 0 <= SubscriptionAfter(cursor) < q.next;
      r := ReadPage(q.items, true, q.next, SubscriptionAfter(cursor), false, limit, maxBytes);
      if r.Ok? {
        ReadsBelow(l.store, q.items, true, q.next, SubscriptionAfter(cursor), false, limit, maxBytes, r);
        var q' := q.(issued := Max(q.issued, r.value.after));
        IssuedQueueInv(l.store, l.next, q, Max(q.issued, r.value.after));
        SetSlot(i, Some(s.(queue := q')));
      }
      assert SlotReadStep(l, epoch, i, cursor, limit, maxBytes, r, Model());
    }

    /** Release a subscriber's references through a cursor it was issued. */
    method SubscriptionAcknowledge(id: nat, cursor: SubscriptionCursor) returns (r: Result<()>)
      requires Valid()
      modifies this`owner, this`records, this`bytes, this`sessionBytes, subscribers
      ensures Valid()
      ensures SubscriptionAckStep(old(Model()), epoch, id, cursor, r, Model())
    {
      hide Inv, Flagged, Accounted, Charged, QueueInv, InSlot, ReleaseSlot;
      var slot := Locate(id);
      if slot.None? { return Err(ObservationUnavailable); }
      var i := slot.value;
      ghost var l := Model();
      assert l.slots[i] == SlotOf(subscribers[i]);
      var q := subscribers[i].value.queue;
      if !CursorFits(epoch, q, id, cursor) {
        assert SlotAckStep(l, epoch, i, cursor, Err(RequestInvalid), l);
        return Err(RequestInvalid);
      }
      var removed: set<nat> := {};
      var k := 0;
      while k < |q.items| && q.items[k].id <= cursor.after
        modifies {}
        invariant k <= |q.items|
        invariant removed == ThroughDelivery(q.items[..k], cursor.after)
      {
        ThroughNext(q.items, k, cursor.after);
        removed := removed + {q.items[k].source};
        k := k + 1;
      }
      InvSlots(l);
      ThroughDeliveryPrefix(l.store, l.next, q, k, cursor.after);
      Release(removed, Some(i));
      assert SlotAckStep(l, epoch, i, cursor, Ok(()), Model());
      return Ok(());
    }

    /** Release all of a subscription's references and free its slot. */
    method CloseSubscription(id: nat)
      requires Valid()
      modifies this`owner, this`records, this`bytes, this`sessionBytes, subscribers
      ensures Valid()
      ensures CloseStep(old(Model()), id, Model())
    {
      hide Inv, Flagged, Accounted, Charged, QueueInv, InSlot, ReleaseSlot;
      var slot := Locate(id);
      if slot.None? { return; }
      var i := slot.value;
      ghost var l := Model();
      assert l.slots[i] == SlotOf(subscribers[i]);
      var items := subscribers[i].value.queue.items;
      var sources := set k | 0 <= k < |items| :: items[k].source;
      ClosedInv(l, i);
      Release(sources, Some(i));
      ghost var m := Model();
      assert m == ReleaseSlot(l, i, sources);
      assert m.slots[i] == SlotOf(subscribers[i]);
      EmptySlot(m.slots[i]);
      NoCharge(StoreOf(records));
      SetSlot(i, None);
      assert Model() == Closed(l, i);
    }
  }
}
