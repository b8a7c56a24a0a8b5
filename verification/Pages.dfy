/** Who may enroll and read, and how much one page holds, in the consumer's terms. */
module Pages {
  import opened Prelude
  import opened Sums
  import opened Events
  import opened Ledger
  import opened LedgerInvariant
  import opened RecorderState
  import opened Paging
  import opened Consumers
  import opened Evolution
  import opened Runs
  import opened Grants

  // ---- Enrolling -----------------------------------------------------------

  /** 1 to 64 distinct well-formed sessions, one view or both, one content class
      or both, and limits within the recorder's. */
  predicate Enrollable(l: Ledger, scope: Scope, limits: Limits) {
    && 1 <= |scope.sessions| <= 64 && (forall x :: x in scope.sessions ==> x >= 0)
    && (forall j, k :: 0 <= j < k < |scope.sessions| ==> scope.sessions[j] != scope.sessions[k])
    && (scope.views == [Agent] || scope.views == [Upstream] || scope.views == [Agent, Upstream] || scope.views == [Upstream, Agent])
    && (scope.classes == [Metadata] || scope.classes == [Content]
        || scope.classes == [Metadata, Content] || scope.classes == [Content, Metadata])
    && 1 <= limits.maxEvents <= l.maxEvents && 512 <= limits.maxBytes <= l.maxBytes
  }

  /** An enrollment succeeds exactly with such a scope and limits and a free slot;
      it takes the first free slot and nothing else. */
  lemma EnrollsExactly(epoch: Epoch, l: Ledger, s: Step, l': Ledger)
    requires Inv(l) && s.Enroll? && Taken(epoch, l, s, l')
    ensures s.enrollment.Ok? <==> Enrollable(l, s.scope, s.limits) && exists i :: 0 <= i < |l.slots| && !Live(l, i)
    ensures s.enrollment.Err? ==> l' == l && s.enrollment.error == if Enrollable(l, s.scope, s.limits) then LimitExceeded else RequestInvalid
    ensures s.enrollment.Ok? ==>
              exists i :: 0 <= i < |l.slots| && !Live(l, i) && (forall k :: 0 <= k < i ==> Live(l, k))
                && l' == l.(slots := l.slots[i := Some(Queue(s.enrolled, s.scope, s.limits, 1, 0, []))])
  {
    hide Inv, ValidScope, ValidLimits, Enrollable;
    ScopeMeans(l, s.scope, s.limits);
    if s.enrollment.Ok? {
      var i :| IsFree(l.slots, i) && l' == WithSlot(l, i, Some(Enrolled(s.enrolled, s.scope, s.limits)));
      assert !Live(l, i);
    }
    assert forall i: nat :: i < |l.slots| ==> (Live(l, i) <==> l.slots[i].Some?);
  }

  lemma ScopeMeans(l: Ledger, scope: Scope, limits: Limits)
    ensures Enrollable(l, scope, limits) <==> ValidScope(scope) && ValidLimits(l, limits)
  {
    forall k | 0 <= k < |scope.views| ensures scope.views[k] == Agent || scope.views[k] == Upstream {
      assert scope.views[k].Agent? || scope.views[k].Upstream?;
    }
    forall k | 0 <= k < |scope.classes| ensures scope.classes[k] == Metadata || scope.classes[k] == Content {
      assert scope.classes[k].Metadata? || scope.classes[k].Content?;
    }
    OneOrBoth(scope.views, Agent, Upstream);
    OneOrBoth(scope.classes, Metadata, Content);
    assert forall k :: 0 <= k < |scope.sessions| ==> scope.sessions[k] in scope.sessions;
  }

  lemma OneOrBoth<T>(s: seq<T>, a: T, b: T)
    requires a != b && forall k :: 0 <= k < |s| ==> s[k] == a || s[k] == b
    ensures 1 <= |s| <= 2 && (|s| == 2 ==> s[0] != s[1]) <==> s == [a] || s == [b] || s == [a, b] || s == [b, a]
  {
    if |s| == 1 { assert s == [s[0]]; }
    if |s| == 2 { assert s == [s[0], s[1]]; }
  }

  // ---- Who may read --------------------------------------------------------

  predicate InBounds(limit: nat, maxBytes: nat) {
    1 <= limit <= 1024 && 512 <= maxBytes <= 64 * 1024 * 1024 + 2048
  }

  /** A read is refused, and changes nothing, outside the page bounds, for an id
      that is not enrolled, and with a cursor of another epoch, of another
      subscription or beyond what was issued. */
  lemma ReadRefused(epoch: Epoch, l: Ledger, s: Step, l': Ledger)
    requires Inv(l) && s.Read? && Taken(epoch, l, s, l')
    ensures !InBounds(s.limit, s.maxBytes) ==> s.batch == Err(RequestInvalid) && l' == l
    ensures InBounds(s.limit, s.maxBytes) && (forall i: nat :: Live(l, i) ==> l.slots[i].value.id != s.reader)
            ==> s.batch == Err(ObservationUnavailable) && l' == l
    ensures forall i: nat :: InBounds(s.limit, s.maxBytes) && IsSlot(l.slots, s.reader, i) && s.cursor.Some?
                             && (s.cursor.value.epoch != epoch || s.cursor.value.subscription != s.reader
                                 || s.cursor.value.after > l.slots[i].value.issued)
                             ==> s.batch == Err(RequestInvalid) && l' == l
  {
    hide Inv, Reads;
    InvSlots(l);
    if i: nat :| IsSlot(l.slots, s.reader, i) {
      assert Live(l, i);
      forall k: nat | IsSlot(l.slots, s.reader, k) ensures k == i { SlotUnique(l.slots, s.reader, i, k); }
    }
  }

  /** An owner whose cursor is of another epoch starts over: it is told from the
      first id on, after a gap that says so. */
  lemma OwnerStartsOver(epoch: Epoch, l: Ledger, s: Step, l': Ledger)
    requires Inv(l) && s.OwnerRead? && Taken(epoch, l, s, l') && s.ownerBatch.Ok?
    requires s.ownerCursor.Some? && s.ownerCursor.value.epoch != epoch
    ensures s.ownerBatch.value.gap.Some? && s.ownerBatch.value.gap.value.first == 1 && s.ownerBatch.value.gap.value.previousEpoch
    ensures Reported(s.ownerBatch.value) == Range(1, s.ownerBatch.value.after + 1)
  {
    hide Inv, Range, Reported, IsPage, TooLarge;
    OwnerQueue(l);
    ReadReports(l.store, OwnerItems(l.owner), false, l.next, 0, true, s.ownerLimit, s.ownerBytes, s.ownerBatch);
  }

  /** Where an owner's read resumes: behind its cursor, or from the start without
      one of this epoch. */
  function Resumes(epoch: Epoch, cursor: Option<Cursor>): nat {
    if cursor.Some? && cursor.value.epoch == epoch then cursor.value.after else 0
  }

  /** An owner's read is refused outside the page bounds and behind an id that was
      not given out yet; otherwise it can only fail for a record that is too large. */
  lemma OwnerReadRefused(epoch: Epoch, l: Ledger, s: Step, l': Ledger)
    requires Inv(l) && s.OwnerRead? && Taken(epoch, l, s, l')
    ensures l' == l
    ensures if !InBounds(s.ownerLimit, s.ownerBytes) || Resumes(epoch, s.ownerCursor) >= l.next then s.ownerBatch == Err(RequestInvalid)
            else s.ownerBatch.Err? ==> s.ownerBatch.error == LimitExceeded
  {
    hide Inv, TooLarge, IsPage;
    OwnerQueue(l);
  }

  // ---- How much a page holds -----------------------------------------------

  function Power10(n: nat): nat {
    if n == 0 then 1 else 10 * Power10(n - 1)
  }

  /** An id is written with as many digits as it has. */
  lemma {:induction false} DigitsMeans(n: nat)
    ensures Digits(n) >= 1 && n < Power10(Digits(n)) && (n > 0 ==> Power10(Digits(n) - 1) <= n)
  {
    if n >= 10 { DigitsMeans(n / 10); }
  }

  /** The bytes that a page takes: 512, and for each event its encoding and a
      comma, which for a subscriber is wrapped with its delivery id. */
  function PageBytes(told: seq<Told>, wrapped: bool): nat {
    if told == [] then 512
    else
      var n := |told| - 1;
      PageBytes(told[..n], wrapped) + told[n].event.encoded + (if wrapped then 26 + Digits(told[n].id) else 0) + 1
  }

  lemma {:induction false} PageSizeIsBytes(store: map<nat, Entry>, items: seq<Delivery>, wrapped: bool, start: nat, told: seq<Told>)
    requires Stocked(store, items) && start + |told| <= |items|
    requires forall k :: 0 <= k < |told| ==> told[k] == Tell(store, items[start + k])
    ensures PageSize(Sizes(store, items, wrapped)[start..start + |told|]) == PageBytes(told, wrapped)
    decreases |told|
  {
    var sizes := Sizes(store, items, wrapped);
    if told != [] {
      var n := |told| - 1;
      PageSizeIsBytes(store, items, wrapped, start, told[..n]);
      assert sizes[start..start + n + 1][..n] == sizes[start..start + n];
      assert sizes[start..start + n + 1][n] == sizes[start + n];
    } else {
      assert sizes[start..start] == [];
    }
  }

  /** A page keeps both bounds, and ends only where the next id is not the next
      one stored or would break a bound. */
  lemma PageIsFull(store: map<nat, Entry>, items: seq<Delivery>, wrapped: bool, next: nat, after: nat, previous: bool,
                   limit: nat, maxBytes: nat, r: Result<Batch>)
    requires Stocked(store, items) && Ascending(Ids(items)) && limit >= 1 && maxBytes >= 512
    requires Reads(store, items, wrapped, next, after, previous, limit, maxBytes, r) && r.Ok?
    ensures |r.value.told| <= limit && PageBytes(r.value.told, wrapped) <= maxBytes
    ensures forall d :: d in items && d.id == r.value.after + 1 ==>
              |r.value.told| == limit || PageBytes(r.value.told + [Tell(store, d)], wrapped) > maxBytes
  {
    hide TooLarge, PageSize, Accounts, Render, PageBytes, Share, Admissible;
    var page :| PageFor(items, Sizes(store, items, wrapped), next, after, previous, limit, maxBytes, page)
                && r == Render(store, items, page);
    RenderedPage(store, items, page, r);
    PageBlock(items, Sizes(store, items, wrapped), next, after, previous, limit, maxBytes, page);
    var p, told := page.value, r.value.told;
    PageSizeIsBytes(store, items, wrapped, p.start, told);
    Bounded(Ids(items), Sizes(store, items, wrapped), p.start, p.end, limit, maxBytes);
    forall d | d in items && d.id == r.value.after + 1
      ensures |told| == limit || PageBytes(told + [Tell(store, d)], wrapped) > maxBytes
    {
      NextOne(store, items, wrapped, next, after, p, told, limit, maxBytes, d);
    }
  }

  /** A read fails exactly if the first event beyond its cursor does not fit a page
      alone. */
  lemma ReadFailsExactly(store: map<nat, Entry>, items: seq<Delivery>, wrapped: bool, next: nat, after: nat, previous: bool,
                         limit: nat, maxBytes: nat, r: Result<Batch>)
    requires Stocked(store, items) && Reads(store, items, wrapped, next, after, previous, limit, maxBytes, r)
    ensures r.Err? <==> exists k :: FirstTooLarge(store, items, wrapped, after, maxBytes, k)
    ensures r.Err? ==> r.error == LimitExceeded
  {
    hide Accounts, IsPage, Render, Share, PageBytes;
    var page :| PageFor(items, Sizes(store, items, wrapped), next, after, previous, limit, maxBytes, page)
                && r == Render(store, items, page);
    RenderedPage(store, items, page, r);
    RenderedError(store, items, page, r);
    forall k: nat ensures TooLarge(Ids(items), Sizes(store, items, wrapped), after, maxBytes, k)
                          <==> FirstTooLarge(store, items, wrapped, after, maxBytes, k)
    {
      SameTooLarge(store, items, wrapped, after, maxBytes, k);
    }
  }

  lemma SameTooLarge(store: map<nat, Entry>, items: seq<Delivery>, wrapped: bool, after: nat, maxBytes: nat, k: nat)
    requires Stocked(store, items)
    ensures TooLarge(Ids(items), Sizes(store, items, wrapped), after, maxBytes, k) <==> FirstTooLarge(store, items, wrapped, after, maxBytes, k)
  {
    hide Share, PageBytes;
    var ids := Ids(items);
    if k < |items| {
      AloneSize(store, items[k], wrapped);
      assert (forall j :: 0 <= j < k ==> ids[j] <= after) <==> forall j :: 0 <= j < k ==> items[j].id <= after by {
        assert forall j :: 0 <= j < |items| ==> ids[j] == items[j].id;
      }
    }
  }

  lemma RenderedError(store: map<nat, Entry>, items: seq<Delivery>, page: Result<Page>, r: Result<Batch>)
    requires Stocked(store, items) && (page.Ok? ==> page.value.start <= page.value.end <= |items|)
    requires r == Render(store, items, page)
    ensures page.Err? ==> r == Err(page.error)
  {
  }

  ghost predicate FirstTooLarge(store: map<nat, Entry>, items: seq<Delivery>, wrapped: bool, after: nat, maxBytes: nat, k: nat)
    requires Stocked(store, items)
  {
    && k < |items| && items[k].id > after && (forall j :: 0 <= j < k ==> items[j].id <= after)
    && PageBytes([Tell(store, items[k])], wrapped) > maxBytes
  }

  lemma AloneSize(store: map<nat, Entry>, d: Delivery, wrapped: bool)
    requires d.source in store
    ensures PageBytes([Tell(store, d)], wrapped) == PAGE_OVERHEAD + Share(store, d, wrapped) + 1
  {
    assert PageBytes([Tell(store, d)][..0], wrapped) == 512;
  }

  lemma Bounded(ids: seq<nat>, sizes: seq<nat>, start: nat, end: nat, limit: nat, maxBytes: nat)
    requires |sizes| == |ids| && maxBytes >= 512 && Admissible(ids, sizes, start, end, limit, maxBytes)
    ensures end - start <= limit && PageSize(sizes[start..end]) <= maxBytes
  {
    if end == start { assert sizes[start..end] == []; }
  }

  lemma BeyondEnd(ids: seq<nat>, start: nat, end: nat, j: nat)
    requires Ascending(ids) && start <= end < j < |ids| && forall k :: start <= k < end ==> ids[k] == ids[start] + (k - start)
    ensures ids[j] > ids[start] + (end - start)
  {
    assert ids[j] > ids[end];
    if start < end { assert ids[end] > ids[end - 1]; }
  }

  lemma NextOne(store: map<nat, Entry>, items: seq<Delivery>, wrapped: bool, next: nat, after: nat, p: Page, told: seq<Told>,
                limit: nat, maxBytes: nat, d: Delivery)
    requires Stocked(store, items) && Ascending(Ids(items)) && p.start <= p.end <= |items| && |told| == p.end - p.start
    requires forall k :: 0 <= k < |told| ==> told[k] == Tell(store, items[p.start + k])
    requires IsPage(Ids(items), Sizes(store, items, wrapped), after, p.start, p.end, limit, maxBytes)
    requires p.after == First(Ids(items), p.start, next) + (p.end - p.start) - 1 && after <= p.after
    requires d in items && d.id == p.after + 1
    ensures |told| == limit || PageBytes(told + [Tell(store, d)], wrapped) > maxBytes
  {
    hide PageSize, PageBytes, Share;
    var k :| 0 <= k < |items| && items[k] == d;
    var ids, sizes := Ids(items), Sizes(store, items, wrapped);
    assert ids[k] > after;
    assert k >= p.start;
    forall j | p.start <= j < p.end ensures ids[j] <= p.after { assert ids[j] == ids[p.start] + (j - p.start); }
    forall j | p.end < j < |ids| ensures ids[j] > p.after + 1 { BeyondEnd(ids, p.start, p.end, j); }
    assert k == p.end;
    PageSizeIsBytes(store, items, wrapped, p.start, told + [Tell(store, d)]);
    assert forall j :: p.start <= j < p.end + 1 ==> ids[j] == ids[p.start] + (j - p.start);
  }
}
