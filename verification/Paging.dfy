/** Cursor pages over a queue of increasing ids: what one read reports. */
module Paging {
  import opened Prelude

  const PAGE_OVERHEAD: nat := 512
  const MAX_PAGE: nat := 64 * 1024 * 1024 + 2048

  datatype Gap = Gap(first: nat, last: nat, previousEpoch: bool)

  /** A page of `ids[start..end]`, the gap before it, and where to resume. */
  datatype Page = Page(gap: Option<Gap>, start: nat, end: nat, after: nat)

  predicate PageBounds(limit: nat, maxBytes: nat) {
    1 <= limit <= 1024 && PAGE_OVERHEAD <= maxBytes <= MAX_PAGE
  }

  ghost predicate Ascending(ids: seq<nat>) {
    forall i, j :: 0 <= i < j < |ids| ==> ids[i] < ids[j]
  }

  /** The first id a read reports as present; `next` when nothing is. */
  function First(ids: seq<nat>, start: nat, next: nat): nat
    requires start <= |ids|
  {
    if start < |ids| then ids[start] else next
  }

  /** What is reported missing between the cursor and the first present id. */
  function GapBefore(first: nat, after: nat, previousEpoch: bool): Option<Gap>
    requires first > after
  {
    if previousEpoch || first > after + 1 then Some(Gap(after + 1, first - 1, previousEpoch)) else None
  }

  /** The encoded size of a page that holds `sizes`. */
  function PageSize(sizes: seq<nat>): nat {
    if sizes == [] then PAGE_OVERHEAD else PageSize(sizes[..|sizes| - 1]) + sizes[|sizes| - 1] + 1
  }

  /** The block [start, end) has consecutive ids and meets the page's limits. */
  ghost predicate Admissible(ids: seq<nat>, sizes: seq<nat>, start: nat, end: nat, limit: nat, maxBytes: nat)
    requires |sizes| == |ids|
  {
    && start <= end <= |ids|
    && (forall k :: start <= k < end ==> ids[k] == ids[start] + (k - start))
    && end - start <= limit
    && (end > start ==> PageSize(sizes[start..end]) <= maxBytes)
  }

  /** The longest admissible block of ids beyond `after`. */
  ghost predicate IsPage(ids: seq<nat>, sizes: seq<nat>, after: nat, start: nat, end: nat, limit: nat, maxBytes: nat)
    requires |sizes| == |ids|
  {
    && Admissible(ids, sizes, start, end, limit, maxBytes)
    && (forall k :: 0 <= k < |ids| ==> (ids[k] <= after <==> k < start))
    && !Admissible(ids, sizes, start, end + 1, limit, maxBytes)
  }

  /** Every id in (after, resume] is reported exactly once: the gap comes first,
      then the page, and nothing that is present is called missing. */
  ghost predicate Accounts(ids: seq<nat>, next: nat, after: nat, previousEpoch: bool, p: Page) {
    && p.start <= p.end <= |ids|
    && after <= p.after < next
    && (p.gap.Some? ==> p.gap.value.first == after + 1 && p.gap.value.previousEpoch == previousEpoch)
    && (p.gap.None? ==> !previousEpoch)
    && (forall id :: after < id <= p.after ==>
          (id in ids[p.start..p.end] <==> !(p.gap.Some? && p.gap.value.first <= id <= p.gap.value.last)))
    && (forall id :: id in ids && after < id <= p.after ==> id in ids[p.start..p.end])
    && (forall id :: id in ids[p.start..p.end] ==> after < id <= p.after)
  }

  /** The first id beyond `after` does not fit a page even alone. */
  ghost predicate TooLarge(ids: seq<nat>, sizes: seq<nat>, after: nat, maxBytes: nat, k: nat)
    requires |sizes| == |ids|
  {
    && k < |ids|
    && ids[k] > after
    && (forall j :: 0 <= j < k ==> ids[j] <= after)
    && PAGE_OVERHEAD + sizes[k] + 1 > maxBytes
  }

  /** One read: the longest page beyond the cursor, or `LimitExceeded` when the
      first record alone is too large. */
  method Take(ids: seq<nat>, sizes: seq<nat>, next: nat, after: nat, previousEpoch: bool, limit: nat, maxBytes: nat)
    returns (page: Result<Page>)
    requires |sizes| == |ids| && limit > 0 && Ascending(ids)
    requires after < next && forall k :: 0 <= k < |ids| ==> 1 <= ids[k] < next
    ensures page.Ok? ==> IsPage(ids, sizes, after, page.value.start, page.value.end, limit, maxBytes)
    ensures page.Ok? ==> Accounts(ids, next, after, previousEpoch, page.value)
    ensures page.Ok? ==> First(ids, page.value.start, next) > after
                         && page.value.gap == GapBefore(First(ids, page.value.start, next), after, previousEpoch)
    ensures page.Ok? ==> page.value.after == First(ids, page.value.start, next) + (page.value.end - page.value.start) - 1
    ensures page.Err? ==> page.error == LimitExceeded
    ensures page.Err? <==> exists k :: TooLarge(ids, sizes, after, maxBytes, k)
  {
    var start := 0;
    while start < |ids| && ids[start] <= after
      invariant start <= |ids|
      invariant forall k :: 0 <= k < start ==> ids[k] <= after
    {
      start := start + 1;
    }
    var first := First(ids, start, next);
    var gap := GapBefore(first, after, previousEpoch);
    var end, bytes, position := start, PAGE_OVERHEAD, first;
    assert sizes[start..start] == [];
    while end < |ids| && ids[end] == position && end - start < limit && bytes + sizes[end] + 1 <= maxBytes
      invariant start <= end <= |ids| && position == first + (end - start)
      invariant Admissible(ids, sizes, start, end, limit, maxBytes)
      invariant bytes == PageSize(sizes[start..end])
    {
      assert sizes[start..end + 1][..end - start] == sizes[start..end];
      bytes, end, position := bytes + sizes[end] + 1, end + 1, position + 1;
    }
    StartTooLarge(ids, sizes, after, maxBytes, start);
    if start < |ids| && end == start { return Err(LimitExceeded); }
    if end < |ids| { assert sizes[start..end + 1][..end - start] == sizes[start..end]; }
    page := Ok(Page(gap, start, end, position - 1));
    if start < |ids| { PageSizeStart(sizes, start, end); }
    hide Admissible, PageSize, TooLarge;
    AccountedFor(ids, next, after, previousEpoch, start, end);
  }

  lemma StartTooLarge(ids: seq<nat>, sizes: seq<nat>, after: nat, maxBytes: nat, start: nat)
    requires |sizes| == |ids| && start <= |ids|
    requires forall k :: 0 <= k < start ==> ids[k] <= after
    requires start < |ids| ==> ids[start] > after
    ensures (exists k :: TooLarge(ids, sizes, after, maxBytes, k))
            <==> start < |ids| && PAGE_OVERHEAD + sizes[start] + 1 > maxBytes
  {
    if start < |ids| && PAGE_OVERHEAD + sizes[start] + 1 > maxBytes {
      assert TooLarge(ids, sizes, after, maxBytes, start);
    }
    forall k | TooLarge(ids, sizes, after, maxBytes, k) ensures k == start {}
  }

  lemma PageSizeOne(sizes: seq<nat>, start: nat)
    requires start < |sizes|
    ensures PageSize(sizes[start..start + 1]) == PAGE_OVERHEAD + sizes[start] + 1
  {
    assert sizes[start..start + 1][..0] == [];
  }

  lemma PageSizeStart(sizes: seq<nat>, start: nat, end: nat)
    requires start < end <= |sizes|
    ensures PAGE_OVERHEAD + sizes[start] + 1 <= PageSize(sizes[start..end])
  {
    PageSizeOne(sizes, start);
    PageSizeMonotone(sizes[start..end], 1);
    assert sizes[start..end][..1] == sizes[start..start + 1];
  }

  /** The gap and the delivered ids are together the ids from one cursor to the next. */
  lemma AccountedFor(ids: seq<nat>, next: nat, after: nat, previousEpoch: bool, start: nat, end: nat)
    requires Ascending(ids) && start <= end <= |ids| && (start < |ids| ==> start < end)
    requires after < next && forall k :: 0 <= k < |ids| ==> 1 <= ids[k] < next
    requires forall k :: 0 <= k < |ids| ==> (ids[k] <= after <==> k < start)
    requires forall k :: start <= k < end ==> ids[k] == ids[start] + (k - start)
    ensures var first := First(ids, start, next);
            && first > after
            && Accounts(ids, next, after, previousEpoch, Page(GapBefore(first, after, previousEpoch), start, end, first + (end - start) - 1))
  {
    var first := First(ids, start, next);
    var block := ids[start..end];
    if start < |ids| { assert ids[start] > after; }
    forall id | first <= id < first + (end - start) ensures id in block {
      assert block[id - first] == ids[start + (id - first)];
    }
    forall id | id in block ensures first <= id < first + (end - start) {
      var k :| 0 <= k < |block| && block[k] == id;
      assert block[k] == ids[start + k];
    }
    forall id | id in ids && after < id < first + (end - start) ensures id in block {
      var k :| 0 <= k < |ids| && ids[k] == id;
      assert start <= k;
      if k > start { assert ids[start] < ids[k]; }
    }
    if start < end { assert ids[end - 1] == first + (end - start) - 1; }
    var gap := GapBefore(first, after, previousEpoch);
    forall id: nat | after < id < first + (end - start)
      ensures id in block <==> !(gap.Some? && gap.value.first <= id <= gap.value.last)
    {
      assert id in block <==> first <= id;
    }
  }

  /** Pages are unique, so a read depends only on the queue and its arguments. */
  lemma PageUnique(ids: seq<nat>, sizes: seq<nat>, after: nat, limit: nat, maxBytes: nat, s: nat, a: nat, t: nat, b: nat)
    requires |sizes| == |ids|
    requires IsPage(ids, sizes, after, s, a, limit, maxBytes) && IsPage(ids, sizes, after, t, b, limit, maxBytes)
    ensures s == t && a == b
  {
    assert s < |ids| ==> ids[s] > after;
    assert t < |ids| ==> ids[t] > after;
    if a < b { Shorter(ids, sizes, s, a + 1, b, limit, maxBytes); }
    if b < a { Shorter(ids, sizes, s, b + 1, a, limit, maxBytes); }
  }

  lemma Shorter(ids: seq<nat>, sizes: seq<nat>, start: nat, m: nat, n: nat, limit: nat, maxBytes: nat)
    requires |sizes| == |ids| && start <= m <= n
    requires Admissible(ids, sizes, start, n, limit, maxBytes)
    ensures Admissible(ids, sizes, start, m, limit, maxBytes)
  {
    PageSizeMonotone(sizes[start..n], m - start);
    assert sizes[start..n][..m - start] == sizes[start..m];
  }

  lemma {:induction false} PageSizeMonotone(sizes: seq<nat>, k: nat)
    requires k <= |sizes|
    ensures PageSize(sizes[..k]) <= PageSize(sizes)
    decreases |sizes|
  {
    var n := |sizes|;
    if k < n {
      assert sizes[..n - 1][..k] == sizes[..k];
      PageSizeMonotone(sizes[..n - 1], k);
    } else {
      assert sizes[..k] == sizes;
    }
  }
}
