/** Login attempts: a sliding window kept by pruning, per session and overall. */
module Attempts {
  import opened Prelude

  const AGE: int := 600
  const PER_SESSION: nat := 5
  const OVERALL: nat := 20

  type SessionId = nat
  type ItemId = nat

  datatype Key = Key(session: SessionId, item: ItemId)

  /** Elapsed time saturates at zero when the clock reading is older. */
  predicate Recent(now: int, previous: int) {
    Max(0, now - previous) < AGE
  }

  function Retained(now: int, times: seq<int>): seq<int> {
    Filter((t: int) => Recent(now, t), times)
  }

  function At<K>(m: map<K, seq<int>>, k: K): seq<int> {
    if k in m then m[k] else []
  }

  /** The two tables of admitted times. */
  datatype Tables = Tables(local: map<Key, seq<int>>, overall: map<ItemId, seq<int>>)

  /** One attempt: both lists are pruned, then both grow or neither does. */
  function Attempt(s: Tables, k: Key, now: int): (Tables, bool) {
    var local, overall := Retained(now, At(s.local, k)), Retained(now, At(s.overall, k.item));
    if |local| >= PER_SESSION || |overall| >= OVERALL then
      (Tables(s.local[k := local], s.overall[k.item := overall]), false)
    else
      (Tables(s.local[k := local + [now]], s.overall[k.item := overall + [now]]), true)
  }

  class Limiter {
    var local: map<Key, seq<int>>
    var overall: map<ItemId, seq<int>>

    function Model(): Tables
      reads this
    {
      Tables(local, overall)
    }

    constructor ()
      ensures Model() == Tables(map[], map[])
    {
      local, overall := map[], map[];
    }

    /** Keep the recent entries of a list. */
    static method Retain(now: int, times: seq<int>) returns (kept: seq<int>)
      ensures kept == Retained(now, times)
    {
      kept := [];
      for i := 0 to |times|
        invariant kept == Retained(now, times[..i])
      {
        assert times[..i + 1] == times[..i] + [times[i]];
        FilterAppend((t: int) => Recent(now, t), times[..i], [times[i]]);
        FilterOne((t: int) => Recent(now, t), times[i]);
        if Recent(now, times[i]) { kept := kept + [times[i]]; }
      }
      assert times[..|times|] == times;
    }

    /** Admit or refuse one attempt on an item. */
    method LoginAttempt(session: SessionId, item: ItemId, now: int) returns (r: Result<()>)
      modifies this
      ensures Model() == Attempt(old(Model()), Key(session, item), now).0
      ensures r == if Attempt(old(Model()), Key(session, item), now).1 then Ok(()) else Err(LimitExceeded)
    {
      hide Retained;
      var k := Key(session, item);
      var mine := Retain(now, if k in local then local[k] else []);
      local := local[k := mine];
      var all := Retain(now, if item in overall then overall[item] else []);
      overall := overall[item := all];
      if |mine| >= PER_SESSION || |all| >= OVERALL { return Err(LimitExceeded); }
      local := local[k := mine + [now]];
      overall := overall[item := all + [now]];
      return Ok(());
    }
  }

  // ---- Whole runs ----------------------------------------------------------

  datatype Call = Call(key: Key, now: int)

  /** The tables after `calls`, from empty ones. */
  function After(calls: seq<Call>): Tables {
    if calls == [] then Tables(map[], map[])
    else Attempt(After(calls[..|calls| - 1]), calls[|calls| - 1].key, calls[|calls| - 1].now).0
  }

  predicate Admitted(calls: seq<Call>, i: nat)
    requires i < |calls|
  {
    Attempt(After(calls[..i]), calls[i].key, calls[i].now).1
  }

  /** The times of the admitted calls with one key, in order. */
  function LocalHistory(calls: seq<Call>, k: Key): seq<int> {
    if calls == [] then []
    else
      var n := |calls| - 1;
      assert calls[..n + 1] == calls;
      LocalHistory(calls[..n], k) + (if calls[n].key == k && Admitted(calls, n) then [calls[n].now] else [])
  }

  function ItemHistory(calls: seq<Call>, item: ItemId): seq<int> {
    if calls == [] then []
    else
      var n := |calls| - 1;
      assert calls[..n + 1] == calls;
      ItemHistory(calls[..n], item) + (if calls[n].key.item == item && Admitted(calls, n) then [calls[n].now] else [])
  }

  /** Clock readings do not go back in the order in which calls take the lock. */
  predicate Monotone(calls: seq<Call>) {
    forall i, j :: 0 <= i < j < |calls| ==> calls[i].now <= calls[j].now
  }

  predicate InWindow(start: int, t: int) {
    start <= t < start + AGE
  }

  function Within(start: int, times: seq<int>): nat {
    |Filter((t: int) => InWindow(start, t), times)|
  }

  // ---- Counting ------------------------------------------------------------

  lemma {:induction false} FilterFewer(p: int -> bool, q: int -> bool, xs: seq<int>)
    requires forall x :: x in xs && p(x) ==> q(x)
    ensures |Filter(p, xs)| <= |Filter(q, xs)|
  {
    if xs != [] {
      var x := xs[0];
      assert x in xs && (p(x) ==> q(x));
      assert forall x :: x in xs[1..] ==> x in xs;
      FilterFewer(p, q, xs[1..]);
    }
  }

  lemma {:induction false} FilterTwice(p: int -> bool, q: int -> bool, xs: seq<int>)
    requires forall x :: x in xs && p(x) ==> q(x)
    ensures Filter(p, Filter(q, xs)) == Filter(p, xs)
  {
    if xs != [] {
      var x := xs[0];
      assert x in xs && (p(x) ==> q(x));
      assert forall x :: x in xs[1..] ==> x in xs;
      FilterTwice(p, q, xs[1..]);
      if q(xs[0]) {
        assert Filter(q, xs) == [xs[0]] + Filter(q, xs[1..]);
        FilterAppend(p, [xs[0]], Filter(q, xs[1..]));
        FilterOne(p, xs[0]);
      }
    }
  }

  /** What a list must keep: everything recent in its key's admitted history. */
  predicate Keeps(list: seq<int>, history: seq<int>, last: int) {
    && Retained(last, list) == Retained(last, history)
    && forall t :: t in history ==> t <= last
  }

  lemma KeepsLater(list: seq<int>, history: seq<int>, last: int, now: int)
    requires Keeps(list, history, last) && last <= now
    ensures Retained(now, list) == Retained(now, history)
    ensures Keeps(list, history, now)
  {
    var p, q := (t: int) => Recent(now, t), (t: int) => Recent(last, t);
    FilterTwice(p, q, list);
    FilterTwice(p, q, history);
  }

  /** Pruning, and then perhaps adding the new time, keeps what it must. */
  lemma KeepsNext(list: seq<int>, history: seq<int>, last: int, now: int, added: bool)
    requires Keeps(list, history, last) && last <= now
    ensures Keeps(Retained(now, list) + (if added then [now] else []), history + (if added then [now] else []), now)
  {
    KeepsLater(list, history, last, now);
    var p := (t: int) => Recent(now, t);
    var more := if added then [now] else [];
    FilterTwice(p, p, list);
    FilterAppend(p, Retained(now, list), more);
    FilterAppend(p, history, more);
  }

  /** A window that holds the new time holds nothing that was pruned. */
  lemma WindowFits(history: seq<int>, list: seq<int>, last: int, now: int, start: int, limit: nat)
    requires Keeps(list, history, last) && last <= now
    requires Within(start, history) <= limit && (|Retained(now, list)| < limit)
    ensures Within(start, history + [now]) <= limit
  {
    var p := (t: int) => InWindow(start, t);
    KeepsLater(list, history, last, now);
    FilterAppend(p, history, [now]);
    FilterOne(p, now);
    if InWindow(start, now) { FilterFewer(p, (t: int) => Recent(now, t), history); }
  }

  // ---- The limits hold -----------------------------------------------------

  function Last(calls: seq<Call>): int {
    if calls == [] then 0 else calls[|calls| - 1].now
  }

  ghost predicate TablesKeep(calls: seq<Call>, last: int) {
    && (forall k :: Keeps(At(After(calls).local, k), LocalHistory(calls, k), last))
    && (forall item :: Keeps(At(After(calls).overall, item), ItemHistory(calls, item), last))
  }

  /** In every run, each list keeps everything recent of its admitted history. */
  lemma {:induction false} ListsKeepHistory(calls: seq<Call>, last: int)
    requires Monotone(calls) && (calls != [] ==> Last(calls) <= last)
    ensures TablesKeep(calls, last)
  {
    hide Keeps, Retained;
    if calls == [] {
      forall k ensures Keeps(At(After(calls).local, k), LocalHistory(calls, k), last) { KeepsNone(last); }
      forall item ensures Keeps(At(After(calls).overall, item), ItemHistory(calls, item), last) { KeepsNone(last); }
    } else {
      var n := |calls| - 1;
      var c := calls[n];
      assert calls[..n + 1] == calls;
      ListsKeepHistory(calls[..n], c.now);
      forall k ensures Keeps(At(After(calls).local, k), LocalHistory(calls, k), last) {
        assert Keeps(At(After(calls[..n]).local, k), LocalHistory(calls[..n], k), c.now);
        LocalStep(calls, k);
        KeepsUntil(At(After(calls).local, k), LocalHistory(calls, k), c.now, last);
      }
      forall item ensures Keeps(At(After(calls).overall, item), ItemHistory(calls, item), last) {
        assert Keeps(At(After(calls[..n]).overall, item), ItemHistory(calls[..n], item), c.now);
        ItemStep(calls, item);
        KeepsUntil(At(After(calls).overall, item), ItemHistory(calls, item), c.now, last);
      }
    }
  }

  lemma KeepsNone(last: int)
    ensures Keeps([], [], last)
  {
  }

  lemma KeepsUntil(list: seq<int>, history: seq<int>, last: int, now: int)
    requires Keeps(list, history, last) && last <= now
    ensures Keeps(list, history, now)
  {
    KeepsLater(list, history, last, now);
  }

  lemma LocalStep(calls: seq<Call>, k: Key)
    requires calls != []
    requires var n := |calls| - 1; Keeps(At(After(calls[..n]).local, k), LocalHistory(calls[..n], k), calls[n].now)
    ensures Keeps(At(After(calls).local, k), LocalHistory(calls, k), calls[|calls| - 1].now)
  {
    hide Keeps, Retained;
    var n := |calls| - 1;
    assert calls[..n + 1] == calls;
    var list, history := At(After(calls[..n]).local, k), LocalHistory(calls[..n], k);
    var added := calls[n].key == k && Admitted(calls, n);
    if calls[n].key == k {
      KeepsNext(list, history, calls[n].now, calls[n].now, added);
      assert Retained(calls[n].now, list) + [] == Retained(calls[n].now, list);
    } else {
      assert history + [] == history;
    }
  }

  lemma ItemStep(calls: seq<Call>, item: ItemId)
    requires calls != []
    requires var n := |calls| - 1; Keeps(At(After(calls[..n]).overall, item), ItemHistory(calls[..n], item), calls[n].now)
    ensures Keeps(At(After(calls).overall, item), ItemHistory(calls, item), calls[|calls| - 1].now)
  {
    hide Keeps, Retained;
    var n := |calls| - 1;
    assert calls[..n + 1] == calls;
    var list, history := At(After(calls[..n]).overall, item), ItemHistory(calls[..n], item);
    var added := calls[n].key.item == item && Admitted(calls, n);
    if calls[n].key.item == item {
      KeepsNext(list, history, calls[n].now, calls[n].now, added);
      assert Retained(calls[n].now, list) + [] == Retained(calls[n].now, list);
    } else {
      assert history + [] == history;
    }
  }

  /** Despite pruning, every 600-second window, wherever it starts, holds at most
      five admitted attempts of one session on one item, and at most twenty
      admitted attempts on the item in all sessions together. */
  lemma {:induction false} SlidingWindow(calls: seq<Call>, k: Key, start: int)
    requires Monotone(calls)
    ensures Within(start, LocalHistory(calls, k)) <= PER_SESSION
    ensures Within(start, ItemHistory(calls, k.item)) <= OVERALL
    decreases |calls|
  {
    hide Keeps, Retained, Within;
    if calls == [] {
      NoneWithin(start);
    } else {
      var n := |calls| - 1;
      var c := calls[n];
      assert calls[..n + 1] == calls;
      SlidingWindow(calls[..n], k, start);
      ListsKeepHistory(calls[..n], c.now);
      if Admitted(calls, n) {
        var before := After(calls[..n]);
        if c.key == k { WindowFits(LocalHistory(calls[..n], k), At(before.local, k), c.now, c.now, start, PER_SESSION); }
        if c.key.item == k.item { WindowFits(ItemHistory(calls[..n], k.item), At(before.overall, k.item), c.now, c.now, start, OVERALL); }
      }
      assert LocalHistory(calls[..n], k) + [] == LocalHistory(calls[..n], k);
      assert ItemHistory(calls[..n], k.item) + [] == ItemHistory(calls[..n], k.item);
    }
  }

  lemma NoneWithin(start: int)
    ensures Within(start, []) == 0
  {
  }

  // ---- Exactly which attempts are refused ----------------------------------

  /** The earlier admitted attempts, less than ten minutes old, on the item of call
      `i`: those of its session, or of all. */
  ghost function Counted(calls: seq<Call>, i: nat, n: nat, mine: bool): set<nat>
    requires n <= i < |calls|
  {
    set j | 0 <= j < n && Admitted(calls, j) && calls[i].now - calls[j].now < 600
            && calls[j].key.item == calls[i].key.item && (mine ==> calls[j].key.session == calls[i].key.session)
  }

  lemma AdmittedPrefix(calls: seq<Call>, n: nat, j: nat)
    requires j < n <= |calls|
    ensures Admitted(calls[..n], j) == Admitted(calls, j)
  {
    assert calls[..n][..j] == calls[..j];
  }

  lemma {:induction false} RecentIsCounted(calls: seq<Call>, i: nat, n: nat)
    requires Monotone(calls) && n <= i < |calls|
    ensures |Retained(calls[i].now, LocalHistory(calls[..n], calls[i].key))| == |Counted(calls, i, n, true)|
    ensures |Retained(calls[i].now, ItemHistory(calls[..n], calls[i].key.item))| == |Counted(calls, i, n, false)|
  {
    if n == 0 {
      assert Counted(calls, i, 0, true) == {} && Counted(calls, i, 0, false) == {};
    } else {
      var c, front, now := calls[n - 1], calls[..n - 1], calls[i].now;
      assert calls[..n][..n - 1] == front;
      RecentIsCounted(calls, i, n - 1);
      AdmittedPrefix(calls, n, n - 1);
      var p := (t: int) => Recent(now, t);
      var one := [c.now];
      FilterOne(p, c.now);
      FilterAppend(p, LocalHistory(front, calls[i].key), one);
      FilterAppend(p, ItemHistory(front, calls[i].key.item), one);
      assert LocalHistory(front, calls[i].key) + [] == LocalHistory(front, calls[i].key);
      assert ItemHistory(front, calls[i].key.item) + [] == ItemHistory(front, calls[i].key.item);
      CountedNext(calls, i, n, true);
      CountedNext(calls, i, n, false);
    }
  }

  lemma CountedNext(calls: seq<Call>, i: nat, n: nat, mine: bool)
    requires Monotone(calls) && 0 < n <= i < |calls|
    ensures var c := calls[n - 1];
            |Counted(calls, i, n, mine)|
            == |Counted(calls, i, n - 1, mine)|
               + (if Admitted(calls, n - 1) && Recent(calls[i].now, c.now) && c.key.item == calls[i].key.item
                     && (mine ==> c.key == calls[i].key) then 1 else 0)
  {
    hide Counted, Admitted, Monotone;
    CountedLast(calls, i, n, mine);
    OneMore(Counted(calls, i, n, mine), Counted(calls, i, n - 1, mine), n - 1);
  }

  lemma OneMore(all: set<nat>, front: set<nat>, x: nat)
    requires forall j :: j in front <==> j in all && j != x
    ensures |all| == |front| + (if x in all then 1 else 0)
  {
    assert all == if x in all then front + {x} else front;
  }

  lemma CountedLast(calls: seq<Call>, i: nat, n: nat, mine: bool)
    requires Monotone(calls) && 0 < n <= i < |calls|
    ensures var c := calls[n - 1];
            n - 1 in Counted(calls, i, n, mine) <==>
              Admitted(calls, n - 1) && Recent(calls[i].now, c.now) && c.key.item == calls[i].key.item && (mine ==> c.key == calls[i].key)
    ensures forall j: nat :: j in Counted(calls, i, n - 1, mine) <==> j in Counted(calls, i, n, mine) && j != n - 1
  {
    hide Admitted;
    assert calls[i].now >= calls[n - 1].now;
  }

  /** While the clock does not go back, an attempt is admitted exactly if fewer than
      five of its session and fewer than twenty in all were admitted on its item in
      the ten minutes before it. */
  lemma AdmittedExactly(calls: seq<Call>, i: nat)
    requires Monotone(calls) && i < |calls|
    ensures Admitted(calls, i) <==> |Counted(calls, i, i, true)| < 5 && |Counted(calls, i, i, false)| < 20
  {
    hide Retained, Counted, Keeps;
    var front, c := calls[..i], calls[i];
    assert Monotone(front) && (front != [] ==> Last(front) <= c.now);
    ListsKeepHistory(front, c.now);
    KeptRecent(At(After(front).local, c.key), LocalHistory(front, c.key), c.now);
    KeptRecent(At(After(front).overall, c.key.item), ItemHistory(front, c.key.item), c.now);
    RecentIsCounted(calls, i, i);
  }

  lemma KeptRecent(list: seq<int>, history: seq<int>, now: int)
    requires Keeps(list, history, now)
    ensures Retained(now, list) == Retained(now, history)
  {
  }

  // ---- Exactly when the limits hold ----------------------------------------

  /** Each reading is one that `may` follow the reading of the call before. */
  predicate Follows(calls: seq<Call>, may: (int, int) -> bool) {
    forall i :: 0 < i < |calls| ==> may(calls[i - 1].now, calls[i].now)
  }

  /** Each session's limit on each item, in every window of the run, */
  ghost predicate SessionLimit(calls: seq<Call>) {
    forall k: Key, start: int :: Within(start, LocalHistory(calls, k)) <= PER_SESSION
  }

  /** and the limit on each item over all sessions. */
  ghost predicate ItemLimit(calls: seq<Call>) {
    forall item: ItemId, start: int :: Within(start, ItemHistory(calls, item)) <= OVERALL
  }

  /** Of the rules that let a clock go forward, exactly those that never let it
      step back keep either limit in all their runs: what a caller has to check
      is that a reading is not older than the last one. */
  lemma LimitsExactly(may: (int, int) -> bool)
    requires forall x, y :: x <= y ==> may(x, y)
    ensures (forall calls: seq<Call> :: Follows(calls, may) ==> SessionLimit(calls)) <==> (forall x, y :: may(x, y) ==> x <= y)
    ensures (forall calls: seq<Call> :: Follows(calls, may) ==> ItemLimit(calls)) <==> (forall x, y :: may(x, y) ==> x <= y)
  {
    hide LocalHistory, ItemHistory, Within, Follows;
    if forall x, y :: may(x, y) ==> x <= y {
      forall calls: seq<Call> | Follows(calls, may) ensures SessionLimit(calls) && ItemLimit(calls) { ForwardLimited(calls, may); }
    } else {
      var a, b :| may(a, b) && b < a;
      var k := Key(0, 0);
      StaleFollows([k], k, a, b, may);
      StaleClockExceedsLimit(k, a, b);
      assert !SessionLimit(Stale([k], k, a, b));
      var keys := [Key(1, 0), Key(2, 0), Key(3, 0), Key(4, 0)];
      StaleFollows(keys, k, a, b, may);
      StaleClockExceedsOverall(keys, k, a, b);
      assert !ItemLimit(Stale(keys, k, a, b));
    }
  }

  lemma ForwardLimited(calls: seq<Call>, may: (int, int) -> bool)
    requires Follows(calls, may) && forall x, y :: may(x, y) ==> x <= y
    ensures SessionLimit(calls) && ItemLimit(calls)
  {
    forall i, j | 0 <= i < j < |calls| ensures calls[i].now <= calls[j].now { Forward(calls, may, i, j); }
    hide LocalHistory, ItemHistory, Within;
    assert Monotone(calls);
    forall k: Key, start: int
      ensures Within(start, LocalHistory(calls, k)) <= PER_SESSION
    {
      SlidingWindow(calls, k, start);
    }
    forall item: ItemId, start: int ensures Within(start, ItemHistory(calls, item)) <= OVERALL {
      SlidingWindow(calls, Key(0, item), start);
    }
  }

  lemma {:induction false} Forward(calls: seq<Call>, may: (int, int) -> bool, i: nat, j: nat)
    requires Follows(calls, may) && i <= j < |calls| && forall x, y :: may(x, y) ==> x <= y
    ensures calls[i].now <= calls[j].now
    decreases j
  {
    if i < j { Forward(calls, may, i, j - 1); }
  }

  /** Five attempts at each of some keys, 599 seconds before `b`; one at `a`, and
      then one whose clock reads `b`. */
  function Stale(keys: seq<Key>, k: Key, a: int, b: int): seq<Call> {
    Bursts(keys, b - 599) + [Call(k, a), Call(k, b)]
  }

  function Bursts(keys: seq<Key>, t: int): (calls: seq<Call>)
    ensures |calls| == 5 * |keys| && forall i :: 0 <= i < |calls| ==> calls[i].now == t
  {
    if keys == [] then []
    else
      var c := Call(keys[|keys| - 1], t);
      Bursts(keys[..|keys| - 1], t) + [c, c, c, c, c]
  }

  lemma StaleFollows(keys: seq<Key>, k: Key, a: int, b: int, may: (int, int) -> bool)
    requires b < a && may(a, b) && forall x, y :: x <= y ==> may(x, y)
    ensures Follows(Stale(keys, k, a, b), may)
  {
  }

  /** The smallest step back of the clock, at any moment and for any key, lets a
      sixth attempt of one session into one window, */
  lemma StaleClockExceedsLimit(k: Key, a: int, b: int)
    requires b < a
    ensures Within(b - 599, LocalHistory(Stale([k], k, a, b), k)) == PER_SESSION + 1
  {
    hide Bursts, After, LocalHistory, ItemHistory, Stale;
    BurstsAdmitted([k], k, b - 599);
    StaleAdmitted([k], k, a, b, 5, 5);
    StaleWindow(PER_SESSION, a, b);
  }

  /** and a twenty-first attempt on one item into another, after which sessions
      still under their own limit have used the item up. */
  lemma StaleClockExceedsOverall(keys: seq<Key>, k: Key, a: int, b: int)
    requires b < a && |keys| == 4 && DistinctKeys(keys) && k !in keys && forall x :: x in keys ==> x.item == k.item
    ensures Within(b - 599, ItemHistory(Stale(keys, k, a, b), k.item)) == OVERALL + 1
  {
    hide Bursts, After, LocalHistory, ItemHistory, Stale;
    BurstsAdmitted(keys, k, b - 599);
    StaleAdmitted(keys, k, a, b, 0, 20);
    StaleWindow(OVERALL, a, b);
  }

  predicate DistinctKeys(keys: seq<Key>) {
    forall i, j :: 0 <= i < j < |keys| ==> keys[i] != keys[j]
  }

  function Times(t: int, n: nat): seq<int> {
    seq(n, _ => t)
  }

  /** What a run of bursts leaves behind for key `k`. */
  ghost predicate Burnt(calls: seq<Call>, k: Key, t: int, mine: nat, all: nat) {
    && At(After(calls).local, k) == Times(t, mine) && At(After(calls).overall, k.item) == Times(t, all)
    && LocalHistory(calls, k) == Times(t, mine) && ItemHistory(calls, k.item) == Times(t, all)
  }

  lemma RetainAll(now: int, times: seq<int>)
    requires forall t :: t in times ==> Recent(now, t)
    ensures Retained(now, times) == times
  {
    FilterAll((t: int) => Recent(now, t), times);
  }

  lemma RetainNone(now: int, times: seq<int>)
    requires forall t :: t in times ==> !Recent(now, t)
    ensures Retained(now, times) == []
  {
    FilterNone((t: int) => Recent(now, t), times);
  }

  /** One admitted attempt at time `t` with key `c`, seen by key `k`. */
  lemma BurstOne(calls: seq<Call>, c: Key, k: Key, t: int, own: nat, mine: nat, all: nat)
    requires c.item == k.item && own < PER_SESSION && all < OVERALL
    requires Burnt(calls, c, t, own, all) && Burnt(calls, k, t, mine, all)
    ensures Burnt(calls + [Call(c, t)], c, t, own + 1, all + 1)
    ensures Burnt(calls + [Call(c, t)], k, t, if c == k then own + 1 else mine, all + 1)
  {
    hide Retained;
    var next := calls + [Call(c, t)];
    assert next[..|calls|] == calls;
    RetainAll(t, Times(t, own));
    RetainAll(t, Times(t, all));
    assert Times(t, own) + [t] == Times(t, own + 1);
    assert Times(t, all) + [t] == Times(t, all + 1);
    assert Times(t, mine) + [] == Times(t, mine);
    assert Admitted(next, |calls|);
  }

  lemma {:induction false} BurstsAdmitted(keys: seq<Key>, k: Key, t: int)
    requires |keys| <= 4 && DistinctKeys(keys) && forall x :: x in keys ==> x.item == k.item
    ensures Burnt(Bursts(keys, t), k, t, if k in keys then 5 else 0, 5 * |keys|)
    decreases |keys|
  {
    hide *;
    NothingBurnt(k, t);
    if keys != [] {
      var n := |keys| - 1;
      var c, calls := keys[n], Bursts(keys[..n], t);
      LastKey(keys, k, t);
      BurstsAdmitted(keys[..n], k, t);
      BurstsAdmitted(keys[..n], c, t);
      FiveMore(calls, c, k, t, if k in keys[..n] then 5 else 0, 5 * n);
    }
  }

  lemma NothingBurnt(k: Key, t: int)
    ensures Bursts([], t) == [] && Burnt([], k, t, 0, 0)
  {
  }

  lemma LastKey(keys: seq<Key>, k: Key, t: int)
    requires keys != [] && DistinctKeys(keys) && forall x :: x in keys ==> x.item == k.item
    ensures var n := |keys| - 1;
            var x := Call(keys[n], t);
            && DistinctKeys(keys[..n]) && keys[n] !in keys[..n] && keys[n].item == k.item
            && (forall x :: x in keys[..n] ==> x.item == k.item)
            && (k in keys <==> k in keys[..n] || k == keys[n])
            && Bursts(keys, t) == Bursts(keys[..n], t) + [x, x, x, x, x]
    ensures OVERALL == 20
  {
    assert keys == keys[..|keys| - 1] + [keys[|keys| - 1]];
  }

  lemma FiveMore(calls: seq<Call>, c: Key, k: Key, t: int, mine: nat, all: nat)
    requires c.item == k.item && all + 5 <= OVERALL && (c == k ==> mine == 0)
    requires Burnt(calls, c, t, 0, all) && Burnt(calls, k, t, mine, all)
    ensures var x := Call(c, t); Burnt(calls + [x, x, x, x, x], k, t, if c == k then 5 else mine, all + 5)
  {
    hide Burnt;
    var x := Call(c, t);
    BurstOne(calls, c, k, t, 0, mine, all);
    BurstOne(calls + [x], c, k, t, 1, if c == k then 1 else mine, all + 1);
    BurstOne(calls + [x] + [x], c, k, t, 2, if c == k then 2 else mine, all + 2);
    BurstOne(calls + [x] + [x] + [x], c, k, t, 3, if c == k then 3 else mine, all + 3);
    BurstOne(calls + [x] + [x] + [x] + [x], c, k, t, 4, if c == k then 4 else mine, all + 4);
    assert calls + [x] + [x] + [x] + [x] + [x] == calls + [x, x, x, x, x];
  }

  /** The later reading prunes every burst, so the stale one is admitted too. */
  lemma StaleAdmitted(keys: seq<Key>, k: Key, a: int, b: int, mine: nat, all: nat)
    requires b < a && Burnt(Bursts(keys, b - 599), k, b - 599, mine, all)
    ensures LocalHistory(Stale(keys, k, a, b), k) == LocalHistory(Bursts(keys, b - 599), k) + [a] + [b]
    ensures ItemHistory(Stale(keys, k, a, b), k.item) == ItemHistory(Bursts(keys, b - 599), k.item) + [a] + [b]
  {
    hide *;
    var first := Bursts(keys, b - 599);
    var late := first + [Call(k, a)];
    StaleIs(keys, k, a, b);
    BurntTables(first, k, b - 599, mine, all);
    BurstsPruned(a, b, mine);
    BurstsPruned(a, b, all);
    RetainNone(a, Times(b - 599, mine));
    RetainNone(a, Times(b - 599, all));
    OneCall(first, k, a, [], []);
    assert [] + [a] == [a];
    RetainAll(b, [a]);
    OneCall(late, k, b, [a], [a]);
  }

  lemma StaleIs(keys: seq<Key>, k: Key, a: int, b: int)
    requires b < a
    ensures Stale(keys, k, a, b) == Bursts(keys, b - 599) + [Call(k, a)] + [Call(k, b)]
    ensures PER_SESSION > 1 && OVERALL > 1
    ensures forall t :: t in [a] ==> Recent(b, t)
  {
    hide Bursts;
    assert Bursts(keys, b - 599) + [Call(k, a)] + [Call(k, b)] == Bursts(keys, b - 599) + [Call(k, a), Call(k, b)];
  }

  lemma BurstsPruned(a: int, b: int, n: nat)
    requires b < a
    ensures forall t :: t in Times(b - 599, n) ==> !Recent(a, t)
  {
  }

  lemma BurntTables(calls: seq<Call>, k: Key, t: int, mine: nat, all: nat)
    requires Burnt(calls, k, t, mine, all)
    ensures At(After(calls).local, k) == Times(t, mine) && At(After(calls).overall, k.item) == Times(t, all)
  {
    hide After;
  }

  /** One call that finds room in both lists after pruning. */
  lemma OneCall(calls: seq<Call>, k: Key, now: int, mine: seq<int>, all: seq<int>)
    requires Retained(now, At(After(calls).local, k)) == mine && Retained(now, At(After(calls).overall, k.item)) == all
    requires |mine| < PER_SESSION && |all| < OVERALL
    ensures At(After(calls + [Call(k, now)]).local, k) == mine + [now] && At(After(calls + [Call(k, now)]).overall, k.item) == all + [now]
    ensures LocalHistory(calls + [Call(k, now)], k) == LocalHistory(calls, k) + [now]
    ensures ItemHistory(calls + [Call(k, now)], k.item) == ItemHistory(calls, k.item) + [now]
  {
    hide Retained;
    var next := calls + [Call(k, now)];
    assert next[..|calls|] == calls;
    assert Admitted(next, |calls|);
  }

  lemma StaleWindow(n: nat, a: int, b: int)
    requires b < a
    ensures Within(b - 599, Times(b - 599, n) + [a] + [b]) == n + 1
  {
    var p := (t: int) => InWindow(b - 599, t);
    FilterAppend(p, Times(b - 599, n) + [a], [b]);
    FilterAppend(p, Times(b - 599, n), [a]);
    FilterOne(p, a);
    FilterOne(p, b);
    FilterAll(p, Times(b - 599, n));
  }
}
