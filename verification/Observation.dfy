/** The logical content of one operation as it is observed: four streams whose
    chunks chain by offset and whose ends carry exact totals. State advances
    only together with an accepted batch. */
module Observation {
  import opened Prelude
  import opened Events

  const SLOTS: nat := 4
  const CHUNK: nat := 32 * 1024

  datatype Data =
    | Start
    | Chunk(offset: nat, body: Bytes)
    | End(complete: bool, bytes: nat)
    | Close(closedWell: bool, outbound: nat, inbound: nat)
    | Note

  datatype Emitted = Emitted(direction: Direction, view: View, data: Data)

  datatype StreamState = StreamState(bytes: nat, started: bool, ended: bool)

  function Slot(direction: Direction, view: View): (k: nat)
    ensures k < SLOTS
  {
    match (direction, view)
    case (Outbound, Agent) => 0
    case (Outbound, Upstream) => 1
    case (Inbound, Agent) => 2
    case (Inbound, Upstream) => 3
  }

  function SlotOf(e: Emitted): (k: nat)
    ensures k < SLOTS
  {
    Slot(e.direction, e.view)
  }

  /** One stream's next state, or `None` when the event does not continue it. */
  function Next(s: StreamState, data: Data): Option<StreamState> {
    match data
    case Start => if s.started then None else Some(s.(started := true))
    case Chunk(offset, body) =>
      if !s.started || s.ended || offset != s.bytes then None else Some(s.(bytes := s.bytes + |body|))
    case End(_, bytes) => if s.ended || bytes != s.bytes then None else Some(s.(ended := true))
    case Close(_, _, _) => Some(s)
    case Note => Some(s)
  }

  function Replay(states: seq<StreamState>, emitted: seq<Emitted>): (r: Option<seq<StreamState>>)
    requires |states| == SLOTS
    ensures r.Some? ==> |r.value| == SLOTS
  {
    if emitted == [] then Some(states)
    else
      var before := Replay(states, emitted[..|emitted| - 1]);
      if before.None? then None
      else
        var e := emitted[|emitted| - 1];
        var next := Next(before.value[SlotOf(e)], e.data);
        if next.None? then None else Some(before.value[SlotOf(e) := next.value])
  }

  const FRESH: seq<StreamState> := [StreamState(0, false, false), StreamState(0, false, false),
                                    StreamState(0, false, false), StreamState(0, false, false)]

  /** The observed content of one stream. */
  function Contents(log: seq<Emitted>, slot: nat): Bytes {
    if log == [] then []
    else
      Contents(log[..|log| - 1], slot) + Added(log[|log| - 1], slot)
  }

  /** What one event adds to a stream. */
  function Added(e: Emitted, slot: nat): Bytes {
    if SlotOf(e) == slot && e.data.Chunk? then e.data.body else []
  }

  lemma {:induction false} ReplayJoin(states: seq<StreamState>, a: seq<Emitted>, b: seq<Emitted>)
    requires |states| == SLOTS
    ensures Replay(states, a + b) == if Replay(states, a).None? then None else Replay(Replay(states, a).value, b)
    decreases |b|
  {
    if b == [] {
      assert a + b == a;
    } else {
      var n := |b| - 1;
      assert (a + b)[..|a + b| - 1] == a + b[..n];
      ReplayJoin(states, a, b[..n]);
    }
  }

  lemma ContentSnoc(log: seq<Emitted>, e: Emitted, slot: nat)
    ensures Contents(log + [e], slot) == Contents(log, slot) + Added(e, slot)
  {
    hide Added;
    assert (log + [e])[..|log|] == log;
  }

  lemma ContentNothing(slot: nat)
    ensures Contents([], slot) == []
  {
  }

  lemma {:induction false} ContentJoin(a: seq<Emitted>, b: seq<Emitted>, slot: nat)
    ensures Contents(a + b, slot) == Contents(a, slot) + Contents(b, slot)
    decreases |b|
  {
    hide *;
    if b == [] {
      ContentNothing(slot);
      assert a + b == a;
      assert Contents(a, slot) + [] == Contents(a, slot);
    } else {
      var c, e := b[..|b| - 1], b[|b| - 1];
      assert b == c + [e];
      JoinAssociates(a, c, [e]);
      ContentSnoc(a + c, e, slot);
      ContentSnoc(c, e, slot);
      ContentJoin(a, c, slot);
      JoinAssociates(Contents(a, slot), Contents(c, slot), Added(e, slot));
    }
  }

  // ---- What a log of accepted events guarantees ----------------------------

  /** Chunk offsets are exactly the lengths observed before; an end carries the
      whole length, and nothing of that stream follows it. */
  ghost predicate Chained(log: seq<Emitted>, i: nat)
    requires i < |log|
  {
    var slot := SlotOf(log[i]);
    && (log[i].data.Chunk? ==> log[i].data.offset == |Contents(log[..i], slot)|)
    && (log[i].data.End? ==> log[i].data.bytes == |Contents(log[..i], slot)| == |Contents(log, slot)|)
  }

  lemma {:induction false} ReplayBytes(log: seq<Emitted>, slot: nat)
    requires Replay(FRESH, log).Some? && slot < SLOTS
    ensures Replay(FRESH, log).value[slot].bytes == |Contents(log, slot)|
    decreases |log|
  {
    if log != [] { ReplayBytes(log[..|log| - 1], slot); }
  }

  lemma {:induction false} ReplayPrefix(log: seq<Emitted>, k: nat)
    requires Replay(FRESH, log).Some? && k <= |log|
    ensures Replay(FRESH, log[..k]).Some?
    decreases |log|
  {
    var n := |log|;
    if k < n {
      assert log[..n - 1][..k] == log[..k];
      ReplayPrefix(log[..n - 1], k);
    } else {
      assert log[..k] == log;
    }
  }

  /** An ended stream stays ended and gains no content. */
  lemma {:induction false} EndedStays(log: seq<Emitted>, k: nat, slot: nat)
    requires Replay(FRESH, log).Some? && k <= |log| && slot < SLOTS
    requires Replay(FRESH, log[..k]).Some? && Replay(FRESH, log[..k]).value[slot].ended
    ensures Replay(FRESH, log).value[slot].ended && Contents(log, slot) == Contents(log[..k], slot)
    decreases |log|
  {
    var n := |log|;
    if k < n {
      assert log[..n - 1][..k] == log[..k];
      EndedStays(log[..n - 1], k, slot);
    } else {
      assert log[..k] == log;
    }
  }

  /** Every accepted event chains, in every log the recorder can have accepted. */
  lemma AcceptedChains(log: seq<Emitted>, i: nat)
    requires Replay(FRESH, log).Some? && i < |log|
    ensures Chained(log, i)
  {
    hide Replay, Contents;
    var slot := SlotOf(log[i]);
    ReplayPrefix(log, i + 1);
    ReplayPrefix(log, i);
    LastReplayed(log, i);
    ReplayBytes(log[..i], slot);
    if log[i].data.End? { EndedStays(log, i + 1, slot); }
  }

  lemma LastReplayed(log: seq<Emitted>, i: nat)
    requires i < |log| && Replay(FRESH, log[..i + 1]).Some? && Replay(FRESH, log[..i]).Some?
    ensures var slot := SlotOf(log[i]);
            && Next(Replay(FRESH, log[..i]).value[slot], log[i].data) == Some(Replay(FRESH, log[..i + 1]).value[slot])
            && (!log[i].data.Chunk? ==> Contents(log[..i + 1], slot) == Contents(log[..i], slot))
  {
    assert log[..i + 1][..i] == log[..i];
    assert Contents(log[..i], SlotOf(log[i])) + [] == Contents(log[..i], SlotOf(log[i]));
  }

  // ---- The observer --------------------------------------------------------

  /** The chunk that continues each of the given views. */
  function ChunkEvents(states: seq<StreamState>, direction: Direction, views: seq<View>, body: Bytes): seq<Emitted>
    requires |states| == SLOTS
  {
    seq(|views|, k requires 0 <= k < |views| =>
      Emitted(direction, views[k], Chunk(states[Slot(direction, views[k])].bytes, body)))
  }

  /** Open streams end and both views close, with the totals observed. */
  function ClosingEvents(states: seq<StreamState>, complete: bool, view: View): seq<Emitted>
    requires |states| == SLOTS
  {
    Ending(states, complete, Outbound, view) + Ending(states, complete, Inbound, view)
    + [Emitted(Inbound, view, Close(complete, states[Slot(Outbound, view)].bytes, states[Slot(Inbound, view)].bytes))]
  }

  function Ending(states: seq<StreamState>, complete: bool, direction: Direction, view: View): seq<Emitted>
    requires |states| == SLOTS
  {
    var s := states[Slot(direction, view)];
    if s.started && !s.ended then [Emitted(direction, view, End(complete, s.bytes))] else []
  }

  /** The closing batch of an operation: it ends each open stream with its true
      length and closes both views with their true totals. */
  function Finishing(states: seq<StreamState>, complete: bool): seq<Emitted>
    requires |states| == SLOTS
  {
    ClosingEvents(states, complete, Agent) + ClosingEvents(states, complete, Upstream)
  }

  function EndedState(s: StreamState): StreamState {
    if s.started then s.(ended := true) else s
  }

  lemma ReplayOne(states: seq<StreamState>, e: Emitted)
    requires |states| == SLOTS
    ensures Replay(states, [e])
            == if Next(states[SlotOf(e)], e.data).None? then None else Some(states[SlotOf(e) := Next(states[SlotOf(e)], e.data).value])
    ensures !e.data.Chunk? ==> forall slot :: Contents([e], slot) == []
  {
    assert [e][..0] == [];
    assert forall slot :: Contents([e][..0], slot) == [];
    assert Replay(states, []) == Some(states);
  }

  lemma EndingReplays(states: seq<StreamState>, complete: bool, direction: Direction, view: View)
    requires |states| == SLOTS
    ensures Replay(states, Ending(states, complete, direction, view))
            == Some(states[Slot(direction, view) := EndedState(states[Slot(direction, view)])])
    ensures forall slot :: Contents(Ending(states, complete, direction, view), slot) == []
  {
    var s := states[Slot(direction, view)];
    if s.started && !s.ended {
      ReplayOne(states, Emitted(direction, view, End(complete, s.bytes)));
    } else {
      assert states[Slot(direction, view) := s] == states;
    }
  }

  lemma ClosingReplays(states: seq<StreamState>, complete: bool, view: View)
    requires |states| == SLOTS
    ensures Replay(states, ClosingEvents(states, complete, view))
            == Some(states[Slot(Outbound, view) := EndedState(states[Slot(Outbound, view)])]
                          [Slot(Inbound, view) := EndedState(states[Slot(Inbound, view)])])
    ensures forall slot :: Contents(ClosingEvents(states, complete, view), slot) == []
  {
    hide Ending, Replay, Contents, EndedState;
    var a, b := Ending(states, complete, Outbound, view), Ending(states, complete, Inbound, view);
    var mid := states[Slot(Outbound, view) := EndedState(states[Slot(Outbound, view)])];
    EndingReplays(states, complete, Outbound, view);
    assert Ending(mid, complete, Inbound, view) == b by { EndingAlone(states, mid, complete, Inbound, view); }
    EndingReplays(mid, complete, Inbound, view);
    ReplayJoin(states, a, b);
    var last := Emitted(Inbound, view, Close(complete, states[Slot(Outbound, view)].bytes, states[Slot(Inbound, view)].bytes));
    var end := Replay(states, a + b).value;
    ReplayOne(end, last);
    assert end[SlotOf(last) := end[SlotOf(last)]] == end;
    ReplayJoin(states, a + b, [last]);
    forall slot ensures Contents(a + b + [last], slot) == [] {
      ContentJoin(a, b, slot);
      ContentJoin(a + b, [last], slot);
    }
  }

  lemma EndingAlone(a: seq<StreamState>, b: seq<StreamState>, complete: bool, direction: Direction, view: View)
    requires |a| == |b| == SLOTS && a[Slot(direction, view)] == b[Slot(direction, view)]
    ensures Ending(a, complete, direction, view) == Ending(b, complete, direction, view)
  {
  }

  /** The closing batch is never refused for its own sake, ends every started
      stream and adds no content. */
  lemma FinishingReplays(states: seq<StreamState>, complete: bool)
    requires |states| == SLOTS
    ensures Replay(states, Finishing(states, complete)).Some?
    ensures forall k :: 0 <= k < SLOTS ==> Replay(states, Finishing(states, complete)).value[k] == EndedState(states[k])
    ensures forall slot :: Contents(Finishing(states, complete), slot) == []
  {
    hide ClosingEvents, Replay;
    ClosingReplays(states, complete, Agent);
    var mid := Replay(states, ClosingEvents(states, complete, Agent)).value;
    ClosingAlone(states, mid, complete);
    ClosingReplays(mid, complete, Upstream);
    ReplayJoin(states, ClosingEvents(states, complete, Agent), ClosingEvents(states, complete, Upstream));
    forall slot ensures Contents(Finishing(states, complete), slot) == [] {
      ContentJoin(ClosingEvents(states, complete, Agent), ClosingEvents(states, complete, Upstream), slot);
    }
  }

  /** The totals that close a view are the lengths of what was observed in it. */
  lemma ClosingTotals(log: seq<Emitted>, states: seq<StreamState>, complete: bool, view: View)
    requires |states| == SLOTS && Replay(FRESH, log) == Some(states)
    ensures Emitted(Inbound, view, Close(complete, |Contents(log, Slot(Outbound, view))|, |Contents(log, Slot(Inbound, view))|))
            in Finishing(states, complete)
  {
    hide Replay, Contents, Ending;
    ReplayBytes(log, Slot(Outbound, view));
    ReplayBytes(log, Slot(Inbound, view));
    var last := Emitted(Inbound, view, Close(complete, states[Slot(Outbound, view)].bytes, states[Slot(Inbound, view)].bytes));
    assert last in ClosingEvents(states, complete, view);
    assert view == Agent || view == Upstream;
  }

  lemma ClosingAlone(a: seq<StreamState>, b: seq<StreamState>, complete: bool)
    requires |a| == |b| == SLOTS && a[1] == b[1] && a[3] == b[3]
    ensures ClosingEvents(a, complete, Upstream) == ClosingEvents(b, complete, Upstream)
  {
  }

  predicate DistinctViews(views: seq<View>) {
    forall i, j :: 0 <= i < j < |views| ==> views[i] != views[j]
  }

  class Observed {
    var states: seq<StreamState>
    ghost var log: seq<Emitted>

    ghost predicate Valid()
      reads this
    {
      |states| == SLOTS && Replay(FRESH, log) == Some(states)
    }

    constructor ()
      ensures Valid() && log == []
    {
      states, log := FRESH, [];
    }

    /** Record a batch. `answer` is what the flow says: acceptance, or a loss it
        permits, is `Ok`. State and log advance only then. */
    method RecordWith(emitted: seq<Emitted>, answer: Result<()>) returns (r: Result<()>)
      requires Valid()
      modifies this
      ensures Valid()
      ensures Replay(old(states), emitted).None? ==> r == Err(ObservationUnavailable)
      ensures Replay(old(states), emitted).Some? ==> r == answer
      ensures r.Ok? ==> Replay(old(states), emitted) == Some(states) && log == old(log) + emitted
      ensures r.Err? ==> states == old(states) && log == old(log)
    {
      var next := states;
      assert emitted[..0] == [];
      for k := 0 to |emitted|
        invariant |next| == SLOTS && Replay(states, emitted[..k]) == Some(next)
      {
        var e := emitted[k];
        assert emitted[..k + 1][..k] == emitted[..k];
        var state := Next(next[SlotOf(e)], e.data);
        if state.None? {
          ReplayFails(states, emitted, k + 1);
          return Err(ObservationUnavailable);
        }
        next := next[SlotOf(e) := state.value];
      }
      assert emitted[..|emitted|] == emitted;
      if answer.Err? { return answer; }
      ReplayJoin(FRESH, log, emitted);
      states, log := next, log + emitted;
      return answer;
    }

    /** Record the closing batch. */
    method Finish(complete: bool, answer: Result<()>) returns (r: Result<()>)
      requires Valid()
      modifies this
      ensures Valid() && r == answer
      ensures r.Ok? ==> log == old(log) + Finishing(old(states), complete)
      ensures r.Ok? ==> forall k :: 0 <= k < SLOTS ==> states[k] == EndedState(old(states[k]))
      ensures r.Err? ==> states == old(states) && log == old(log)
      ensures forall slot :: Contents(log, slot) == Contents(old(log), slot)
    {
      hide Finishing, Contents;
      FinishingReplays(states, complete);
      forall slot ensures Contents(log + Finishing(states, complete), slot) == Contents(log, slot) {
        ContentJoin(log, Finishing(states, complete), slot);
        assert Contents(log, slot) + [] == Contents(log, slot);
      }
      r := RecordWith(Finishing(states, complete), answer);
    }

    /** Observe `body` in each of the views, a bounded chunk at a time;
        `answers` is the flow's answer to each chunk. */
    method ContentViews(direction: Direction, views: seq<View>, body: Bytes, answers: nat -> Result<()>) returns (r: Result<()>)
      requires Valid() && DistinctViews(views)
      modifies this
      ensures Valid()
      ensures forall v :: v in views ==> Extends(old(log), log, Slot(direction, v), body, r.Ok?)
      ensures forall k :: 0 <= k < SLOTS && Untouched(direction, views, k) ==> Contents(log, k) == Contents(old(log), k)
      ensures old(log) <= log
    {
      hide Contents, ChunkEvents, Replay;
      var done: nat, n: nat := 0, 0;
      ghost var was := log;
      forall k ensures Contents(was, k) == Contents(was, k) + body[..0] {}
      while done < |body|
        invariant Valid() && done <= |body| && was <= log
        invariant forall v :: v in views ==> Contents(log, Slot(direction, v)) == Contents(was, Slot(direction, v)) + body[..done]
        invariant forall k :: 0 <= k < SLOTS && Untouched(direction, views, k) ==> Contents(log, k) == Contents(was, k)
      {
        var size := if |body| - done < CHUNK then |body| - done else CHUNK;
        var piece := body[done..done + size];
        var events := ChunkEvents(states, direction, views, piece);
        ChunksContent(states, log, direction, views, piece);
        var recorded := RecordWith(events, answers(n));
        if recorded.Err? { return recorded; }
        assert body[..done] + piece == body[..done + size];
        done, n := done + size, n + 1;
      }
      assert body[..done] == body;
      return Ok(());
    }
  }

  /** The stream gained all of `body`, or a part of it when refused. */
  ghost predicate Extends(before: seq<Emitted>, after: seq<Emitted>, slot: nat, body: Bytes, whole: bool) {
    exists n :: 0 <= n <= |body| && Contents(after, slot) == Contents(before, slot) + body[..n] && (whole ==> n == |body|)
  }

  lemma {:induction false} ReplayFails(states: seq<StreamState>, emitted: seq<Emitted>, k: nat)
    requires |states| == SLOTS && k <= |emitted| && Replay(states, emitted[..k]).None?
    ensures Replay(states, emitted).None?
    decreases |emitted|
  {
    var n := |emitted|;
    if k < n {
      assert emitted[..n - 1][..k] == emitted[..k];
      ReplayFails(states, emitted[..n - 1], k);
    } else {
      assert emitted[..k] == emitted;
    }
  }

  lemma ChunkLast(states: seq<StreamState>, direction: Direction, views: seq<View>, piece: Bytes, slot: nat)
    requires |states| == SLOTS && views != []
    ensures var n := |views| - 1;
            Contents(ChunkEvents(states, direction, views, piece), slot)
            == Contents(ChunkEvents(states, direction, views[..n], piece), slot) + (if Slot(direction, views[n]) == slot then piece else [])
  {
    var n := |views| - 1;
    var events := ChunkEvents(states, direction, views, piece);
    assert events[..n] == ChunkEvents(states, direction, views[..n], piece);
  }

  /** One batch of chunks adds `piece` once to each of its streams. */
  lemma {:induction false} ChunkContent(states: seq<StreamState>, direction: Direction, views: seq<View>, piece: Bytes, slot: nat)
    requires |states| == SLOTS && DistinctViews(views) && slot < SLOTS
    ensures Contents(ChunkEvents(states, direction, views, piece), slot)
            == if Untouched(direction, views, slot) then [] else piece
    decreases |views|
  {
    if views != [] {
      hide *;
      var n := |views| - 1;
      ChunkLast(states, direction, views, piece, slot);
      SlotOnce(direction, views, slot);
      ChunkContent(states, direction, views[..n], piece, slot);
      assert [] + piece == piece && piece + [] == piece;
    }
  }

  lemma SlotOnce(direction: Direction, views: seq<View>, slot: nat)
    requires DistinctViews(views) && views != []
    ensures var n := |views| - 1;
            && DistinctViews(views[..n])
            && (Untouched(direction, views, slot) <==> Untouched(direction, views[..n], slot) && Slot(direction, views[n]) != slot)
            && (Slot(direction, views[n]) == slot ==> Untouched(direction, views[..n], slot))
  {
    var n := |views| - 1;
    assert forall v :: v in views <==> v in views[..n] || v == views[n];
  }

  lemma ChunksContent(states: seq<StreamState>, before: seq<Emitted>, direction: Direction, views: seq<View>, piece: Bytes)
    requires |states| == SLOTS && DistinctViews(views)
    ensures var events := ChunkEvents(states, direction, views, piece);
            && (forall v :: v in views ==> Contents(before + events, Slot(direction, v)) == Contents(before, Slot(direction, v)) + piece)
            && (forall k :: 0 <= k < SLOTS && Untouched(direction, views, k) ==> Contents(before + events, k) == Contents(before, k))
  {
    hide Contents, ChunkEvents;
    var events := ChunkEvents(states, direction, views, piece);
    forall k | 0 <= k < SLOTS
      ensures Contents(before + events, k) == Contents(before, k) + Contents(events, k)
      ensures Contents(events, k) == if Untouched(direction, views, k) then [] else piece
    {
      ContentJoin(before, events, k);
      ChunkContent(states, direction, views, piece, k);
    }
    forall k | 0 <= k < SLOTS && Untouched(direction, views, k) ensures Contents(before + events, k) == Contents(before, k) {
      assert Contents(before, k) + [] == Contents(before, k);
    }
  }

  ghost predicate Untouched(direction: Direction, views: seq<View>, k: nat) {
    forall v :: v in views ==> Slot(direction, v) != k
  }
}
