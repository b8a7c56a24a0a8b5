/** Which logs of observed events are ever accepted, told from the events alone. */
module ObservedLogs {
  import opened Prelude
  import opened Events
  import opened Observation

  datatype Mark = AtStart | AtEnd

  /** `e` belongs to the stream of that direction in that view. */
  predicate OfStream(e: Emitted, d: Direction, v: View) {
    e.direction == d && e.view == v
  }

  predicate IsMark(e: Emitted, mark: Mark) {
    if mark == AtStart then e.data.Start? else e.data.End?
  }

  /** The stream has started, or ended, by the end of `log`. */
  ghost predicate Has(log: seq<Emitted>, d: Direction, v: View, mark: Mark) {
    exists i :: 0 <= i < |log| && OfStream(log[i], d, v) && IsMark(log[i], mark)
  }

  /** The bodies of the stream's chunks, one after the other. */
  function StreamText(log: seq<Emitted>, d: Direction, v: View): Bytes {
    if log == [] then []
    else
      var e := log[|log| - 1];
      StreamText(log[..|log| - 1], d, v) + (if OfStream(e, d, v) && e.data.Chunk? then e.data.body else [])
  }

  /** Event `i` is in order: a stream starts once, its chunks come after that and
      before its end, each at the length so far, and it ends once, at its length. */
  ghost predicate InOrder(log: seq<Emitted>, i: nat)
    requires i < |log|
  {
    var e, before := log[i], log[..i];
    match e.data
    case Start => !Has(before, e.direction, e.view, AtStart)
    case Chunk(offset, _) =>
      && Has(before, e.direction, e.view, AtStart) && !Has(before, e.direction, e.view, AtEnd)
      && offset == |StreamText(before, e.direction, e.view)|
    case End(_, bytes) => !Has(before, e.direction, e.view, AtEnd) && bytes == |StreamText(before, e.direction, e.view)|
    case _ => true
  }

  lemma SlotsApart(d: Direction, v: View, e: Direction, w: View)
    ensures Slot(d, v) == Slot(e, w) <==> d == e && v == w
  {
  }

  /** What is kept of a stream is its text. */
  lemma {:induction false} ContentsIsText(log: seq<Emitted>, d: Direction, v: View)
    ensures Contents(log, Slot(d, v)) == StreamText(log, d, v)
  {
    if log != [] {
      var e := log[|log| - 1];
      ContentsIsText(log[..|log| - 1], d, v);
      SlotsApart(e.direction, e.view, d, v);
    }
  }

  lemma HasMore(log: seq<Emitted>, e: Emitted, d: Direction, v: View, mark: Mark)
    ensures Has(log + [e], d, v, mark) <==> Has(log, d, v, mark) || (OfStream(e, d, v) && IsMark(e, mark))
  {
    var all := log + [e];
    if Has(log, d, v, mark) {
      var i :| 0 <= i < |log| && OfStream(log[i], d, v) && IsMark(log[i], mark);
      assert all[i] == log[i];
    }
    assert all[|log|] == e;
    if Has(all, d, v, mark) {
      var i :| 0 <= i < |all| && OfStream(all[i], d, v) && IsMark(all[i], mark);
      if i < |log| { assert log[i] == all[i]; }
    }
  }

  /** A stream's state says how long it is and whether it has started and ended. */
  ghost predicate Says(states: seq<StreamState>, log: seq<Emitted>, d: Direction, v: View)
    requires |states| == SLOTS
  {
    var s := states[Slot(d, v)];
    s.bytes == |StreamText(log, d, v)| && (s.started <==> Has(log, d, v, AtStart)) && (s.ended <==> Has(log, d, v, AtEnd))
  }

  lemma {:induction false} StateSays(log: seq<Emitted>, d: Direction, v: View)
    requires Replay(FRESH, log).Some?
    ensures Says(Replay(FRESH, log).value, log, d, v)
    decreases |log|
  {
    if log != [] {
      var n := |log| - 1;
      StateSays(log[..n], d, v);
      assert log == log[..n] + [log[n]];
      HasMore(log[..n], log[n], d, v, AtStart);
      HasMore(log[..n], log[n], d, v, AtEnd);
      SlotsApart(log[n].direction, log[n].view, d, v);
    }
  }

  lemma NextInOrder(log: seq<Emitted>, e: Emitted)
    requires Replay(FRESH, log).Some?
    ensures Replay(FRESH, log + [e]).Some? <==> InOrder(log + [e], |log|)
  {
    hide Has, StreamText;
    var all := log + [e];
    assert all[..|log|] == log && all[|log|] == e;
    StateSays(log, e.direction, e.view);
  }

  lemma OrderPrefix(log: seq<Emitted>, n: nat, i: nat)
    requires i < n <= |log|
    ensures InOrder(log[..n], i) <==> InOrder(log, i)
  {
    assert log[..n][..i] == log[..i];
  }

  /** A log is accepted exactly when every event of it is in order. */
  lemma {:induction false} AcceptedExactly(log: seq<Emitted>)
    ensures Replay(FRESH, log).Some? <==> forall i :: 0 <= i < |log| ==> InOrder(log, i)
    decreases |log|
  {
    hide InOrder;
    if log != [] {
      var n := |log| - 1;
      AcceptedExactly(log[..n]);
      assert log == log[..n] + [log[n]];
      forall i | 0 <= i < n ensures InOrder(log[..n], i) <==> InOrder(log, i) { OrderPrefix(log, n, i); }
      if Replay(FRESH, log[..n]).Some? { NextInOrder(log[..n], log[n]); }
    }
  }

  // ---- Closing -------------------------------------------------------------

  /** The last word on a stream that has started and not ended. */
  predicate LastWord(log: seq<Emitted>, e: Emitted, complete: bool, d: Direction, v: View) {
    e == Emitted(d, v, End(complete, |StreamText(log, d, v)|))
  }

  /** The last word on a view. */
  predicate LastView(log: seq<Emitted>, e: Emitted, complete: bool, v: View) {
    e == Emitted(Inbound, v, Close(complete, |StreamText(log, Outbound, v)|, |StreamText(log, Inbound, v)|))
  }

  /** The closing batch says of each view and of each open stream, and of nothing
      else, whether it is complete and how much was observed. */
  lemma ClosingExactly(log: seq<Emitted>, states: seq<StreamState>, complete: bool, e: Emitted)
    requires |states| == SLOTS && Replay(FRESH, log) == Some(states)
    ensures e in Finishing(states, complete) <==>
              || LastView(log, e, complete, e.view)
              || (Has(log, e.direction, e.view, AtStart) && !Has(log, e.direction, e.view, AtEnd)
                  && LastWord(log, e, complete, e.direction, e.view))
  {
    hide Has, StreamText, Replay, ClosingEvents;
    StateSays(log, Outbound, e.view);
    StateSays(log, Inbound, e.view);
    assert e.direction.Outbound? || e.direction.Inbound?;
    InClosing(states, complete, Agent, e);
    InClosing(states, complete, Upstream, e);
    assert e.view.Agent? || e.view.Upstream?;
  }

  lemma InClosing(states: seq<StreamState>, complete: bool, view: View, e: Emitted)
    requires |states| == SLOTS
    ensures e in ClosingEvents(states, complete, view) <==>
              || e == Emitted(Inbound, view, Close(complete, states[Slot(Outbound, view)].bytes, states[Slot(Inbound, view)].bytes))
              || (e.view == view && states[Slot(e.direction, view)].started && !states[Slot(e.direction, view)].ended
                  && e == Emitted(e.direction, view, End(complete, states[Slot(e.direction, view)].bytes)))
  {
    assert e.direction.Outbound? || e.direction.Inbound?;
    hide Slot;
  }
}
