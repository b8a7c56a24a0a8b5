/** What revoking a session and cancelling its work leave behind, and that both
    are final. */
module Revocations {
  import opened Prelude
  import opened Engine
  import opened EngineInvariant
  import opened EngineRuns
  import opened Broker

  // ---- Revoking ------------------------------------------------------------

  predicate Over(s: OpState) {
    s in {Completed, Failed, Uncertain, Denied, Expired, Cancelled}
  }

  /** Nothing of the session can go on: what was not over is cancelled, or of
      unknown outcome if it was being dispatched; no login context holds anything
      or may be used; no stream is open. What was over, and every charge, stays. */
  predicate NothingLeft(c: Session, c': Session) {
    && c'.revoked && c'.cancelled
    && c'.expires == c.expires && c'.bytes == c.bytes && c'.remotes == c.remotes
    && c'.items.Keys == c.items.Keys && c'.issuances.Keys == c.issuances.Keys
    && c'.contexts.Keys == c.contexts.Keys && c'.streams.Keys == c.streams.Keys
    && (forall r :: r in c.items ==>
          && c'.items[r] == c.items[r].(state := c'.items[r].state, cancelled := c'.items[r].cancelled)
          && (Over(c.items[r].state) ==> c'.items[r] == c.items[r])
          && (!Over(c.items[r].state) ==>
                c'.items[r].cancelled && c'.items[r].state == if c.items[r].state == Dispatching then Uncertain else Cancelled))
    && (forall r :: r in c.issuances ==>
          if Over(c.issuances[r].state) then c'.issuances[r] == c.issuances[r]
          else c'.issuances[r].cancelled && c'.issuances[r].state == Cancelled && c'.issuances[r].request == c.issuances[r].request)
    && (forall b :: b in c.contexts ==>
          c'.contexts[b].status == Revoked && c'.contexts[b].cancelled && c'.contexts[b].custody.None?)
    && (forall r :: r in c.streams ==> c'.streams[r].ended && c'.streams[r].request == c.streams[r].request)
  }

  lemma RevokedIsOver(c: Session)
    ensures NothingLeft(c, RevokedSession(c))
  {
    assert RevokedSession(c).items.Keys == c.items.Keys;
    assert RevokedSession(c).issuances.Keys == c.issuances.Keys;
    assert RevokedSession(c).contexts.Keys == c.contexts.Keys;
    assert RevokedSession(c).streams.Keys == c.streams.Keys;
  }

  // ---- Revoking is a run of the engine's own steps -------------------------

  /** `steps` are possible one after the other from `h` on, lead to `h'`, and only
      revoke, wake, cancel, clear and end what belongs to `s`. */
  ghost predicate Reaches(h: Host, s: SessionId, steps: seq<Step>, h': Host)
    decreases |steps|
  {
    if steps == [] then h' == h
    else CleansUp(steps[0], s) && Enabled(h, steps[0]) && Reaches(Apply(h, steps[0]).host, s, steps[1..], h')
  }

  predicate CleansUp(e: Step, s: SessionId) {
    || e == RetireOne(s) || e == Notify(s)
    || (e.Cancelling? && e.session == s) || (e.CancelLogin? && e.session == s)
    || (e.Clear? && e.session == s) || (e.End? && e.session == s)
  }

  lemma {:induction false} ReachesJoin(h: Host, s: SessionId, a: seq<Step>, m: Host, b: seq<Step>, h': Host)
    requires Reaches(h, s, a, m) && Reaches(m, s, b, h')
    ensures Reaches(h, s, a + b, h')
    decreases |a|
  {
    hide Apply, Enabled, CleansUp;
    if a == [] {
      assert a + b == b;
    } else {
      ReachesJoin(Apply(h, a[0]).host, s, a[1..], m, b, h');
      assert (a + b)[1..] == a[1..] + b;
    }
  }

  lemma ReachesOne(h: Host, s: SessionId, e: Step)
    requires CleansUp(e, s) && Enabled(h, e)
    ensures Reaches(h, s, [e], Apply(h, e).host)
  {
    hide Apply, Enabled, CleansUp;
    assert [e][1..] == [];
  }

  /** One step, and then the rest. */
  lemma ReachesBy(h: Host, s: SessionId, e: Step, rest: seq<Step>, h': Host)
    requires CleansUp(e, s) && Enabled(h, e) && Reaches(Apply(h, e).host, s, rest, h')
    ensures Reaches(h, s, [e] + rest, h')
  {
    hide Reaches;
    ReachesOne(h, s, e);
    ReachesJoin(h, s, [e], Apply(h, e).host, rest, h');
  }

  lemma ReachesNothing(h: Host, s: SessionId)
    requires s in h.sessions
    ensures Reaches(h, s, [], With(h, s, h.sessions[s]))
  {
  }

  lemma WithTwice(h: Host, s: SessionId, c: Session, d: Session)
    ensures With(With(h, s, c), s, d) == With(h, s, d)
  {
  }

  /** The session with one of its maps replaced. */
  function WithItems(h: Host, s: SessionId, m: map<RequestId, Operation>): Host
    requires s in h.sessions
  {
    With(h, s, h.sessions[s].(items := m))
  }

  function WithLogins(h: Host, s: SessionId, m: map<RequestId, Issuance>): Host
    requires s in h.sessions
  {
    With(h, s, h.sessions[s].(issuances := m))
  }

  function WithContexts(h: Host, s: SessionId, m: map<ContextId, Binding>): Host
    requires s in h.sessions
  {
    With(h, s, h.sessions[s].(contexts := m))
  }

  function WithStreams(h: Host, s: SessionId, m: map<RequestId, Attachment>): Host
    requires s in h.sessions
  {
    With(h, s, h.sessions[s].(streams := m))
  }

  lemma {:induction false} CancelAll(h: Host, s: SessionId, left: set<RequestId>) returns (steps: seq<Step>)
    requires s in h.sessions && left <= h.sessions[s].items.Keys
    ensures Reaches(h, s, steps, WithItems(h, s, PartlyCancelled(h.sessions[s].items, left)))
    decreases |left|
  {
    hide Reaches, Enabled, Apply;
    var m := h.sessions[s].items;
    if left == {} {
      assert PartlyCancelled(m, left) == m;
      ReachesNothing(h, s);
      steps := [];
    } else {
      var k :| k in left;
      CancelAllFirst(h, s, k);
      var h' := Apply(h, Cancelling(s, k)).host;
      var rest := CancelAll(h', s, left - {k});
      assert PartlyCancelled(h'.sessions[s].items, left - {k}) == PartlyCancelled(m, left);
      WithTwice(h, s, h'.sessions[s], h.sessions[s].(items := PartlyCancelled(m, left)));
      ReachesBy(h, s, Cancelling(s, k), rest, WithItems(h, s, PartlyCancelled(m, left)));
      steps := [Cancelling(s, k)] + rest;
    }
  }

  lemma CancelAllFirst(h: Host, s: SessionId, k: RequestId)
    requires s in h.sessions && k in h.sessions[s].items
    ensures Enabled(h, Cancelling(s, k))
    ensures Apply(h, Cancelling(s, k)).host == WithItems(h, s, h.sessions[s].items[k := CancelledOp(h.sessions[s].items[k])])
  {
    var m := h.sessions[s].items;
    if CancelledOp(m[k]) == m[k] { assert m[k := m[k]] == m; }
  }

  function PartlyCancelled(m: map<RequestId, Operation>, left: set<RequestId>): map<RequestId, Operation> {
    map k | k in m :: if k in left then CancelledOp(m[k]) else m[k]
  }

  lemma {:induction false} CancelAllLogins(h: Host, s: SessionId, left: set<RequestId>) returns (steps: seq<Step>)
    requires s in h.sessions && left <= h.sessions[s].issuances.Keys
    ensures Reaches(h, s, steps, WithLogins(h, s, PartlyDropped(h.sessions[s].issuances, left)))
    decreases |left|
  {
    hide Reaches, Enabled, Apply;
    var m := h.sessions[s].issuances;
    if left == {} {
      assert PartlyDropped(m, left) == m;
      ReachesNothing(h, s);
      steps := [];
    } else {
      var k :| k in left;
      CancelAllLoginsFirst(h, s, k);
      var h' := Apply(h, CancelLogin(s, k)).host;
      var rest := CancelAllLogins(h', s, left - {k});
      assert PartlyDropped(h'.sessions[s].issuances, left - {k}) == PartlyDropped(m, left);
      WithTwice(h, s, h'.sessions[s], h.sessions[s].(issuances := PartlyDropped(m, left)));
      ReachesBy(h, s, CancelLogin(s, k), rest, WithLogins(h, s, PartlyDropped(m, left)));
      steps := [CancelLogin(s, k)] + rest;
    }
  }

  lemma CancelAllLoginsFirst(h: Host, s: SessionId, k: RequestId)
    requires s in h.sessions && k in h.sessions[s].issuances
    ensures Enabled(h, CancelLogin(s, k))
    ensures Apply(h, CancelLogin(s, k)).host == WithLogins(h, s, h.sessions[s].issuances[k := CancelledLogin(h.sessions[s].issuances[k])])
  {
    var m := h.sessions[s].issuances;
    if CancelledLogin(m[k]) == m[k] { assert m[k := m[k]] == m; }
  }

  function PartlyDropped(m: map<RequestId, Issuance>, left: set<RequestId>): map<RequestId, Issuance> {
    map k | k in m :: if k in left then CancelledLogin(m[k]) else m[k]
  }

  lemma {:induction false} ClearAll(h: Host, s: SessionId, left: set<ContextId>) returns (steps: seq<Step>)
    requires s in h.sessions && left <= h.sessions[s].contexts.Keys
    ensures Reaches(h, s, steps, WithContexts(h, s, PartlyCleared(h.sessions[s].contexts, left)))
    decreases |left|
  {
    hide Reaches, Enabled, Apply;
    var m := h.sessions[s].contexts;
    if left == {} {
      assert PartlyCleared(m, left) == m;
      ReachesNothing(h, s);
      steps := [];
    } else {
      var k :| k in left;
      ClearAllFirst(h, s, k);
      var h' := Apply(h, Clear(s, k)).host;
      var rest := ClearAll(h', s, left - {k});
      assert PartlyCleared(h'.sessions[s].contexts, left - {k}) == PartlyCleared(m, left);
      WithTwice(h, s, h'.sessions[s], h.sessions[s].(contexts := PartlyCleared(m, left)));
      ReachesBy(h, s, Clear(s, k), rest, WithContexts(h, s, PartlyCleared(m, left)));
      steps := [Clear(s, k)] + rest;
    }
  }

  lemma ClearAllFirst(h: Host, s: SessionId, k: ContextId)
    requires s in h.sessions && k in h.sessions[s].contexts
    ensures Enabled(h, Clear(s, k))
    ensures Apply(h, Clear(s, k)).host == WithContexts(h, s, h.sessions[s].contexts[k := RevokedBinding(h.sessions[s].contexts[k])])
  {
    var m := h.sessions[s].contexts;
    if RevokedBinding(m[k]) == m[k] { assert m[k := m[k]] == m; }
  }

  function PartlyCleared(m: map<ContextId, Binding>, left: set<ContextId>): map<ContextId, Binding> {
    map k | k in m :: if k in left then RevokedBinding(m[k]) else m[k]
  }

  lemma {:induction false} EndAll(h: Host, s: SessionId, left: set<RequestId>) returns (steps: seq<Step>)
    requires s in h.sessions && left <= h.sessions[s].streams.Keys
    ensures Reaches(h, s, steps, WithStreams(h, s, PartlyEnded(h.sessions[s].streams, left)))
    decreases |left|
  {
    hide Reaches, Enabled, Apply;
    var m := h.sessions[s].streams;
    if left == {} {
      assert PartlyEnded(m, left) == m;
      ReachesNothing(h, s);
      steps := [];
    } else {
      var k :| k in left;
      EndAllFirst(h, s, k);
      var h' := Apply(h, End(s, k)).host;
      var rest := EndAll(h', s, left - {k});
      assert PartlyEnded(h'.sessions[s].streams, left - {k}) == PartlyEnded(m, left);
      WithTwice(h, s, h'.sessions[s], h.sessions[s].(streams := PartlyEnded(m, left)));
      ReachesBy(h, s, End(s, k), rest, WithStreams(h, s, PartlyEnded(m, left)));
      steps := [End(s, k)] + rest;
    }
  }

  lemma EndAllFirst(h: Host, s: SessionId, k: RequestId)
    requires s in h.sessions && k in h.sessions[s].streams
    ensures Enabled(h, End(s, k))
    ensures Apply(h, End(s, k)).host == WithStreams(h, s, h.sessions[s].streams[k := EndedStream(h.sessions[s].streams[k])])
  {
    var m := h.sessions[s].streams;
    if EndedStream(m[k]) == m[k] { assert m[k := m[k]] == m; }
  }

  function PartlyEnded(m: map<RequestId, Attachment>, left: set<RequestId>): map<RequestId, Attachment> {
    map k | k in m :: if k in left then EndedStream(m[k]) else m[k]
  }

  function RevokedBinding(b: Binding): Binding {
    Cleared(b, Revoked)
  }

  function EndedStream(a: Attachment): Attachment {
    a.(ended := true)
  }

  lemma AllOfThem(c: Session)
    ensures PartlyCancelled(c.items, c.items.Keys) == CancelledItems(c.items)
    ensures PartlyDropped(c.issuances, c.issuances.Keys) == CancelledLogins(c.issuances)
    ensures PartlyCleared(c.contexts, c.contexts.Keys) == ClearedContexts(c.contexts)
    ensures PartlyEnded(c.streams, c.streams.Keys) == EndedStreams(c.streams)
  {
  }

  lemma Marked(h: Host, s: SessionId)
    requires s in h.sessions
    ensures Reaches(h, s, [RetireOne(s), Notify(s)], With(h, s, h.sessions[s].(revoked := true, cancelled := true)))
  {
    var h' := Apply(h, RetireOne(s)).host;
    WithTwice(h, s, h.sessions[s].(revoked := true), h.sessions[s].(revoked := true, cancelled := true));
    ReachesOne(h', s, Notify(s));
    ReachesBy(h, s, RetireOne(s), [Notify(s)], Apply(h', Notify(s)).host);
    assert [RetireOne(s)] + [Notify(s)] == [RetireOne(s), Notify(s)];
  }

  /** What is done to a session that is already marked. */
  lemma SweepIsSteps(h: Host, s: SessionId) returns (steps: seq<Step>)
    requires s in h.sessions && h.sessions[s].revoked && h.sessions[s].cancelled
    ensures Reaches(h, s, steps, With(h, s, RevokedSession(h.sessions[s])))
  {
    hide Reaches, Enabled, Apply, CancelledItems, CancelledLogins, ClearedContexts, EndedStreams;
    var c := h.sessions[s];
    AllOfThem(c);
    var a := CancelAll(h, s, c.items.Keys);
    var h1 := WithItems(h, s, CancelledItems(c.items));
    var b := CancelAllLogins(h1, s, c.issuances.Keys);
    var h2 := WithLogins(h1, s, CancelledLogins(c.issuances));
    var d := ClearAll(h2, s, c.contexts.Keys);
    var h3 := WithContexts(h2, s, ClearedContexts(c.contexts));
    var e := EndAll(h3, s, c.streams.Keys);
    var h4 := WithStreams(h3, s, EndedStreams(c.streams));
    ReachesJoin(h2, s, d, h3, e, h4);
    ReachesJoin(h1, s, b, h2, d + e, h4);
    ReachesJoin(h, s, a, h1, b + (d + e), h4);
    assert h4 == With(h, s, RevokedSession(c));
    steps := a + (b + (d + e));
  }

  /** Revoking a session is a run of the engine's own steps: each of them may be
      interleaved with any others, and every theorem about runs covers it. */
  lemma RevokeIsSteps(h: Host, s: SessionId) returns (steps: seq<Step>)
    requires s in h.sessions
    ensures [RetireOne(s), Notify(s)] <= steps
    ensures Reaches(h, s, steps, With(h, s, RevokedSession(h.sessions[s])))
  {
    hide Reaches, Enabled, Apply, CancelledItems, CancelledLogins, ClearedContexts, EndedStreams;
    Marked(h, s);
    var c := h.sessions[s].(revoked := true, cancelled := true);
    var h' := With(h, s, c);
    var rest := SweepIsSteps(h', s);
    WithTwice(h, s, c, RevokedSession(c));
    ReachesJoin(h, s, [RetireOne(s), Notify(s)], h', rest, With(h, s, RevokedSession(c)));
    steps := [RetireOne(s), Notify(s)] + rest;
  }

  // ---- Cancelling ----------------------------------------------------------

  /** A cancellation ends what is not over, for good: the operation is Cancelled,
      or Uncertain if it was being dispatched, in every later state, and is neither
      dispatched nor completed again. */
  lemma CancelledForGood(r: Run, j: nat, k: nat, s: SessionId, q: RequestId)
    requires IsRun(r) && j < k < |r.steps| && |r.states| == |r.steps| + 1 && StepAt(r, k)
    requires r.steps[j] == Cancelling(s, q) && OnItem(r.states[j], s, q) && !Over(r.states[j].sessions[s].items[q].state)
    requires s in r.states[k].sessions
    ensures OnItem(r.states[k], s, q) && r.states[k].sessions[s].items[q].cancelled
    ensures r.states[k].sessions[s].items[q].state == if r.states[j].sessions[s].items[q].state == Dispatching then Uncertain else Cancelled
    ensures Dispatched(s, q) !in EventsAt(r, k) && Finished(s, q) !in EventsAt(r, k)
  {
    hide IsRun, Enabled, Apply;
    RunShape(r, j);
    Cancels(r.states[j], s, q);
    OutcomesAreFinal(r, j + 1, k, s, q);
    NoneOfCancelled(r.states[k], r.steps[k], s, q);
  }

  lemma Cancels(h: Host, s: SessionId, q: RequestId)
    requires Enabled(h, Cancelling(s, q)) && !Over(h.sessions[s].items[q].state)
    ensures var h' := Apply(h, Cancelling(s, q)).host;
            && OnItem(h', s, q) && h'.sessions[s].items[q].cancelled
            && h'.sessions[s].items[q].state == if h.sessions[s].items[q].state == Dispatching then Uncertain else Cancelled
  {
  }

  lemma NoneOfCancelled(h: Host, e: Step, s: SessionId, q: RequestId)
    requires Enabled(h, e) && OnItem(h, s, q) && h.sessions[s].items[q].cancelled && Over(h.sessions[s].items[q].state)
    ensures Dispatched(s, q) !in Apply(h, e).events && Finished(s, q) !in Apply(h, e).events
  {
    if e.Dispatch? || e.Local? || e.Commit? || e.Publish? || e.Remote? {
      hide Authorized, Usable, PublishVerdict;
    } else {
      NoEvents(h, e);
    }
  }

  /** A cancelled login never publishes its context. */
  lemma CancelledLoginForGood(r: Run, j: nat, k: nat, s: SessionId, q: RequestId)
    requires IsRun(r) && j < k < |r.steps| && |r.states| == |r.steps| + 1 && StepAt(r, k)
    requires r.steps[j] == CancelLogin(s, q) && s in r.states[j].sessions && q in r.states[j].sessions[s].issuances
    requires !Over(r.states[j].sessions[s].issuances[q].state) && s in r.states[k].sessions
    ensures q in r.states[k].sessions[s].issuances && r.states[k].sessions[s].issuances[q].state == Cancelled
    ensures r.steps[k].Publish? && r.steps[k].session == s && r.steps[k].request == q ==>
              Apply(r.states[k], r.steps[k]).result.Err? && r.states[k + 1] == r.states[k]
  {
    hide IsRun, HostGrows;
    RunShape(r, j);
    SidesAreFinal(r, j + 1, k, s);
    RunShape(r, k);
  }

  /** What is over is over: no state from Completed to Cancelled is ever left. */
  lemma OverForGood(r: Run, j: nat, k: nat, s: SessionId, q: RequestId)
    requires IsRun(r) && j <= k < |r.states| == |r.steps| + 1 && s in r.states[j].sessions && s in r.states[k].sessions
    ensures q in r.states[j].sessions[s].items && Over(r.states[j].sessions[s].items[q].state) ==>
              q in r.states[k].sessions[s].items && r.states[k].sessions[s].items[q].state == r.states[j].sessions[s].items[q].state
    ensures q in r.states[j].sessions[s].issuances && Over(r.states[j].sessions[s].issuances[q].state) ==>
              q in r.states[k].sessions[s].issuances && r.states[k].sessions[s].issuances[q] == r.states[j].sessions[s].issuances[q]
  {
    hide IsRun;
    SidesAreFinal(r, j, k, s);
    if q in r.states[j].sessions[s].items { OutcomesAreFinal(r, j, k, s, q); }
  }

  /** A login context that is cleared is revoked and empty, and a stream that ends
      has ended, at once. */
  lemma EndsAtOnce(h: Host, e: Step)
    requires Enabled(h, e) && (e.Clear? || e.End?)
    ensures e.Clear? ==> HasContext(Apply(h, e).host, e.session, e.context)
                         && var b := Apply(h, e).host.sessions[e.session].contexts[e.context];
                            b.status == Revoked && b.cancelled && b.custody.None?
    ensures e.End? ==> e.session in Apply(h, e).host.sessions && e.request in Apply(h, e).host.sessions[e.session].streams
                       && Apply(h, e).host.sessions[e.session].streams[e.request].ended
  {
  }

  /** An operation moves on exactly while it is not over. */
  lemma AdvancedExactly(h: Host, e: Step)
    requires Enabled(h, e) && e.Advancing?
    ensures var n, o := Apply(h, e), h.sessions[e.session].items[e.request];
            && n.result == (if Over(o.state) then Err(RequestConflict) else Ok(()))
            && n.host == (if n.result.Ok? then With(h, e.session, WithItem(h.sessions[e.session], e.request, o.(state := e.state))) else h)
  {
  }
}
