/** Where private website state comes from and goes: what a binding holds was
    published with it or captured by an exchange that completed, and nothing
    completes without its closing. */
module Exchanges {
  import opened Prelude
  import opened Engine
  import opened EngineInvariant
  import opened EngineRuns
  import opened Registrations

  // ---- Taking --------------------------------------------------------------

  /** An exchange begins exactly on a binding of its session that is neither
      cancelled nor expired and that no other operation is using, for an operation
      that has none; it begins empty. */
  lemma BegunExactly(h: Host, s: SessionId, q: RequestId, b: ContextId)
    requires Inv(h) && Enabled(h, Begin(s, q, b))
    ensures var n, c := Apply(h, Begin(s, q, b)), h.sessions[s];
            && (n.result.Ok? <==>
                  && b in c.contexts && !c.contexts[b].cancelled && h.now < c.contexts[b].expires && c.items[q].exchange.None?
                  && forall p :: p in c.items && c.items[p].exchange.Some? ==> c.items[p].exchange.value.context != b)
            && (n.result.Err? ==> n.host == h && n.result.error == if BindingLives(h, s, b) then RequestConflict else PlaceholderInvalid)
            && (n.result.Ok? ==>
                  && OnItem(n.host, s, q)
                  && n.host.sessions[s].items[q].exchange == Some(Exchange(b, c.contexts[b].status, None, false, None)))
  {
    hide Inv;
    forall p | p in h.sessions[s].items
      ensures Holds(h.sessions[s].items[p], b) <==>
                h.sessions[s].items[p].exchange.Some? && h.sessions[s].items[p].exchange.value.context == b {}
  }

  /** What the binding held is then in the exchange, and the binding is empty. */
  lemma TakenWhole(h: Host, s: SessionId, q: RequestId)
    requires Inv(h) && Enabled(h, Take(s, q))
    ensures var n, c, b := Apply(h, Take(s, q)), h.sessions[s], h.sessions[s].items[q].exchange.value.context;
            && n.result.Ok? && b in c.contexts && OnItem(n.host, s, q) && b in n.host.sessions[s].contexts
            && n.host.sessions[s].items[q].exchange == Some(c.items[q].exchange.value.(held := c.contexts[b].custody))
            && n.host.sessions[s].contexts == c.contexts[b := c.contexts[b].(custody := None)]
  {
    hide Inv;
    SessionCustody(h, s, q);
  }

  // ---- Capturing -----------------------------------------------------------

  /** An exchange that is ready or has something staged was so before, or has just
      been captured, or has just staged what it held ready. */
  predicate Moved(h: Host, e: Step, h': Host, s: SessionId, q: RequestId)
    requires OnItem(h', s, q) && h'.sessions[s].items[q].exchange.Some?
  {
    var x' := h'.sessions[s].items[q].exchange.value;
    x'.ready || x'.staged.Some? ==>
      && OnItem(h, s, q) && h.sessions[s].items[q].exchange.Some?
      && var x := h.sessions[s].items[q].exchange.value;
         || x' == x
         || (e.Captured? && e.session == s && e.request == q && x' == x.(held := Some(e.value), status := e.status, ready := true))
         || (e.Prepare? && e.session == s && e.request == q && x.ready && x' == x.(held := None, ready := false, staged := x.held))
  }

  lemma ExchangeMoves(h: Host, e: Step, s: SessionId, q: RequestId)
    requires Enabled(h, e) && OnItem(Apply(h, e).host, s, q) && Apply(h, e).host.sessions[s].items[q].exchange.Some?
    ensures Moved(h, e, Apply(h, e).host, s, q)
  {
    hide Enabled, Apply;
    if e.Captured? || e.Prepare? || e.Commit? {
      ResponseMoves(h, e, s, q);
    } else if e.Take? || e.Begin? || e.Relinquishing? || e.Register? || e.Create? || e.DropCore? {
      EdgesMove(h, e, s, q);
    } else if GuardMoves(e) {
      GuardKeeps(h, e, s, q);
    } else {
      OthersKeep(h, e, s, q);
    }
  }

  lemma ResponseMoves(h: Host, e: Step, s: SessionId, q: RequestId)
    requires Enabled(h, e) && (e.Captured? || e.Prepare? || e.Commit?)
    requires OnItem(Apply(h, e).host, s, q) && Apply(h, e).host.sessions[s].items[q].exchange.Some?
    ensures Moved(h, e, Apply(h, e).host, s, q)
  {
    hide PrepareCompletion, CommitCompletion;
    if e.Prepare? {
      PrepareTouches(h, e.session, e.request, e.remote);
    } else if e.Commit? {
      CommitTouchesOne(h, e.session, e.request, e.recorded, e.remote);
    }
  }

  /** A preparation touches one operation's exchange, and at most stages what that
      held ready; */
  lemma PrepareTouches(h: Host, s: SessionId, q: RequestId, remote: Result<()>)
    requires OnItem(h, s, q)
    ensures var h' := PrepareCompletion(h, s, q, remote).host;
            && OnItem(h', s, q) && h'.sessions == h.sessions[s := h'.sessions[s]]
            && h'.sessions[s].items == h.sessions[s].items[q := h'.sessions[s].items[q]]
            && h'.sessions[s].contexts.Keys == h.sessions[s].contexts.Keys
            && var x, x' := h.sessions[s].items[q].exchange, h'.sessions[s].items[q].exchange;
               || x' == x
               || (x.Some? && x.value.ready && x' == Some(x.value.(held := None, ready := false, staged := x.value.held)))
  {
    hide Authorized, Checked;
  }

  /** and a commit ends one, or empties it. */
  lemma CommitTouchesOne(h: Host, s: SessionId, q: RequestId, recorded: bool, remote: Result<()>)
    requires OnItem(h, s, q)
    ensures var h' := CommitCompletion(h, s, q, recorded, remote).host;
            && OnItem(h', s, q) && h'.sessions == h.sessions[s := h'.sessions[s]]
            && h'.sessions[s].items == h.sessions[s].items[q := h'.sessions[s].items[q]]
            && h'.sessions[s].contexts.Keys == h.sessions[s].contexts.Keys
            && var x' := h'.sessions[s].items[q].exchange;
               x'.Some? ==> !x'.value.ready && x'.value.staged.None?
  {
    hide Authorized, Usable;
  }

  lemma EdgesMove(h: Host, e: Step, s: SessionId, q: RequestId)
    requires Enabled(h, e) && (e.Take? || e.Begin? || e.Relinquishing? || e.Register? || e.Create? || e.DropCore?)
    requires OnItem(Apply(h, e).host, s, q) && Apply(h, e).host.sessions[s].items[q].exchange.Some?
    ensures Moved(h, e, Apply(h, e).host, s, q)
  {
    hide Authorized, Usable, Cleared, Holds, Room;
  }

  lemma GuardKeeps(h: Host, e: Step, s: SessionId, q: RequestId)
    requires Enabled(h, e) && (e.Cancelling? || e.Advancing? || e.Dispatch? || e.Local? || e.Failing?) && OnItem(Apply(h, e).host, s, q)
    ensures OnItem(h, s, q) && Apply(h, e).host.sessions[s].items[q].exchange == h.sessions[s].items[q].exchange
  {
    hide Authorized, Terminal, Outcome;
  }

  lemma OthersKeep(h: Host, e: Step, s: SessionId, q: RequestId)
    requires Enabled(h, e) && !GuardMoves(e) && !e.Register? && !e.Create? && !e.DropCore? && OnItem(Apply(h, e).host, s, q)
    ensures OnItem(h, s, q) && Apply(h, e).host.sessions[s].items[q] == h.sessions[s].items[q]
  {
    hide Authorized, Usable, Room, Cleared, Terminal, PublishVerdict;
  }

  /** Whatever an exchange has ready or staged was captured from its own response. */
  lemma {:induction false} ReadyWasCaptured(r: Run, k: nat, s: SessionId, q: RequestId) returns (j: nat)
    requires IsRun(r) && k < |r.states| && OnItem(r.states[k], s, q) && r.states[k].sessions[s].items[q].exchange.Some?
    requires var x := r.states[k].sessions[s].items[q].exchange.value; x.ready || x.staged.Some?
    ensures |r.states| == |r.steps| + 1 && j < k
    ensures var x := r.states[k].sessions[s].items[q].exchange.value;
            && (if x.ready then x.held.Some? && r.steps[j] == Captured(s, q, x.held.value, x.status)
                else x.staged.Some? && r.steps[j] == Captured(s, q, x.staged.value, x.status))
    decreases k
  {
    hide IsRun, Enabled, Apply, HostGrows;
    Length(r);
    assert k > 0;
    RunShape(r, k - 1);
    var e := r.steps[k - 1];
    ExchangeMoves(r.states[k - 1], e, s, q);
    if e.Captured? && e.session == s && e.request == q {
      j := k - 1;
      CapturedIs(r.states[j], e, s, q);
    } else {
      j := ReadyWasCaptured(r, k - 1, s, q);
    }
  }

  lemma CapturedIs(h: Host, e: Step, s: SessionId, q: RequestId)
    requires Enabled(h, e) && e.Captured? && e.session == s && e.request == q
    ensures OnItem(Apply(h, e).host, s, q) && h.sessions[s].items[q].exchange.Some?
    ensures Apply(h, e).host.sessions[s].items[q].exchange
            == Some(h.sessions[s].items[q].exchange.value.(held := Some(e.value), status := e.status, ready := true))
  {
  }

  // ---- Completing ----------------------------------------------------------

  /** A completed exchange publishes, to its own binding, the private state and the
      status that were captured from its own response. */
  lemma PublishedWasCaptured(r: Run, k: nat, s: SessionId, q: RequestId) returns (j: nat)
    requires IsRun(r) && k < |r.steps| && |r.states| == |r.steps| + 1 && StepAt(r, k) && Finished(s, q) in EventsAt(r, k)
    requires r.steps[k].Commit? && OnItem(r.states[k], s, q) && r.states[k].sessions[s].items[q].exchange.Some?
    ensures j < k && r.steps[j].Captured? && r.steps[j].session == s && r.steps[j].request == q
    ensures var b := r.states[k].sessions[s].items[q].exchange.value.context;
            && HasContext(r.states[k], s, b) && HasContext(r.states[k + 1], s, b)
            && r.states[k + 1].sessions[s].contexts[b]
               == r.states[k].sessions[s].contexts[b].(custody := Some(r.steps[j].value), status := r.steps[j].status)
  {
    hide IsRun, Inv, Enabled, Apply;
    RunInv(r, k);
    CommitPublishes(r.states[k], r.steps[k], s, q);
    SessionCustody(r.states[k], s, q);
    j := ReadyWasCaptured(r, k, s, q);
    StagedNotReady(r.states[k], s, q);
  }

  lemma StagedNotReady(h: Host, s: SessionId, q: RequestId)
    requires Inv(h) && OnItem(h, s, q) && h.sessions[s].items[q].exchange.Some? && h.sessions[s].items[q].exchange.value.staged.Some?
    ensures h.sessions[s].items[q].exchange.value.held.None?
  {
    hide Inv, Honest;
    SessionParts(h, s);
  }

  lemma CommitPublishes(h: Host, e: Step, s: SessionId, q: RequestId)
    requires Enabled(h, e) && e.Commit? && Finished(s, q) in Apply(h, e).events && OnItem(h, s, q)
    requires h.sessions[s].items[q].exchange.Some?
    ensures e.session == s && e.request == q && h.sessions[s].items[q].exchange.value.staged.Some?
    ensures var x := h.sessions[s].items[q].exchange.value;
            && HasContext(h, s, x.context) && HasContext(Apply(h, e).host, s, x.context)
            && Apply(h, e).host.sessions[s].contexts[x.context] == h.sessions[s].contexts[x.context].(custody := x.staged, status := x.status)
  {
    hide Authorized, Usable;
  }

  /** Whatever private state a binding holds was published with it, or put there by
      the completion of an exchange on it. */
  lemma {:induction false} CustodyOrigin(r: Run, k: nat, s: SessionId, b: ContextId) returns (j: nat)
    requires IsRun(r) && k < |r.states| && HasContext(r.states[k], s, b) && r.states[k].sessions[s].contexts[b].custody.Some?
    ensures |r.states| == |r.steps| + 1 && j < k && StepAt(r, j)
    ensures var v := r.states[k].sessions[s].contexts[b].custody;
            || (r.steps[j].Publish? && r.steps[j].session == s && r.steps[j].context == b && ContextPublished(s) in EventsAt(r, j)
                && r.steps[j].prepared.Ok? && r.steps[j].prepared.value.custody == v)
            || (r.steps[j].Commit? && r.steps[j].session == s && EventsAt(r, j) == [Finished(s, r.steps[j].request)]
                && OnItem(r.states[j], s, r.steps[j].request) && r.states[j].sessions[s].items[r.steps[j].request].exchange.Some?
                && r.states[j].sessions[s].items[r.steps[j].request].exchange.value.context == b
                && r.states[j].sessions[s].items[r.steps[j].request].exchange.value.staged == v)
    decreases k
  {
    hide IsRun, Inv, Enabled, Apply, HostGrows, SessionGrows;
    Length(r);
    assert k > 0;
    RunShape(r, k - 1);
    RunInv(r, k - 1);
    var h, e := r.states[k - 1], r.steps[k - 1];
    if HasContext(h, s, b) && h.sessions[s].contexts[b].custody == r.states[k].sessions[s].contexts[b].custody {
      j := CustodyOrigin(r, k - 1, s, b);
    } else if HasContext(h, s, b) {
      j := k - 1;
      CustodyReturns(h, e, s, b);
      GuardOn(h, e);
    } else {
      j := k - 1;
      ContextAppears(h, e, s, b);
    }
  }

  lemma ContextAppears(h: Host, e: Step, s: SessionId, b: ContextId)
    requires Enabled(h, e) && !HasContext(h, s, b) && HasContext(Apply(h, e).host, s, b)
    ensures e.Publish? && e.session == s && e.context == b && ContextPublished(s) in Apply(h, e).events
    ensures e.prepared == Ok(Apply(h, e).host.sessions[s].contexts[b])
  {
    if GuardMoves(e) {
      GuardContexts(h, e, s);
    } else if e.Publish? {
      hide PublishVerdict, Terminal;
    } else {
      hide Authorized, Room, Cleared, Terminal;
    }
  }

  lemma GuardOn(h: Host, e: Step)
    requires Enabled(h, e) && e.Commit?
    ensures OnItem(h, e.session, e.request)
  {
  }

  /** No step of a guard adds a context. */
  lemma GuardContexts(h: Host, e: Step, s: SessionId)
    requires Enabled(h, e) && GuardMoves(e) && s in Apply(h, e).host.sessions
    ensures s in h.sessions && Apply(h, e).host.sessions[s].contexts.Keys == h.sessions[s].contexts.Keys
  {
    if e.Prepare? || e.Commit? {
      ResponseContexts(h, e, s);
    } else if e.Take? || e.Begin? || e.Relinquishing? {
      hide Authorized, Usable, Cleared, Holds;
    } else {
      hide Authorized, FailedOp, CancelledOp, Terminal;
    }
  }

  lemma ResponseContexts(h: Host, e: Step, s: SessionId)
    requires Enabled(h, e) && (e.Prepare? || e.Commit?) && s in Apply(h, e).host.sessions
    ensures s in h.sessions && Apply(h, e).host.sessions[s].contexts.Keys == h.sessions[s].contexts.Keys
  {
    hide PrepareCompletion, CommitCompletion;
    if e.Prepare? {
      PrepareTouches(h, e.session, e.request, e.remote);
    } else {
      CommitTouchesOne(h, e.session, e.request, e.recorded, e.remote);
    }
  }

  predicate Undone(s: OpState) {
    s in {Received, Validated, PendingApproval, Ready, Dispatching}
  }

  /** The binding of an exchange may still be used. */
  predicate BindingLives(h: Host, s: SessionId, b: ContextId) {
    HasContext(h, s, b) && !h.sessions[s].contexts[b].cancelled && h.now < h.sessions[s].contexts[b].expires
  }

  /** A remote or website operation completes exactly when its closing batch was
      recorded, its session is live, it is dispatched and not cancelled, its
      exchange, if any, has staged a response and has a living binding, and the
      remote context agrees. Otherwise it does not complete, and what its exchange
      held is gone. */
  lemma CompletedExactly(h: Host, e: Step)
    requires Enabled(h, e) && e.Commit?
    ensures var n, o := Apply(h, e), h.sessions[e.session].items[e.request];
            && OnItem(n.host, e.session, e.request)
            && var o' := n.host.sessions[e.session].items[e.request];
               && (n.result.Ok? <==>
                     && e.recorded && e.remote.Ok? && Live(h, e.session) && o.state == Dispatching && !o.cancelled
                     && (o.exchange.Some? ==> o.exchange.value.staged.Some? && BindingLives(h, e.session, o.exchange.value.context)))
               && (n.result.Err? ==> n.result.error == (if !e.recorded then ObservationUnavailable
                                                        else if Live(h, e.session) && o.state == Dispatching && !o.cancelled
                                                                && (o.exchange.Some? ==> o.exchange.value.staged.Some?
                                                                                         && BindingLives(h, e.session, o.exchange.value.context))
                                                                && e.remote.Err? then e.remote.error
                                                        else ErrorCode.OutcomeUnknown))
               && (n.result.Ok? ==> o' == o.(state := Completed, closed := true, exchange := None) && n.events == [Finished(e.session, e.request)])
               && (n.result.Err? ==>
                     && n.events == [] && o' == o.(exchange := o'.exchange) && (o'.exchange.Some? <==> o.exchange.Some?)
                     && (o.exchange.Some? ==> o'.exchange.value.held.None? && o'.exchange.value.staged.None?)
                     && n.host.sessions[e.session].contexts == h.sessions[e.session].contexts)
  {
  }

  /** An operation without remote work completes exactly when its closing batch was
      recorded, its session is live and it is neither over nor cancelled. */
  lemma LocallyExactly(h: Host, e: Step)
    requires Enabled(h, e) && e.Local?
    ensures var n, o := Apply(h, e), h.sessions[e.session].items[e.request];
            && (n.result.Ok? <==>
                  && e.recorded && Live(h, e.session) && !o.cancelled
                  && Undone(o.state))
            && (n.result.Ok? ==> n.events == [Finished(e.session, e.request)]
                                 && n.host == With(h, e.session, WithItem(h.sessions[e.session], e.request, o.(state := Completed, closed := true))))
            && (n.result.Err? ==> n.host == h && n.events == [])
            && (n.result.Err? ==> n.result.error == (if !e.recorded then ObservationUnavailable
                                                     else if Live(h, e.session) then RequestConflict else SessionInvalid))
  {
  }

  /** What was captured is staged for completion exactly when the session is live,
      the operation dispatched and not cancelled, the remote context agreed and the
      binding neither cancelled nor newly expired; one found expired is emptied. */
  lemma StagedExactly(h: Host, e: Step)
    requires Inv(h) && Enabled(h, e) && e.Prepare? && h.sessions[e.session].items[e.request].exchange.Some?
    ensures var n, o, x := Apply(h, e), h.sessions[e.session].items[e.request], h.sessions[e.session].items[e.request].exchange.value;
            && OnItem(n.host, e.session, e.request) && n.events == [] && HasContext(n.host, e.session, x.context)
            && (n.result.Ok? <==>
                  && Live(h, e.session) && o.state == Dispatching && !o.cancelled && e.remote.Ok? && x.ready
                  && !h.sessions[e.session].contexts[x.context].cancelled
                  && (h.now < h.sessions[e.session].contexts[x.context].expires || h.sessions[e.session].contexts[x.context].status == Revoked))
            && n.host.sessions[e.session].items[e.request]
               == (if n.result.Ok? then o.(exchange := Some(x.(held := None, ready := false, staged := x.held))) else o)
            && var b, b' := h.sessions[e.session].contexts[x.context], n.host.sessions[e.session].contexts[x.context];
               || b' == b
               || (b.expires <= h.now && n.result.Err? && b'.cancelled && b'.custody.None? && b'.status == Lapsed)
  {
    hide Inv;
    SessionCustody(h, e.session, e.request);
  }

  /** A remote conversation is published exactly while its session is live, its
      operation neither over nor cancelled and, for a new one, fewer than sixteen
      exist. */
  lemma RemoteExactly(h: Host, e: Step)
    requires Enabled(h, e) && e.Remote?
    ensures var n, c, o := Apply(h, e), h.sessions[e.session], h.sessions[e.session].items[e.request];
            && (n.result.Ok? <==>
                  && e.begun.Ok? && (e.added ==> c.remotes < 16) && Live(h, e.session) && !o.cancelled
                  && Undone(o.state))
            && (n.result.Ok? ==> n.events == [RemotePublished(e.session)]
                                 && n.host == With(h, e.session, c.(remotes := c.remotes + (if e.added then 1 else 0))))
            && (n.result.Err? ==> n.host == h && n.events == [])
            && (n.result.Err? ==> n.result.error == (if e.added && c.remotes >= 16 then LimitExceeded
                                                     else if !Live(h, e.session) then SessionInvalid
                                                     else if e.begun.Ok? || o.cancelled || !Undone(o.state) then RequestConflict
                                                     else e.begun.error))
  {
  }

  // ---- Publishing a login context ------------------------------------------

  /** A prepared login context is published, as it was prepared, exactly while its
      session is live, the context usable, fewer than sixteen exist and the login
      is neither over nor cancelled; a login that fails is over, with an outcome
      that says why. */
  lemma PublishedExactly(h: Host, e: Step)
    requires Enabled(h, e) && e.Publish?
    ensures var n, c, i := Apply(h, e), h.sessions[e.session], h.sessions[e.session].issuances[e.request];
            var over := i.state in {Completed, Failed, Uncertain, Denied, Expired, Cancelled};
            && (n.result.Ok? <==>
                  && !over && !i.cancelled && Live(h, e.session) && |c.contexts| < 16
                  && e.prepared.Ok? && !e.prepared.value.cancelled && h.now < e.prepared.value.expires)
            && (n.result.Ok? <==> ContextPublished(e.session) in n.events)
            && (n.result.Ok? ==> n.host == With(h, e.session, c.(issuances := c.issuances[e.request := i.(state := Completed)],
                                                               contexts := c.contexts[e.context := e.prepared.value])))
            && (over ==> n.host == h)
            && (n.result.Err? && !over ==>
                  exists outcome :: n.host == With(h, e.session, c.(issuances := c.issuances[e.request := i.(state := outcome)]))
                    && outcome == if n.result.error == SessionInvalid then Cancelled else if n.result.error == PolicyDenied then Denied else Failed)
  {
  }

  // ---- Failing -------------------------------------------------------------

  /** A guard that fails leaves its operation over: of unknown outcome if it was
      dispatched, otherwise denied or failed as the reason says, unless it was over
      before. */
  lemma FailedIsOver(h: Host, s: SessionId, q: RequestId, reason: ErrorCode)
    requires Enabled(h, Failing(s, q, reason)) && !h.sessions[s].items[q].closed
    ensures var o, h' := h.sessions[s].items[q], Apply(h, Failing(s, q, reason)).host;
            && OnItem(h', s, q) && h'.sessions[s].items[q].closed && h'.sessions[s].items[q].cancelled
            && h'.sessions[s].items[q].state
               == (if o.state in {Completed, Failed, Uncertain, Denied, Expired, Cancelled} then o.state
                   else if o.dispatched then Uncertain
                   else if reason == PolicyDenied then Denied else Failed)
  {
  }

  /** Both sections of a failing guard are steps of the engine, */
  lemma FailIsSteps(h: Host, s: SessionId, q: RequestId, reason: ErrorCode)
    requires Inv(h) && Running(h, s, q)
    ensures var mid := Apply(h, Relinquishing(s, q)).host;
            && Enabled(mid, Failing(s, q, reason))
            && Fail(h, s, q, reason).host == Apply(mid, Failing(s, q, reason)).host
  {
    hide Inv, FailedOp, Cleared;
  }

  /** and a guard that is dropped unfinished cancels its operation and then fails:
      its operation is over, its exchange gone and its binding revoked and empty. */
  lemma DroppedIsOver(h: Host, s: SessionId, q: RequestId)
    requires Inv(h) && Running(h, s, q)
    ensures var o, h', mid := h.sessions[s].items[q], DropGuard(h, s, q).host, Apply(h, Cancelling(s, q)).host;
            && Running(mid, s, q)
            && h' == Fail(mid, s, q, if o.dispatched then ErrorCode.OutcomeUnknown else RequestConflict).host
            && OnItem(h', s, q) && h'.sessions[s].items[q].closed && h'.sessions[s].items[q].cancelled && h'.sessions[s].items[q].exchange.None?
            && h'.sessions[s].items[q].state
               == (if o.state in {Completed, Failed, Uncertain, Denied, Expired, Cancelled} then o.state
                   else if o.state == Dispatching then Uncertain else Cancelled)
            && (o.exchange.Some? ==> EndsRevoked(h', s, o.exchange.value.context))
  {
    hide Inv;
    if h.sessions[s].items[q].exchange.Some? { SessionCustody(h, s, q); }
  }

  /** A dispatch or a completion that is refused for lack of authority cancels its
      operation, in a section of its own. */
  lemma RefusedIsCancelled(h: Host, e: Step)
    requires Enabled(h, e) && (e.Dispatch? || e.Local?) && Apply(h, e).result == Err(SessionInvalid)
    ensures CancelRefused(Apply(h, e), e.session, e.request).host == Apply(h, Cancelling(e.session, e.request)).host
    ensures CancelRefused(Apply(h, e), e.session, e.request).events == []
  {
    hide Authorized, CancelledOp;
  }
}
