/** Completion over whole runs of the joint state: an operation is completed, its
    closing batch accepted and its private or remote result published in one
    step, or none of it happens. */
module JointRuns {
  import opened Prelude
  import opened Joint
  import opened JointInvariant
  import E = Engine
  import X = EngineRuns
  import I = EngineInvariant
  import M = McpContext
  import T = McpRuns
  import L = Ledger
  import O = Observation
  import F = Flow
  import R = FlowRuns
  import C = Consumers
  import Ev = Events

  // ---- One completing step -------------------------------------------------

  function ItemOf(w: World, op: Op): E.Operation
    requires E.OnItem(w.host, op.session, op.request)
  {
    w.host.sessions[op.session].items[op.request]
  }

  predicate IsCompleted(w: World, op: Op) {
    E.OnItem(w.host, op.session, op.request) && ItemOf(w, op).state == E.Completed
  }

  /** The recorder took the closing batch of `op`: it stored the numbered batch in
      every queue, or lost one that it is permitted to lose. */
  ghost predicate Closed(w: World, op: Op, p: Report, w': World)
    requires L.Inv(w.recording.ledger)
  {
    && Guarded(w, op) && Guarded(w', op)
    && w.guards[op].flow in w.recording.flows
    && var f := w.recording.flows[w.guards[op].flow];
       && |f.sequences| == F.STREAMS
       && Renders(ClosingBatch(w, op), p.emissions)
       && O.Replay(w.guards[op].streams, ClosingBatch(w, op)) == Some(w'.guards[op].streams)
       && Accepted(w.recording.ledger, F.Stamped(f.origin, f.sequences, p.emissions), f.required, w'.recording.ledger)
  }

  ghost predicate Accepted(l: L.Ledger, events: seq<Ev.Event>, required: bool, l': L.Ledger)
    requires L.Inv(l)
  {
    match L.Decide(l, events, required)
    case Lost => !required && l' == L.Advance(l, events)
    case Fits(base) =>
      && |base.slots| == |l.slots|
      && (forall i :: 0 <= i < |l.slots| ==> (base.slots[i].Some? <==> l.slots[i].Some?))
      && l' == L.Publish(l, base, events, required)
  }

  /** The private state that the operation's website exchange staged is in its
      binding, with the status it had reached. */
  predicate PublishedPrivate(w: World, op: Op, w': World)
    requires E.OnItem(w.host, op.session, op.request)
  {
    var o := ItemOf(w, op);
    o.exchange.Some? ==>
      var x := o.exchange.value;
      && X.HasContext(w'.host, op.session, x.context) && x.staged.Some?
      && w'.host.sessions[op.session].contexts[x.context].custody == x.staged
      && w'.host.sessions[op.session].contexts[x.context].status == x.status
  }

  /** The operation's remote exchange was pending until this step and its
      conversation has taken the completion. */
  ghost predicate PublishedRemote(w: World, op: Op, w': World) {
    op in w.guards && w.guards[op].remote.Some? ==>
      && HasRemote(w, op)
      && var t, c := TenureOf(w, op), RemoteOf(w, op).talk.context;
         && t.exchange.binding in w'.remotes && t.held && t.completion.Some?
         && t.exchange.serial in M.Expire(c, w.host.now).pending
         && M.Complete(c, t.exchange, t.completion.value, w.host.now) == (w'.remotes[t.exchange.binding].talk.context, Ok(()))
         && t.exchange.serial !in w'.remotes[t.exchange.binding].talk.context.pending
  }

  /** The step that completes `op`: under authority, with its closing batch and
      with everything it publishes. */
  ghost predicate Completes(w: World, e: Step, w': World, op: Op)
    requires L.Inv(w.recording.ledger) && E.OnItem(w.host, op.session, op.request)
  {
    && (e.Commit? || e.Local?) && e.op == op
    && e.report.out.calls == 1 && e.report.out.result.Ok?
    && E.Authorized(w.host, op.session) && !ItemOf(w, op).cancelled
    && Closed(w, op, e.report, w')
    && PublishedPrivate(w, op, w')
    && PublishedRemote(w, op, w')
  }

  /** A batch whose reporting call succeeded after one commit was accepted. */
  lemma ObservedClosed(w: World, op: Op, emitted: seq<O.Emitted>, p: Report, b: seq<O.StreamState>, s': R.State)
    requires L.Inv(w.recording.ledger) && Guarded(w, op) && emitted != []
    requires Observes(w.guards[op].flow, w.guards[op].streams, w.recording, emitted, p, b, s')
    requires O.Replay(w.guards[op].streams, emitted).Some? && p.verdict.Ok? && p.out.calls == 1
    ensures p.out.result.Ok?
    ensures w.guards[op].flow in w.recording.flows && |w.recording.flows[w.guards[op].flow].sequences| == F.STREAMS
    ensures Renders(emitted, p.emissions) && O.Replay(w.guards[op].streams, emitted) == Some(b)
    ensures var f := w.recording.flows[w.guards[op].flow];
            Accepted(w.recording.ledger, F.Stamped(f.origin, f.sequences, p.emissions), f.required, s'.ledger)
  {
    hide L.Inv, L.Decide, L.Overflows, F.Stamped, F.Exhausts, O.Replay;
  }

  lemma FinishingSome(streams: seq<O.StreamState>, complete: bool)
    requires |streams| == O.SLOTS
    ensures O.Finishing(streams, complete) != [] && O.Replay(streams, O.Finishing(streams, complete)).Some?
  {
    O.FinishingReplays(streams, complete);
    hide O.Ending, O.Replay;
  }

  // ---- Completed exactly when ----------------------------------------------

  /** In any step, an operation that was not completed is completed exactly by a
      step that has recorded its closing batch and published its result. */
  lemma CompletesExactly(epoch: C.Epoch, w: World, e: Step, w': World, op: Op)
    requires WorldInv(w) && Takes(epoch, w, e, w') && L.Inv(w.recording.ledger)
    requires E.OnItem(w.host, op.session, op.request) && !IsCompleted(w, op)
    ensures IsCompleted(w', op) <==> Completes(w, e, w', op)
  {
    if IsCompleted(w', op) {
      CompletedBy(epoch, w, e, w', op);
      if e.Commit? { CommitCompletes(epoch, w, e, w'); } else { LocalCompletes(epoch, w, e, w'); }
    }
    if Completes(w, e, w', op) { CompletedAfter(epoch, w, e, w', op); }
  }

  lemma CompletedBy(epoch: C.Epoch, w: World, e: Step, w': World, op: Op)
    requires Takes(epoch, w, e, w') && E.OnItem(w.host, op.session, op.request) && !IsCompleted(w, op) && IsCompleted(w', op)
    ensures (e.Commit? || e.Local?) && e.op == op
    ensures e.Commit? ==> e.report.out.calls == 1 && E.CommitCompletion(w.host, op.session, op.request, true, AnswerOf(HandedIn(w, op))).result.Ok?
    ensures e.Local? ==> e.report.out.calls == 1 && E.CompleteLocal(w.host, op.session, op.request, true).result.Ok?
  {
    hide *;
    HostTakes(epoch, w, e, w');
    TakesEnabled(epoch, w, e, w');
    CompletedParts(w, w', op);
    X.CompletesBy(w.host, HostStep(w, e), op.session, op.request);
    CompletingStep(w, e);
    CompletingOp(w.host, HostStep(w, e), op.session, op.request);
    ApplyCompletes(w.host, HostStep(w, e));
  }

  lemma CompletedParts(w: World, w': World, op: Op)
    requires E.OnItem(w.host, op.session, op.request) && !IsCompleted(w, op) && IsCompleted(w', op)
    ensures E.OnItem(w'.host, op.session, op.request) && w'.host.sessions[op.session].items[op.request].state == E.Completed
    ensures w.host.sessions[op.session].items[op.request].state != E.Completed
  {
  }

  lemma ApplyCompletes(h: E.Host, i: E.Step)
    requires E.Enabled(h, i) && (i.Commit? || i.Local?)
    ensures E.OnItem(h, i.session, i.request)
    ensures i.Commit? ==> E.Apply(h, i) == E.CommitCompletion(h, i.session, i.request, i.recorded, i.remote)
    ensures i.Local? ==> E.Apply(h, i) == E.CompleteLocal(h, i.session, i.request, i.recorded)
  {
    hide E.CommitCompletion, E.CompleteLocal;
  }

  lemma CompletingStep(w: World, e: Step)
    requires Enabled(w, e)
    ensures HostStep(w, e).Commit? ==> e.Commit? && HostStep(w, e) == E.Commit(e.op.session, e.op.request, e.report.out.calls == 1, AnswerOf(HandedIn(w, e.op)))
    ensures HostStep(w, e).Local? ==> e.Local? && HostStep(w, e) == E.Local(e.op.session, e.op.request, e.report.out.calls == 1)
  {
    hide E.Enabled, HandIn, Looked;
  }

  lemma CompletingOp(h: E.Host, i: E.Step, s: E.SessionId, q: E.RequestId)
    requires E.Enabled(h, i) && (i.Commit? || i.Local?) && E.OnItem(h, s, q) && E.OnItem(E.Apply(h, i).host, s, q)
    requires h.sessions[s].items[q].state != E.Completed && E.Apply(h, i).host.sessions[s].items[q].state == E.Completed
    ensures i.session == s && i.request == q && i.recorded && E.Apply(h, i).result.Ok?
  {
    hide E.Authorized, E.Usable;
  }

  /** What a commit that succeeds has found and done in the engine. */
  lemma HostCompletes(h: E.Host, s: E.SessionId, q: E.RequestId, answer: Result<()>)
    requires E.OnItem(h, s, q) && E.CommitCompletion(h, s, q, true, answer).result.Ok?
    ensures answer.Ok? && E.Authorized(h, s) && !h.sessions[s].items[q].cancelled
    ensures E.CommitCompletion(h, s, q, true, answer).result == Ok(()) && E.CommitCompletion(h, s, q, true, Ok(())).result.Ok?
    ensures var h' := E.CommitCompletion(h, s, q, true, answer).host;
            && E.OnItem(h', s, q) && h'.sessions[s].items[q].state == E.Completed
            && (h.sessions[s].items[q].exchange.Some? ==>
                  var x := h.sessions[s].items[q].exchange.value;
                  && X.HasContext(h', s, x.context) && x.staged.Some?
                  && h'.sessions[s].contexts[x.context].custody == x.staged
                  && h'.sessions[s].contexts[x.context].status == x.status)
  {
    hide E.Authorized, E.Usable;
  }

  /** The parts of a commit step that completion is about. */
  lemma CommitFacts(epoch: C.Epoch, w: World, e: Step, w': World)
    requires Takes(epoch, w, e, w') && e.Commit?
    ensures L.Inv(w.recording.ledger) && Guarded(w, e.op) && E.OnItem(w.host, e.op.session, e.op.request) && e.op in w'.guards
    ensures e.report.verdict == E.CommitCompletion(w.host, e.op.session, e.op.request, true, AnswerOf(HandedIn(w, e.op))).result
    ensures w'.host == E.CommitCompletion(w.host, e.op.session, e.op.request, e.report.out.calls == 1, AnswerOf(HandedIn(w, e.op))).host
    ensures Observes(w.guards[e.op].flow, w.guards[e.op].streams, w.recording, ClosingBatch(w, e.op), e.report,
                     w'.guards[e.op].streams, w'.recording)
  {
    hide L.Inv, Observes, E.CommitCompletion, HandIn, O.Finishing;
  }

  lemma LocalFacts(epoch: C.Epoch, w: World, e: Step, w': World)
    requires Takes(epoch, w, e, w') && e.Local?
    ensures L.Inv(w.recording.ledger) && Guarded(w, e.op) && E.OnItem(w.host, e.op.session, e.op.request) && e.op in w'.guards
    ensures w.guards[e.op].remote.None? && ItemOf(w, e.op).exchange.None?
    ensures e.report.verdict == E.CompleteLocal(w.host, e.op.session, e.op.request, true).result
    ensures w'.host == E.CompleteLocal(w.host, e.op.session, e.op.request, e.report.out.calls == 1).host
    ensures Observes(w.guards[e.op].flow, w.guards[e.op].streams, w.recording, ClosingBatch(w, e.op), e.report,
                     w'.guards[e.op].streams, w'.recording)
  {
    hide L.Inv, Observes, E.CompleteLocal, O.Finishing;
  }

  lemma StreamsFit(w: World, op: Op)
    requires Guarded(w, op)
    ensures |w.guards[op].streams| == O.SLOTS && op in w.guards
    ensures ClosingBatch(w, op) == O.Finishing(w.guards[op].streams, true)
  {
  }

  lemma ClosedBy(w: World, op: Op, p: Report, w': World)
    requires L.Inv(w.recording.ledger) && Guarded(w, op) && op in w'.guards && p.verdict.Ok? && p.out.calls == 1
    requires Observes(w.guards[op].flow, w.guards[op].streams, w.recording, ClosingBatch(w, op), p, w'.guards[op].streams, w'.recording)
    ensures Closed(w, op, p, w') && p.out.result.Ok?
  {
    FinishingSome(w.guards[op].streams, true);
    hide L.Inv, Observes, Accepted, O.Finishing, O.Replay;
    ObservedClosed(w, op, ClosingBatch(w, op), p, w'.guards[op].streams, w'.recording);
    ObservedSlots(w.guards[op].flow, w.guards[op].streams, w.recording, ClosingBatch(w, op), p, w'.guards[op].streams, w'.recording);
  }

  /** A succeeding commit has handed the remote exchange in. */
  lemma RemotePublished(epoch: C.Epoch, w: World, e: Step, w': World)
    requires WorldInv(w) && Takes(epoch, w, e, w') && e.Commit? && e.report.out.calls == 1 && E.OnItem(w.host, e.op.session, e.op.request)
    requires AnswerOf(HandedIn(w, e.op)).Ok? && Asked(w, e.op)
    ensures PublishedRemote(w, e.op, w')
  {
    CommitParts(epoch, w, e, w');
    if w.guards[e.op].remote.Some? {
      HeldRuns(w, e.op);
      AnswerHanded(w, e.op);
      var t, r := TenureOf(w, e.op), RemoteOf(w, e.op);
      var h := HandIn(r, t, w.host.now);
      HandsIn(w, e);
      hide *;
      HandedTenure(t.exchange.binding, r, t, w.host.now);
      NotPending(h.remote, h.tenure);
      HandedPublished(w, e.op, w', h);
    }
  }

  lemma HandsIn(w: World, e: Step)
    requires e.Commit? && Enabled(w, e) && e.report.out.calls == 1 && HasRemote(w, e.op) && Asked(w, e.op)
    ensures Hands(w, e)
  {
  }

  lemma AnswerHanded(w: World, op: Op)
    requires HasRemote(w, op) && AnswerOf(HandedIn(w, op)).Ok?
    ensures HandIn(RemoteOf(w, op), TenureOf(w, op), w.host.now).answer.Ok?
  {
    hide HandIn;
  }

  lemma NotPending(r: Remote, t: Tenure)
    requires TenureInv(r, t) && !t.held
    ensures t.exchange.serial !in r.talk.context.pending
  {
  }

  lemma HandedPublished(w: World, op: Op, w': World, h: Handed)
    requires HasRemote(w, op)
    requires var t := TenureOf(w, op);
             && t.held && t.completion.Some? && h.tenure.exchange == t.exchange
             && t.exchange.serial in M.Expire(RemoteOf(w, op).talk.context, w.host.now).pending
             && M.Complete(RemoteOf(w, op).talk.context, t.exchange, t.completion.value, w.host.now) == (h.remote.talk.context, Ok(()))
             && w'.remotes == w.remotes[t.exchange.binding := h.remote]
    requires h.tenure.exchange.serial !in h.remote.talk.context.pending
    ensures PublishedRemote(w, op, w')
  {
    hide M.Complete, M.Expire;
  }

  lemma CommitCompletes(epoch: C.Epoch, w: World, e: Step, w': World)
    requires WorldInv(w) && Takes(epoch, w, e, w') && e.Commit? && e.report.out.calls == 1
    requires L.Inv(w.recording.ledger) && E.OnItem(w.host, e.op.session, e.op.request)
    requires E.CommitCompletion(w.host, e.op.session, e.op.request, true, AnswerOf(HandedIn(w, e.op))).result.Ok?
    ensures Completes(w, e, w', e.op)
  {
    hide *;
    CommitFacts(epoch, w, e, w');
    HostCompletes(w.host, e.op.session, e.op.request, AnswerOf(HandedIn(w, e.op)));
    AskedWhen(w, e.op);
    ClosedBy(w, e.op, e.report, w');
    RemotePublished(epoch, w, e, w');
    CompletesParts(w, e, w');
  }

  lemma AskedWhen(w: World, op: Op)
    requires E.OnItem(w.host, op.session, op.request)
    ensures E.CommitCompletion(w.host, op.session, op.request, true, Ok(())).result.Ok? ==> Asked(w, op)
  {
    hide E.CommitCompletion;
  }

  lemma CompletesParts(w: World, e: Step, w': World)
    requires L.Inv(w.recording.ledger) && e.Commit? && E.OnItem(w.host, e.op.session, e.op.request)
    requires e.report.out.calls == 1 && e.report.out.result.Ok?
    requires E.Authorized(w.host, e.op.session) && !w.host.sessions[e.op.session].items[e.op.request].cancelled
    requires Closed(w, e.op, e.report, w') && PublishedRemote(w, e.op, w')
    requires w.host.sessions[e.op.session].items[e.op.request].exchange.Some? ==>
               var x := w.host.sessions[e.op.session].items[e.op.request].exchange.value;
               && X.HasContext(w'.host, e.op.session, x.context) && x.staged.Some?
               && w'.host.sessions[e.op.session].contexts[x.context].custody == x.staged
               && w'.host.sessions[e.op.session].contexts[x.context].status == x.status
    ensures Completes(w, e, w', e.op)
  {
    hide L.Inv, Closed, PublishedRemote, E.Authorized;
  }

  lemma LocalCompletes(epoch: C.Epoch, w: World, e: Step, w': World)
    requires Takes(epoch, w, e, w') && e.Local? && e.report.out.calls == 1
    requires L.Inv(w.recording.ledger) && E.OnItem(w.host, e.op.session, e.op.request)
    requires E.CompleteLocal(w.host, e.op.session, e.op.request, true).result.Ok?
    ensures Completes(w, e, w', e.op)
  {
    LocalFacts(epoch, w, e, w');
    hide Takes, Observes, O.Finishing, Closed, L.Inv, Guarded;
    ClosedBy(w, e.op, e.report, w');
  }

  /** After a commit ran, the recorder reports what it answered. */
  lemma ReportedVerdict(w: World, op: Op, emitted: seq<O.Emitted>, p: Report, b: seq<O.StreamState>, s': R.State)
    requires L.Inv(w.recording.ledger) && Guarded(w, op)
    requires Observes(w.guards[op].flow, w.guards[op].streams, w.recording, emitted, p, b, s')
    ensures p.out.calls == 1 ==> p.out.result == p.verdict
    ensures p.out.calls == 0 ==> p.out.result.Err?
    ensures p.out.calls <= 1
  {
    hide L.Inv, L.Decide, L.Overflows, F.Stamped, F.Exhausts, O.Replay;
  }

  lemma CompletedAfter(epoch: C.Epoch, w: World, e: Step, w': World, op: Op)
    requires Takes(epoch, w, e, w') && L.Inv(w.recording.ledger) && E.OnItem(w.host, op.session, op.request)
    requires (e.Commit? || e.Local?) && e.op == op && e.report.out.calls == 1 && e.report.out.result.Ok?
    ensures IsCompleted(w', op)
  {
    hide *;
    if e.Commit? { CommitFacts(epoch, w, e, w'); } else { LocalFacts(epoch, w, e, w'); }
    StreamsFit(w, op);
    ReportedVerdict(w, op, ClosingBatch(w, op), e.report, w'.guards[op].streams, w'.recording);
    if e.Commit? {
      HostCompletes(w.host, op.session, op.request, AnswerOf(HandedIn(w, op)));
    } else {
      HostCompletesLocally(w.host, op.session, op.request);
    }
    CompletedItem(w', op);
  }

  lemma HostCompletesLocally(h: E.Host, s: E.SessionId, q: E.RequestId)
    requires E.OnItem(h, s, q) && E.CompleteLocal(h, s, q, true).result.Ok?
    ensures var h' := E.CompleteLocal(h, s, q, true).host; E.OnItem(h', s, q) && h'.sessions[s].items[q].state == E.Completed
  {
    hide E.Authorized;
  }

  lemma CompletedItem(w: World, op: Op)
    ensures E.OnItem(w.host, op.session, op.request) && w.host.sessions[op.session].items[op.request].state == E.Completed ==> IsCompleted(w, op)
  {
  }

  // ---- A rejected completion -----------------------------------------------

  /** Nothing of a conversation's result shows: it is as it was, or expired, or
      only without the exchange that was refused. */
  predicate Unpublished(c: M.Context, c': M.Context) {
    && (c'.native == c.native || c'.native.None?)
    && (c'.phase == c.phase || M.Over(c'.phase))
    && c'.next == c.next
  }

  lemma HandedUnpublished(r: Remote, t: Tenure, now: int)
    requires HandIn(r, t, now).answer.Err?
    ensures Unpublished(r.talk.context, HandIn(r, t, now).remote.talk.context)
  {
  }

  /** A refusal of the whole commit is a refusal by the engine or by the
      conversation; the engine's bindings stay as they were. */
  lemma HostRejects(h: E.Host, s: E.SessionId, q: E.RequestId, called: bool, answer: Result<()>)
    requires E.OnItem(h, s, q)
    requires called ==> E.CommitCompletion(h, s, q, true, answer).result.Err?
    ensures var h' := E.CommitCompletion(h, s, q, called, answer).host;
            && h'.sessions.Keys == h.sessions.Keys
            && (forall t :: t in h.sessions && t != s ==> h'.sessions[t] == h.sessions[t])
            && h'.sessions[s].contexts == h.sessions[s].contexts
            && q in h'.sessions[s].items && h'.sessions[s].items[q].state == h.sessions[s].items[q].state
    ensures called && E.CommitCompletion(h, s, q, true, Ok(())).result.Ok? ==> answer.Err?
  {
    hide E.Authorized, E.Usable;
  }

  /** A completion whose recording call fails completes nothing and publishes
      nothing: no binding of the engine changes, no conversation shows a result,
      and when the commit itself refused, the flows and the recorder are exactly
      as they were, numbers included. */
  lemma RejectedCompletion(epoch: C.Epoch, w: World, e: Step, w': World)
    requires WorldInv(w) && Takes(epoch, w, e, w') && e.Commit? && e.report.out.result.Err?
    ensures E.OnItem(w.host, e.op.session, e.op.request) && E.OnItem(w'.host, e.op.session, e.op.request)
    ensures ItemOf(w', e.op).state == ItemOf(w, e.op).state
    ensures w'.host.sessions[e.op.session].contexts == w.host.sessions[e.op.session].contexts
    ensures w'.host.sessions.Keys == w.host.sessions.Keys
    ensures forall t :: t in w.host.sessions && t != e.op.session ==> w'.host.sessions[t] == w.host.sessions[t]
    ensures forall b :: b in w.remotes ==> b in w'.remotes && Unpublished(w.remotes[b].talk.context, w'.remotes[b].talk.context)
    ensures e.report.out.calls == 1 ==> w'.recording == w.recording
    ensures w'.recording.ledger.store == w.recording.ledger.store && w'.recording.ledger.owner == w.recording.ledger.owner
    ensures e.op in w.guards && e.op in w'.guards && w'.guards[e.op].streams == w.guards[e.op].streams
  {
    CommitFacts(epoch, w, e, w');
    RejectedRecord(w, e.op, ClosingBatch(w, e.op), e.report, w'.guards[e.op].streams, w'.recording);
    ReportedVerdict(w, e.op, ClosingBatch(w, e.op), e.report, w'.guards[e.op].streams, w'.recording);
    HostRejects(w.host, e.op.session, e.op.request, e.report.out.calls == 1, AnswerOf(HandedIn(w, e.op)));
    RejectedRemotes(epoch, w, e, w');
    hide *;
    StreamsFit(w, e.op);
  }

  lemma RejectedRecord(w: World, op: Op, emitted: seq<O.Emitted>, p: Report, b: seq<O.StreamState>, s': R.State)
    requires L.Inv(w.recording.ledger) && Guarded(w, op) && p.out.result.Err?
    requires Observes(w.guards[op].flow, w.guards[op].streams, w.recording, emitted, p, b, s')
    ensures b == w.guards[op].streams
    ensures p.out.calls == 1 ==> s' == w.recording
    ensures s'.ledger.store == w.recording.ledger.store && s'.ledger.owner == w.recording.ledger.owner
  {
    hide L.Inv, L.Decide, L.Overflows, F.Stamped, F.Exhausts, O.Replay, L.Publish, F.Advanced, L.SlotMoved;
    if O.Replay(w.guards[op].streams, emitted).Some? && p.out.calls == 1 {
      var f := w.recording.flows[w.guards[op].flow];
      assert s'.flows[w.guards[op].flow].sequences == f.sequences;
      assert s'.flows == w.recording.flows;
    }
  }

  lemma RejectedRemotes(epoch: C.Epoch, w: World, e: Step, w': World)
    requires WorldInv(w) && Takes(epoch, w, e, w') && e.Commit? && E.OnItem(w.host, e.op.session, e.op.request)
    requires e.report.out.calls == 1 && Asked(w, e.op) ==> AnswerOf(HandedIn(w, e.op)).Err?
    ensures forall b :: b in w.remotes ==> b in w'.remotes && Unpublished(w.remotes[b].talk.context, w'.remotes[b].talk.context)
  {
    hide *;
    CommitParts(epoch, w, e, w');
    forall b | b in w.remotes ensures Unpublished(w.remotes[b].talk.context, w.remotes[b].talk.context) {
      SameUnpublished(w.remotes[b].talk.context);
    }
    if Hands(w, e) {
      HandsAsked(w, e);
      AnswerRefused(w, e.op);
      HandedUnpublished(RemoteOf(w, e.op), TenureOf(w, e.op), w.host.now);
      KnownRemote(w, e.op);
    }
  }

  lemma SameUnpublished(c: M.Context)
    ensures Unpublished(c, c)
  {
  }

  lemma KnownRemote(w: World, op: Op)
    requires HasRemote(w, op)
    ensures TenureOf(w, op).exchange.binding in w.remotes && RemoteOf(w, op) == w.remotes[TenureOf(w, op).exchange.binding]
  {
  }

  lemma HandsAsked(w: World, e: Step)
    requires e.Commit? && Enabled(w, e) && Hands(w, e)
    ensures e.report.out.calls == 1 && HasRemote(w, e.op) && E.OnItem(w.host, e.op.session, e.op.request) && Asked(w, e.op)
  {
    hide Asked;
  }

  lemma AnswerRefused(w: World, op: Op)
    requires HasRemote(w, op) && AnswerOf(HandedIn(w, op)).Err?
    ensures HandIn(RemoteOf(w, op), TenureOf(w, op), w.host.now).answer.Err?
  {
    hide HandIn;
  }

  // ---- Who publishes in a conversation -------------------------------------

  /** The conversation shows a result that it did not show before. */
  predicate Advances(c: M.Context, c': M.Context) {
    || (c'.native.Some? && c'.native != c.native)
    || (c'.phase != c.phase && (c'.phase == M.AwaitingInitialized || c'.phase == M.Ready))
  }

  lemma TalkAdvancesNot(s: T.State, said: T.Step, s': T.State)
    requires T.Taken(s, said, s') && !said.Finish?
    ensures !Advances(s.context, s'.context)
  {
    hide M.Clashes, M.Full, M.StopTarget, M.Cancellable;
  }

  lemma LookedAdvancesNot(r: Remote, t: Tenure, now: int)
    ensures !Advances(r.talk.context, Looked(r, t, now).0.talk.context)
    ensures !Advances(r.talk.context, GivenUp(r, t, now).talk.context)
    ensures !Advances(r.talk.context, M.Invalidated(r.talk.context))
  {
  }

  lemma RespondedAdvancesNot(c: M.Context, x: M.Exchange, admitted: Result<()>, now: int)
    ensures !Advances(c, M.StartResponse(c, x, admitted, now).0)
  {
  }

  /** A conversation advances only by the completion of the operation whose
      exchange it takes in that step. */
  lemma AdvancesByCompletion(epoch: C.Epoch, w: World, e: Step, w': World, b: M.BindingId)
    requires WorldInv(w) && Takes(epoch, w, e, w') && L.Inv(w.recording.ledger) && b in w.remotes && b in w'.remotes
    requires Advances(w.remotes[b].talk.context, w'.remotes[b].talk.context)
    ensures e.Commit? && HasRemote(w, e.op) && TenureOf(w, e.op).exchange.binding == b
    ensures E.OnItem(w.host, e.op.session, e.op.request) && Completes(w, e, w', e.op) && IsCompleted(w', e.op)
  {
    if !e.Commit? {
      OthersAdvanceNot(epoch, w, e, w', b);
    } else {
      CommitAdvances(epoch, w, e, w', b);
    }
  }

  lemma CommitAdvances(epoch: C.Epoch, w: World, e: Step, w': World, b: M.BindingId)
    requires WorldInv(w) && Takes(epoch, w, e, w') && e.Commit? && L.Inv(w.recording.ledger) && b in w.remotes && b in w'.remotes
    requires Advances(w.remotes[b].talk.context, w'.remotes[b].talk.context)
    ensures HasRemote(w, e.op) && TenureOf(w, e.op).exchange.binding == b
    ensures E.OnItem(w.host, e.op.session, e.op.request) && Completes(w, e, w', e.op) && IsCompleted(w', e.op)
  {
    hide *;
    CommitFacts(epoch, w, e, w');
    StreamsFit(w, e.op);
    if e.report.out.result.Err? {
      RejectedCompletion(epoch, w, e, w');
      UnpublishedAdvancesNot(w.remotes[b].talk.context, w'.remotes[b].talk.context);
    } else {
      ReportedVerdict(w, e.op, ClosingBatch(w, e.op), e.report, w'.guards[e.op].streams, w'.recording);
      CommitCompletes(epoch, w, e, w');
      CompletedAfter(epoch, w, e, w', e.op);
      CommitParts(epoch, w, e, w');
      SameAdvancesNot(w.remotes[b].talk.context);
      if Hands(w, e) { HandsAsked(w, e); }
    }
  }

  lemma UnpublishedAdvancesNot(c: M.Context, c': M.Context)
    requires Unpublished(c, c')
    ensures !Advances(c, c')
  {
  }

  lemma OthersAdvanceNot(epoch: C.Epoch, w: World, e: Step, w': World, b: M.BindingId)
    requires Takes(epoch, w, e, w') && !e.Commit? && b in w.remotes && b in w'.remotes
    ensures !Advances(w.remotes[b].talk.context, w'.remotes[b].talk.context)
  {
    hide L.Inv, R.Taken, Observes, T.Taken, Looked, GivenUp, M.StartResponse, M.Invalidated, E.Apply, E.Settle, E.PrepareCompletion,
         E.CompleteLocal, E.PrepareRemote, Advances;
    var c := w.remotes[b].talk.context;
    SameAdvancesNot(c);
    match e
    case Talk(k, said) => TalkAdvancesNot(w.remotes[k].talk, said, w'.remotes[k].talk);
    case Sever(k) => LookedAdvancesNot(w.remotes[k], Tenure(M.Exchange(0, 0, M.Ping, None, None), false, false, None), 0);
    case Prepare(op) => if HasRemote(w, op) { LookedAdvancesNot(RemoteOf(w, op), TenureOf(w, op), w.host.now); }
    case GiveUp(op) => LookedAdvancesNot(RemoteOf(w, op), TenureOf(w, op), w.host.now);
    case Respond(op, admitted) => RespondedAdvancesNot(RemoteOf(w, op).talk.context, TenureOf(w, op).exchange, admitted, w.host.now);
    case Admit(_, k, _, _, _, _) =>
      var talk := AdmitParts(epoch, w, e, w');
      if talk.Some? { TalkAdvancesNot(Begun(w, e.op.session, k, e.created).talk, T.Begin(e.request, e.op.request, e.valid, w.host.now, e.begun), talk.value); }
    case _ =>
  }

  lemma SameAdvancesNot(c: M.Context)
    ensures !Advances(c, c)
  {
  }

  // ---- Whole runs ----------------------------------------------------------

  datatype Run = Run(epoch: C.Epoch, states: seq<World>, steps: seq<Step>)

  ghost predicate StepAt(r: Run, k: nat)
    requires k < |r.steps| && |r.states| == |r.steps| + 1
  {
    L.Inv(r.states[k].recording.ledger) ==> Taken(r.epoch, r.states[k], r.steps[k], r.states[k + 1])
  }

  /** Session ids are random and so never reused. */
  predicate NewIds(r: Run, k: nat)
    requires k < |r.steps| && |r.states| == |r.steps| + 1
  {
    r.steps[k].Host? && r.steps[k].inner.Create? ==> forall j :: 0 <= j <= k ==> r.steps[k].inner.session !in r.states[j].host.sessions
  }

  ghost predicate Starts(w: World) {
    && w.host.sessions == map[] && w.host.bytes == 0 && w.remotes == map[] && w.guards == map[]
    && exists maxEvents: nat, maxBytes: nat :: w.recording == R.State(L.Initial(maxEvents, maxBytes), map[])
  }

  ghost predicate IsRun(r: Run) {
    && |r.states| == |r.steps| + 1
    && Starts(r.states[0])
    && (forall k :: 0 <= k < |r.steps| ==> StepAt(r, k) && NewIds(r, k))
  }

  lemma StartInv(w: World)
    requires Starts(w)
    ensures WorldInv(w)
  {
    var maxEvents: nat, maxBytes: nat :| w.recording == R.State(L.Initial(maxEvents, maxBytes), map[]);
    EmptyRecording(maxEvents, maxBytes);
    X.EmptyInv(w.host);
    hide I.Inv, R.StateInv;
  }

  lemma EmptyRecording(maxEvents: nat, maxBytes: nat)
    ensures R.StateInv(R.State(L.Initial(maxEvents, maxBytes), map[]))
  {
    hide L.Inv;
    R.StartsEmpty(maxEvents, maxBytes);
  }

  /** The joint invariant holds in every state of every run. */
  lemma {:induction false} RunInv(r: Run, k: nat)
    requires IsRun(r) && k < |r.states|
    ensures WorldInv(r.states[k])
  {
    hide WorldInv, Taken, L.Inv, Starts;
    if k == 0 {
      StartInv(r.states[0]);
    } else {
      RunInv(r, k - 1);
      assert StepAt(r, k - 1);
      LedgerFits(r.states[k - 1]);
      assert Takes(r.epoch, r.states[k - 1], r.steps[k - 1], r.states[k]);
      StepInv(r.epoch, r.states[k - 1], r.steps[k - 1], r.states[k]);
    }
  }

  lemma RunStep(r: Run, k: nat)
    requires IsRun(r) && k < |r.steps|
    ensures |r.states| == |r.steps| + 1
    ensures WorldInv(r.states[k]) && L.Inv(r.states[k].recording.ledger) && Takes(r.epoch, r.states[k], r.steps[k], r.states[k + 1])
  {
    hide WorldInv, Taken, L.Inv, Starts;
    RunInv(r, k);
    assert StepAt(r, k);
    LedgerFits(r.states[k]);
  }

  /** The engine's part of a run is a run of the engine, */
  function HostRun(r: Run): X.Run
    requires |r.states| == |r.steps| + 1 && forall k :: 0 <= k < |r.steps| ==> Enabled(r.states[k], r.steps[k])
  {
    X.Run(seq(|r.states|, k requires 0 <= k < |r.states| => r.states[k].host),
          seq(|r.steps|, k requires 0 <= k < |r.steps| => HostStep(r.states[k], r.steps[k])))
  }

  lemma AllEnabled(r: Run)
    requires IsRun(r)
    ensures |r.states| == |r.steps| + 1 && forall k :: 0 <= k < |r.steps| ==> Enabled(r.states[k], r.steps[k])
  {
    hide WorldInv, L.Inv, Starts, Enabled;
    forall k | 0 <= k < |r.steps| ensures Enabled(r.states[k], r.steps[k]) {
      RunStep(r, k);
      TakesEnabled(r.epoch, r.states[k], r.steps[k], r.states[k + 1]);
    }
  }

  lemma TakesEnabled(epoch: C.Epoch, w: World, e: Step, w': World)
    requires Takes(epoch, w, e, w')
    ensures Enabled(w, e)
  {
    hide Enabled, L.Inv;
  }

  lemma HostRuns(r: Run)
    requires IsRun(r)
    ensures |r.states| == |r.steps| + 1 && forall k :: 0 <= k < |r.steps| ==> Enabled(r.states[k], r.steps[k])
    ensures X.IsRun(HostRun(r))
  {
    AllEnabled(r);
    hide IsRun, Starts, WorldInv, L.Inv, Enabled, X.StepAt, X.NewIds;
    var h := HostRun(r);
    HostStarts(r);
    forall k | 0 <= k < |h.steps| ensures X.StepAt(h, k) && X.NewIds(h, k) {
      HostRunStep(r, k);
    }
  }

  lemma HostStarts(r: Run)
    requires IsRun(r)
    ensures |r.states| == |r.steps| + 1 && r.states[0].host.sessions == map[] && r.states[0].host.bytes == 0
  {
    hide L.Initial, StepAt, NewIds;
  }

  lemma HostRunStep(r: Run, k: nat)
    requires IsRun(r) && k < |r.steps|
    requires |r.states| == |r.steps| + 1 && forall j :: 0 <= j < |r.steps| ==> Enabled(r.states[j], r.steps[j])
    ensures X.StepAt(HostRun(r), k) && X.NewIds(HostRun(r), k)
  {
    hide Starts, StepAt, WorldInv, L.Inv, Enabled, Taken, E.Apply, E.Enabled, HostStep;
    assert NewIds(r, k);
    RunStep(r, k);
    hide IsRun;
    HostTakes(r.epoch, r.states[k], r.steps[k], r.states[k + 1]);
    if HostStep(r.states[k], r.steps[k]).Create? { CreatesAlone(r.states[k], r.steps[k]); }
  }

  lemma CreatesAlone(w: World, e: Step)
    requires Enabled(w, e) && HostStep(w, e).Create?
    ensures e.Host? && e.inner == HostStep(w, e)
  {
    hide E.Enabled, HandIn, Looked;
  }

  /** and the recording part is a run of the flows over one recorder. */
  ghost function FlowsRun(r: Run): R.Run
    requires |r.states| == |r.steps| + 1 && forall k :: 0 <= k < |r.steps| ==> Enabled(r.states[k], r.steps[k])
  {
    R.Run(r.epoch, seq(|r.states|, k requires 0 <= k < |r.states| => r.states[k].recording),
          seq(|r.steps|, k requires 0 <= k < |r.steps| => RecordingStep(r.states[k], r.steps[k])))
  }

  lemma FlowsRuns(r: Run)
    requires IsRun(r)
    ensures |r.states| == |r.steps| + 1 && forall k :: 0 <= k < |r.steps| ==> Enabled(r.states[k], r.steps[k])
    ensures R.IsRun(FlowsRun(r))
  {
    AllEnabled(r);
    hide IsRun, Starts, WorldInv, L.Inv, Enabled, R.StepAt;
    var f := FlowsRun(r);
    FlowsStart(r);
    forall k | 0 <= k < |f.steps| ensures R.StepAt(f, k) {
      FlowsRunStep(r, k);
    }
  }

  lemma FlowsStart(r: Run)
    requires IsRun(r)
    ensures |r.states| == |r.steps| + 1
    ensures exists maxEvents: nat, maxBytes: nat :: r.states[0].recording == R.State(L.Initial(maxEvents, maxBytes), map[])
  {
    hide L.Initial, StepAt, NewIds;
  }

  lemma FlowsRunStep(r: Run, k: nat)
    requires IsRun(r) && k < |r.steps|
    requires |r.states| == |r.steps| + 1 && forall j :: 0 <= j < |r.steps| ==> Enabled(r.states[j], r.steps[j])
    ensures R.StepAt(FlowsRun(r), k)
  {
    hide IsRun, Starts, StepAt, WorldInv, L.Inv, Enabled, Taken, R.Taken, RecordingStep;
    RunStep(r, k);
    RecordingTakes(r.epoch, r.states[k], r.steps[k], r.states[k + 1]);
  }

  /** An operation that has appeared is not completed yet. */
  lemma Appears(epoch: C.Epoch, w: World, e: Step, w': World, op: Op)
    requires Takes(epoch, w, e, w') && !E.OnItem(w.host, op.session, op.request)
    ensures !IsCompleted(w', op)
  {
    HostTakes(epoch, w, e, w');
    X.AppearsReceived(w.host, HostStep(w, e), op.session, op.request);
  }

  /** In every run, an operation that is completed was completed by one step that
      had its closing batch recorded, under authority, and published its private
      or remote result. */
  lemma {:induction false} CompletedBefore(r: Run, k: nat, op: Op) returns (j: nat)
    requires IsRun(r) && k < |r.states| && IsCompleted(r.states[k], op)
    ensures |r.states| == |r.steps| + 1 && j < k
    ensures L.Inv(r.states[j].recording.ledger) && E.OnItem(r.states[j].host, op.session, op.request)
    ensures !IsCompleted(r.states[j], op) && Completes(r.states[j], r.steps[j], r.states[j + 1], op)
    decreases k
  {
    hide *;
    NotAtStart(r, op);
    RunStep(r, k - 1);
    var w, e, w' := r.states[k - 1], r.steps[k - 1], r.states[k];
    if IsCompleted(w, op) {
      j := CompletedBefore(r, k - 1, op);
    } else {
      j := k - 1;
      if !E.OnItem(w.host, op.session, op.request) {
        Appears(r.epoch, w, e, w', op);
      } else {
        CompletesExactly(r.epoch, w, e, w', op);
      }
    }
  }

  lemma NotAtStart(r: Run, op: Op)
    requires IsRun(r)
    ensures |r.states| == |r.steps| + 1 && !IsCompleted(r.states[0], op)
  {
  }

  /** In every state of every run, a guard that is over, completed, failed or
      dropped, holds no remote exchange, and none of its is pending. */
  lemma ExchangesGone(r: Run, k: nat, op: Op)
    requires IsRun(r) && k < |r.states| && op in r.states[k].guards && r.states[k].guards[op].remote.Some?
    requires !E.Running(r.states[k].host, op.session, op.request)
    ensures HasRemote(r.states[k], op) && !TenureOf(r.states[k], op).held
    ensures TenureOf(r.states[k], op).exchange.serial !in RemoteOf(r.states[k], op).talk.context.pending
  {
    hide IsRun, I.Inv, R.StateInv, RemoteInv;
    RunInv(r, k);
    assert GuardInv(r.states[k].host, r.states[k].remotes, op, r.states[k].guards[op]);
  }

  /** After admission closes no operation is completed and no conversation shows a
      new result, in any interleaving. */
  lemma NothingPublishedAfter(r: Run, i: nat, k: nat)
    requires IsRun(r) && i < k < |r.steps| && r.steps[i] == Host(E.Retire)
    ensures |r.states| == |r.steps| + 1
    ensures forall b :: b in r.states[k].remotes && b in r.states[k + 1].remotes ==>
              !Advances(r.states[k].remotes[b].talk.context, r.states[k + 1].remotes[b].talk.context)
    ensures forall op: Op :: E.OnItem(r.states[k].host, op.session, op.request) && !IsCompleted(r.states[k], op) ==> !IsCompleted(r.states[k + 1], op)
  {
    hide *;
    HostRuns(r);
    RunStep(r, k);
    NoneAuthorized(r, i, k);
    var w, e, w' := r.states[k], r.steps[k], r.states[k + 1];
    forall b | b in w.remotes && b in w'.remotes ensures !Advances(w.remotes[b].talk.context, w'.remotes[b].talk.context) {
      if Advances(w.remotes[b].talk.context, w'.remotes[b].talk.context) { AdvanceAuthorized(r.epoch, w, e, w', b); }
    }
    forall op: Op | E.OnItem(w.host, op.session, op.request) && !IsCompleted(w, op) ensures !IsCompleted(w', op) {
      CompletesExactly(r.epoch, w, e, w', op);
      if IsCompleted(w', op) { CompletesAuthorized(w, e, w', op); }
    }
  }

  lemma NoneAuthorized(r: Run, i: nat, k: nat)
    requires |r.states| == |r.steps| + 1 && forall k :: 0 <= k < |r.steps| ==> Enabled(r.states[k], r.steps[k])
    requires X.IsRun(HostRun(r)) && i < k < |r.steps| && r.steps[i] == Host(E.Retire)
    ensures forall s :: !E.Authorized(r.states[k].host, s)
  {
    hide X.IsRun, Enabled;
    X.StaysRetired(HostRun(r), i, k);
  }

  /** Nor, after one session is revoked, does anything of that session: none of
      its operations completes and no conversation it owns shows a new result. */
  lemma NothingPublishedOf(r: Run, i: nat, k: nat, s: E.SessionId)
    requires IsRun(r) && i < k < |r.steps| && r.steps[i] == Host(E.RetireOne(s))
    ensures |r.states| == |r.steps| + 1
    ensures forall b :: b in r.states[k].remotes && b in r.states[k + 1].remotes && r.states[k].remotes[b].owner == s ==>
              !Advances(r.states[k].remotes[b].talk.context, r.states[k + 1].remotes[b].talk.context)
    ensures forall op: Op :: op.session == s && E.OnItem(r.states[k].host, s, op.request) && !IsCompleted(r.states[k], op) ==>
              !IsCompleted(r.states[k + 1], op)
  {
    hide *;
    HostRuns(r);
    RunStep(r, k);
    NotAuthorized(r, i, k, s);
    var w, e, w' := r.states[k], r.steps[k], r.states[k + 1];
    forall b | b in w.remotes && b in w'.remotes && w.remotes[b].owner == s
      ensures !Advances(w.remotes[b].talk.context, w'.remotes[b].talk.context)
    {
      if Advances(w.remotes[b].talk.context, w'.remotes[b].talk.context) {
        AdvanceAuthorized(r.epoch, w, e, w', b);
      }
    }
    forall op: Op | op.session == s && E.OnItem(w.host, s, op.request) && !IsCompleted(w, op) ensures !IsCompleted(w', op) {
      CompletesExactly(r.epoch, w, e, w', op);
      if IsCompleted(w', op) { CompletesAuthorized(w, e, w', op); }
    }
  }

  /** A conversation advances only under the authority of the session it belongs to. */
  lemma AdvanceAuthorized(epoch: C.Epoch, w: World, e: Step, w': World, b: M.BindingId)
    requires WorldInv(w) && Takes(epoch, w, e, w') && L.Inv(w.recording.ledger) && b in w.remotes && b in w'.remotes
    requires Advances(w.remotes[b].talk.context, w'.remotes[b].talk.context)
    ensures E.Authorized(w.host, w.remotes[b].owner)
  {
    hide *;
    AdvancesByCompletion(epoch, w, e, w', b);
    HeldRuns(w, e.op);
    KnownRemote(w, e.op);
    CompletesAuthorized(w, e, w', e.op);
  }

  lemma CompletesAuthorized(w: World, e: Step, w': World, op: Op)
    requires L.Inv(w.recording.ledger) && E.OnItem(w.host, op.session, op.request) && Completes(w, e, w', op)
    ensures E.Authorized(w.host, op.session)
  {
    hide L.Inv, Closed, PublishedPrivate, PublishedRemote, E.Authorized;
  }

  lemma NotAuthorized(r: Run, i: nat, k: nat, s: E.SessionId)
    requires |r.states| == |r.steps| + 1 && forall k :: 0 <= k < |r.steps| ==> Enabled(r.states[k], r.steps[k])
    requires X.IsRun(HostRun(r)) && i < k < |r.steps| && r.steps[i] == Host(E.RetireOne(s))
    ensures !E.Authorized(r.states[k].host, s)
  {
    hide X.IsRun, Enabled;
    X.StaysRevoked(HostRun(r), i, k, s);
  }

  // ---- Bindings over a run -------------------------------------------------

  /** The same binding later on: its serials, cancellations and phase have only
      advanced, and no exchange that was over is pending again. */
  predicate Onward(r: Remote, r': Remote) {
    var c, c' := r.talk.context, r'.talk.context;
    && r'.owner == r.owner && c'.binding == c.binding
    && c.next <= c'.next && c.flags <= c'.flags && T.Rank(c.phase) <= T.Rank(c'.phase)
    && (forall k :: k in r.talk.made ==> k in r'.talk.made && r'.talk.made[k] == r.talk.made[k])
    && (forall k :: k in c'.pending && k < c.next ==> k in c.pending)
  }

  lemma FollowsOnward(b: M.BindingId, r: Remote, r': Remote)
    requires Follows(b, r, r')
    ensures Onward(r, r')
  {
    hide RemoteInv;
  }

  lemma OnwardTwice(r: Remote, mid: Remote, r': Remote)
    requires Onward(r, mid) && Onward(mid, r')
    ensures Onward(r, r')
  {
    hide T.Rank;
  }

  /** In every run, bindings are never lost and their conversations only move on. */
  lemma {:induction false} BindingsStay(r: Run, j: nat, k: nat, b: M.BindingId)
    requires IsRun(r) && j <= k < |r.states| && b in r.states[j].remotes
    ensures b in r.states[k].remotes && Onward(r.states[j].remotes[b], r.states[k].remotes[b])
    decreases k
  {
    hide WorldInv, L.Inv, Takes, StepAt, NewIds, Starts, Follows, Onward;
    if j == k {
      SameOnward(r.states[j].remotes[b]);
    } else {
      BindingsStay(r, j, k - 1, b);
      RunStep(r, k - 1);
      StepInv(r.epoch, r.states[k - 1], r.steps[k - 1], r.states[k]);
      FollowsOnward(b, r.states[k - 1].remotes[b], r.states[k].remotes[b]);
      OnwardTwice(r.states[j].remotes[b], r.states[k - 1].remotes[b], r.states[k].remotes[b]);
    }
  }

  lemma SameOnward(r: Remote)
    ensures Onward(r, r)
  {
  }
}
