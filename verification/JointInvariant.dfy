/** Every step of the joint state keeps the parts' invariants, and ties every
    guard to its remote exchange: an exchange that is not held is not pending,
    and a guard that is done holds none. */
module JointInvariant {
  import opened Prelude
  import opened Joint
  import E = Engine
  import X = EngineRuns
  import I = EngineInvariant
  import M = McpContext
  import T = McpRuns
  import L = Ledger
  import O = Observation
  import R = FlowRuns
  import C = Consumers
  import Ev = Events

  // ---- The invariant -------------------------------------------------------

  ghost predicate RemoteInv(b: M.BindingId, r: Remote) {
    T.StateInv(r.talk) && r.talk.context.binding == b
  }

  /** A guard's exchange is one its conversation handed out; it is pending only
      while it is held, and a completion is one of its own response. */
  predicate TenureInv(r: Remote, t: Tenure) {
    var c, x := r.talk.context, t.exchange;
    && x.binding == c.binding && x.serial in r.talk.made && r.talk.made[x.serial] == x
    && (!t.held ==> x.serial !in c.pending)
    && (t.decoding && x.serial in c.pending ==> c.pending[x.serial].started)
    && (t.completion.Some? ==> t.decoding && t.completion.value.binding == x.binding && t.completion.value.serial == x.serial)
  }

  ghost predicate GuardInv(host: E.Host, remotes: map<M.BindingId, Remote>, op: Op, g: Guard) {
    && |g.streams| == O.SLOTS
    && (g.remote.Some? ==>
          && g.remote.value.exchange.binding in remotes && TenureInv(remotes[g.remote.value.exchange.binding], g.remote.value)
          && remotes[g.remote.value.exchange.binding].owner == op.session
          && (!E.Running(host, op.session, op.request) ==> !g.remote.value.held))
  }

  ghost predicate WorldInv(w: World) {
    && I.Inv(w.host) && R.StateInv(w.recording)
    && (forall b :: b in w.remotes ==> RemoteInv(b, w.remotes[b]))
    && (forall op :: op in w.guards ==> GuardInv(w.host, w.remotes, op, w.guards[op]))
  }

  // ---- The parts take their own steps --------------------------------------

  lemma LedgerFits(w: World)
    requires WorldInv(w)
    ensures L.Inv(w.recording.ledger) && R.StateInv(w.recording) && I.Inv(w.host)
    ensures forall b :: b in w.remotes ==> RemoteInv(b, w.remotes[b])
    ensures forall op :: op in w.guards ==> GuardInv(w.host, w.remotes, op, w.guards[op])
  {
    hide L.Inv, I.Inv;
  }

  /** Each step is one step of the engine, perhaps an idle one. */
  lemma HostTakes(epoch: C.Epoch, w: World, e: Step, w': World)
    requires Takes(epoch, w, e, w')
    ensures E.Enabled(w.host, HostStep(w, e)) && w'.host == E.Apply(w.host, HostStep(w, e)).host
  {
    hide L.Inv, R.Taken, T.Taken, Observes, E.PrepareRemote, E.PrepareCompletion, E.CommitCompletion, E.CompleteLocal, E.Settle, HandIn, Looked,
         NewTalk;
    assert w.host.(now := w.host.now) == w.host;
  }

  /** Each step is one step of the flows and the recorder, perhaps an idle one. */
  lemma RecordingTakes(epoch: C.Epoch, w: World, e: Step, w': World)
    requires Takes(epoch, w, e, w')
    ensures R.Taken(epoch, w.recording, RecordingStep(w, e), w'.recording)
  {
    hide L.Inv, R.Emits, T.Taken, E.PrepareRemote, E.PrepareCompletion, E.CommitCompletion, E.CompleteLocal, E.Settle, HandIn, Looked, NewTalk,
         O.Replay, O.Finishing, E.Apply, E.Enabled;
    IdleRecorder(epoch, w);
  }

  lemma IdleRecorder(epoch: C.Epoch, w: World)
    requires L.Inv(w.recording.ledger)
    ensures R.Taken(epoch, w.recording, Nothing(w), w.recording)
  {
    hide L.Inv;
    assert w.recording.ledger.(available := w.recording.ledger.available) == w.recording.ledger;
  }

  // ---- Conversations -------------------------------------------------------

  /** A conversation has moved on; the exchanges it had handed out are the same. */
  predicate Grown(r: Remote, r': Remote) {
    && r'.owner == r.owner
    && T.Moves(r.talk.context, r'.talk.context)
    && forall k :: k in r.talk.made ==> k in r'.talk.made && r'.talk.made[k] == r.talk.made[k]
  }

  /** What a binding may become in one step. */
  ghost predicate Follows(b: M.BindingId, r: Remote, r': Remote) {
    RemoteInv(b, r') && Grown(r, r')
  }

  lemma SelfFollows(b: M.BindingId, r: Remote)
    requires RemoteInv(b, r)
    ensures Follows(b, r, r)
  {
    hide M.Inv;
  }

  /** One conversation step other than an admission. */
  lemma TalkFollows(b: M.BindingId, r: Remote, said: T.Step, r': Remote)
    requires RemoteInv(b, r) && T.Taken(r.talk, said, r'.talk) && !said.Begin? && r'.owner == r.owner
    ensures Follows(b, r, r')
  {
    hide M.Inv, M.StartResponse, M.Complete, M.Abandon, M.CancelRequestStep, M.CancelOperationStep, M.Close;
    T.StepInv(r.talk, said, r'.talk);
  }

  lemma BeginFollows(b: M.BindingId, r: Remote, said: T.Step, talk: T.State)
    requires RemoteInv(b, r) && said.Begin? && T.Taken(r.talk, said, talk)
    ensures Follows(b, r, r.(talk := talk))
    ensures said.out.Ok? && said.out.value.Some? ==>
              var x := said.out.value.value; x.binding == b && x.serial in talk.made && talk.made[x.serial] == x
  {
    hide M.Inv;
    T.StepInv(r.talk, said, talk);
    T.Numbers(r.talk.context);
    hide M.Clashes, M.Full, T.Moves, M.Numbered;
    T.BeginMoves(r.talk.context, said.request, said.operation, said.valid, said.now, talk.context, said.out);
  }

  lemma LookedFollows(b: M.BindingId, r: Remote, t: Tenure, now: int)
    requires RemoteInv(b, r)
    ensures Follows(b, r, Looked(r, t, now).0)
  {
    hide M.Inv;
    var r' := Looked(r, t, now).0;
    if r.cancelled || now >= r.talk.context.expires { TalkFollows(b, r, T.Invalidate, r'); } else { TalkFollows(b, r, T.Look(now), r'); }
  }

  lemma HandedFollows(b: M.BindingId, r: Remote, t: Tenure, now: int)
    requires RemoteInv(b, r) && TenureInv(r, t)
    ensures Follows(b, r, HandIn(r, t, now).remote)
  {
    hide M.Inv, M.Complete;
    SelfFollows(b, r);
    var r' := HandIn(r, t, now).remote;
    if r' != r { TalkFollows(b, r, T.Finish(t.exchange, t.completion.value, now), r'); }
  }

  lemma GivenUpFollows(b: M.BindingId, r: Remote, t: Tenure, now: int)
    requires RemoteInv(b, r) && TenureInv(r, t)
    ensures Follows(b, r, GivenUp(r, t, now))
  {
    hide M.Inv, M.Abandon, M.Expire;
    SelfFollows(b, r);
    if t.held {
      var mid := With(r, M.Abandon(r.talk.context, t.exchange));
      TalkFollows(b, r, T.Drop(t.exchange), mid);
      TalkFollows(b, mid, T.Look(now), With(mid, M.Expire(mid.talk.context, now)));
      GivenUpMoves(r.talk.context, t.exchange, now);
    }
  }

  lemma GivenUpMoves(c: M.Context, x: M.Exchange, now: int)
    ensures T.Moves(c, M.Expire(M.Abandon(c, x), now))
  {
  }

  lemma RespondsFollows(b: M.BindingId, r: Remote, t: Tenure, admitted: Result<()>, now: int)
    requires RemoteInv(b, r) && TenureInv(r, t)
    ensures Follows(b, r, With(r, M.StartResponse(r.talk.context, t.exchange, admitted, now).0))
  {
    hide M.Inv, M.StartResponse;
    var c := M.StartResponse(r.talk.context, t.exchange, admitted, now).0;
    TalkFollows(b, r, T.Start(t.exchange, admitted, now), With(r, c));
  }

  // ---- Tenures -------------------------------------------------------------

  /** A conversation that moves on keeps every guard's tenure valid. */
  lemma TenureKept(b: M.BindingId, r: Remote, r': Remote, t: Tenure)
    requires RemoteInv(b, r) && Follows(b, r, r') && TenureInv(r, t)
    ensures TenureInv(r', t)
  {
    hide M.Inv;
  }

  /** After the response was accepted it is started, for as long as it is pending. */
  lemma RespondedTenure(b: M.BindingId, r: Remote, t: Tenure, admitted: Result<()>, now: int)
    requires RemoteInv(b, r) && TenureInv(r, t)
    ensures var (c, answer) := M.StartResponse(r.talk.context, t.exchange, admitted, now);
            TenureInv(With(r, c), t.(decoding := t.decoding || answer.Ok?))
  {
    RespondsFollows(b, r, t, admitted, now);
    hide M.Inv;
    TenureKept(b, r, With(r, M.StartResponse(r.talk.context, t.exchange, admitted, now).0), t);
  }

  /** An exchange that was handed in is not pending any more, whatever the
      conversation answered. */
  lemma HandedTenure(b: M.BindingId, r: Remote, t: Tenure, now: int)
    requires RemoteInv(b, r) && TenureInv(r, t) && (t.held ==> t.completion.Some?)
    ensures TenureInv(HandIn(r, t, now).remote, HandIn(r, t, now).tenure)
    ensures HandIn(r, t, now).answer.Ok? ==>
              t.held && !HandIn(r, t, now).tenure.held && t.completion.Some?
              && t.exchange.serial in M.Expire(r.talk.context, now).pending
              && M.Complete(r.talk.context, t.exchange, t.completion.value, now) == (HandIn(r, t, now).remote.talk.context, Ok(()))
  {
    hide M.Inv;
    if t.held && t.completion.Some? { HandedGone(b, r, t, now); }
    HandedFollows(b, r, t, now);
    hide M.Complete, M.Expire;
    if HandIn(r, t, now).remote != r { TenureKept(b, r, HandIn(r, t, now).remote, t); }
  }

  lemma HandedGone(b: M.BindingId, r: Remote, t: Tenure, now: int)
    requires RemoteInv(b, r) && TenureInv(r, t) && t.held && t.completion.Some?
    ensures var (c, answer) := M.Complete(r.talk.context, t.exchange, t.completion.value, now);
            && t.exchange.serial !in c.pending
            && (answer.Ok? ==> t.exchange.serial in M.Expire(r.talk.context, now).pending)
  {
    hide M.Inv, T.StateInv;
  }

  /** Nor is one that was given up. */
  lemma GivenUpTenure(b: M.BindingId, r: Remote, t: Tenure, now: int)
    requires RemoteInv(b, r) && TenureInv(r, t)
    ensures TenureInv(GivenUp(r, t, now), t.(held := false, completion := None))
  {
    hide M.Inv;
    GivenUpFollows(b, r, t, now);
    AbandonedGone(r, t, now);
    hide M.Abandon, M.Expire;
    TenureKept(b, r, GivenUp(r, t, now), t);
  }

  lemma AbandonedGone(r: Remote, t: Tenure, now: int)
    requires TenureInv(r, t)
    ensures t.exchange.serial !in GivenUp(r, t, now).talk.context.pending
  {
  }

  // ---- Every step keeps the invariant --------------------------------------

  /** Every binding stays and moves on; a new one starts in order. */
  ghost predicate RemotesFollow(a: map<M.BindingId, Remote>, b: map<M.BindingId, Remote>) {
    && (forall k :: k in a ==> k in b && Follows(k, a[k], b[k]))
    && (forall k :: k in b && k !in a ==> RemoteInv(k, b[k]))
  }

  lemma SameRemotes(a: map<M.BindingId, Remote>)
    requires forall k :: k in a ==> RemoteInv(k, a[k])
    ensures RemotesFollow(a, a)
  {
    hide RemoteInv, Follows;
    forall k | k in a ensures Follows(k, a[k], a[k]) { SelfFollows(k, a[k]); }
  }

  lemma OneRemote(a: map<M.BindingId, Remote>, k: M.BindingId, r: Remote)
    requires forall b :: b in a ==> RemoteInv(b, a[b])
    requires k in a && Follows(k, a[k], r)
    ensures RemotesFollow(a, a[k := r])
  {
    hide RemoteInv, Follows;
    forall b | b in a ensures Follows(b, a[b], a[k := r][b]) { SelfFollows(b, a[b]); }
  }

  lemma NewRemote(a: map<M.BindingId, Remote>, k: M.BindingId, r: Remote)
    requires forall b :: b in a ==> RemoteInv(b, a[b])
    requires k !in a && RemoteInv(k, r)
    ensures RemotesFollow(a, a[k := r])
  {
    hide RemoteInv, Follows;
    forall b | b in a ensures Follows(b, a[b], a[k := r][b]) { SelfFollows(b, a[b]); }
  }

  lemma OwnerKept(b: M.BindingId, r: Remote, r': Remote)
    requires Follows(b, r, r')
    ensures r'.owner == r.owner
  {
    hide RemoteInv;
  }

  /** A guard that this step does not touch. */
  lemma GuardKept(w: World, w': World, op: Op)
    requires WorldInv(w) && op in w.guards && RemotesFollow(w.remotes, w'.remotes)
    requires E.Running(w.host, op.session, op.request) && !E.Running(w'.host, op.session, op.request) ==>
               w.guards[op].remote.Some? ==> !w.guards[op].remote.value.held
    ensures GuardInv(w'.host, w'.remotes, op, w.guards[op])
  {
    hide RemoteInv, TenureInv, Follows;
    assert GuardInv(w.host, w.remotes, op, w.guards[op]);
    var g := w.guards[op];
    if g.remote.Some? {
      var b := g.remote.value.exchange.binding;
      TenureKept(b, w.remotes[b], w'.remotes[b], g.remote.value);
      OwnerKept(b, w.remotes[b], w'.remotes[b]);
    }
  }

  /** All of them, when the step touches at most one. */
  lemma GuardsKept(w: World, w': World, touched: Option<Op>)
    requires WorldInv(w) && RemotesFollow(w.remotes, w'.remotes)
    requires forall op :: op in w'.guards && Some(op) != touched ==> op in w.guards && w'.guards[op] == w.guards[op]
    requires forall op :: op in w.guards && E.Running(w.host, op.session, op.request) && !E.Running(w'.host, op.session, op.request) ==>
               Some(op) == touched || (w.guards[op].remote.Some? ==> !w.guards[op].remote.value.held)
    requires touched.Some? && touched.value in w'.guards ==> GuardInv(w'.host, w'.remotes, touched.value, w'.guards[touched.value])
    ensures forall op :: op in w'.guards ==> GuardInv(w'.host, w'.remotes, op, w'.guards[op])
  {
    hide GuardInv, RemotesFollow, WorldInv, E.Running;
    forall op | op in w'.guards ensures GuardInv(w'.host, w'.remotes, op, w'.guards[op]) {
      if Some(op) != touched { GuardKept(w, w', op); }
    }
  }

  /** The engine's own invariant, and who stops running in this step. */
  lemma HostFollows(epoch: C.Epoch, w: World, e: Step, w': World)
    requires WorldInv(w) && Takes(epoch, w, e, w')
    ensures I.Inv(w'.host)
    ensures forall op: Op :: E.Running(w.host, op.session, op.request) && !E.Running(w'.host, op.session, op.request) ==>
              Stops(w, e, op)
  {
    HostTakes(epoch, w, e, w');
    var inner := HostStep(w, e);
    StopsBy(w, e);
    hide *;
    LedgerFits(w);
    I.StepInv(w.host, inner);
    forall op: Op | E.Running(w.host, op.session, op.request) && !E.Running(w'.host, op.session, op.request) ensures Stops(w, e, op) {
      X.ClosesBy(w.host, inner, op.session, op.request);
    }
  }

  /** Only these steps end a guard. */
  predicate Stops(w: World, e: Step, op: Op) {
    || (e.Commit? && e.op == op)
    || (e.Local? && e.op == op)
    || (e.Fail? && e.op == op)
  }

  lemma StopsBy(w: World, e: Step)
    requires Enabled(w, e)
    ensures var i := HostStep(w, e);
            forall op: Op :: (i.Commit? || i.Local? || i.Failing?) && i.session == op.session && i.request == op.request ==> Stops(w, e, op)
  {
    hide HandIn, Looked, E.Enabled;
  }

  lemma RecordingFollows(epoch: C.Epoch, w: World, e: Step, w': World)
    requires WorldInv(w) && Takes(epoch, w, e, w')
    ensures R.StateInv(w'.recording)
  {
    RecordingTakes(epoch, w, e, w');
    hide *;
    LedgerFits(w);
    R.StepInv(epoch, w.recording, RecordingStep(w, e), w'.recording);
  }

  /** What is left to show of a step that touches at most one guard. */
  ghost predicate Keeps(w: World, e: Step, w': World, touched: Option<Op>) {
    && RemotesFollow(w.remotes, w'.remotes)
    && (forall op :: op in w'.guards && Some(op) != touched ==> op in w.guards && w'.guards[op] == w.guards[op])
    && (touched.Some? && touched.value in w'.guards ==> GuardInv(w'.host, w'.remotes, touched.value, w'.guards[touched.value]))
    && (forall op :: op in w.guards && Stops(w, e, op) ==>
          Some(op) == touched || (w.guards[op].remote.Some? ==> !w.guards[op].remote.value.held))
  }

  lemma KeepsInv(epoch: C.Epoch, w: World, e: Step, w': World, touched: Option<Op>)
    requires WorldInv(w) && Takes(epoch, w, e, w') && Keeps(w, e, w', touched)
    ensures WorldInv(w')
  {
    hide *;
    HostFollows(epoch, w, e, w');
    RecordingFollows(epoch, w, e, w');
    KeepsParts(w, e, w', touched);
    GuardsKept(w, w', touched);
    AllRemotes(w, w');
    AllParts(w');
  }

  lemma KeepsParts(w: World, e: Step, w': World, touched: Option<Op>)
    requires Keeps(w, e, w', touched)
    requires forall op: Op :: E.Running(w.host, op.session, op.request) && !E.Running(w'.host, op.session, op.request) ==> Stops(w, e, op)
    ensures RemotesFollow(w.remotes, w'.remotes)
    ensures forall op :: op in w'.guards && Some(op) != touched ==> op in w.guards && w'.guards[op] == w.guards[op]
    ensures forall op :: op in w.guards && E.Running(w.host, op.session, op.request) && !E.Running(w'.host, op.session, op.request) ==>
              Some(op) == touched || (w.guards[op].remote.Some? ==> !w.guards[op].remote.value.held)
    ensures touched.Some? && touched.value in w'.guards ==> GuardInv(w'.host, w'.remotes, touched.value, w'.guards[touched.value])
  {
    hide RemotesFollow, GuardInv, Stops, E.Running;
  }

  lemma AllParts(w: World)
    requires I.Inv(w.host) && R.StateInv(w.recording)
    requires forall b :: b in w.remotes ==> RemoteInv(b, w.remotes[b])
    requires forall op :: op in w.guards ==> GuardInv(w.host, w.remotes, op, w.guards[op])
    ensures WorldInv(w)
  {
    hide I.Inv, R.StateInv, RemoteInv, GuardInv;
  }

  lemma AllRemotes(w: World, w': World)
    requires RemotesFollow(w.remotes, w'.remotes)
    ensures forall b :: b in w'.remotes ==> RemoteInv(b, w'.remotes[b])
  {
    hide RemoteInv, Grown;
    forall b | b in w'.remotes ensures RemoteInv(b, w'.remotes[b]) {
      if b in w.remotes { assert Follows(b, w.remotes[b], w'.remotes[b]); }
    }
  }

  /** A guard whose streams alone change. */
  lemma StreamsChanged(w: World, w': World, op: Op, streams: seq<O.StreamState>)
    requires WorldInv(w) && op in w.guards && |streams| == O.SLOTS && RemotesFollow(w.remotes, w'.remotes)
    requires w.guards[op].remote.Some? ==>
               (E.Running(w.host, op.session, op.request) <==> E.Running(w'.host, op.session, op.request))
    ensures GuardInv(w'.host, w'.remotes, op, w.guards[op].(streams := streams))
  {
    GuardKept(w, w', op);
  }

  lemma ObservedSlots(flow: Ev.FlowId, a: seq<O.StreamState>, s: R.State, emitted: seq<O.Emitted>, p: Report, b: seq<O.StreamState>, s': R.State)
    requires L.Inv(s.ledger) && |a| == O.SLOTS && Observes(flow, a, s, emitted, p, b, s')
    ensures |b| == O.SLOTS
  {
    hide L.Inv, R.Emits;
  }

  /** A step that touches no guard keeps what is left to show, */
  lemma UntouchedKeeps(w: World, e: Step, w': World)
    requires RemotesFollow(w.remotes, w'.remotes) && w'.guards == w.guards && Enabled(w, e)
    requires !e.Commit? && !e.Local?
    ensures Keeps(w, e, w', None)
  {
    hide RemotesFollow, GuardInv, E.Running, E.Enabled;
  }

  /** and so does one that touches one. */
  lemma TouchedKeeps(w: World, e: Step, w': World, op: Op)
    requires RemotesFollow(w.remotes, w'.remotes) && op in w'.guards && w'.guards == w.guards[op := w'.guards[op]]
    requires GuardInv(w'.host, w'.remotes, op, w'.guards[op])
    requires forall o :: Stops(w, e, o) ==> o == op
    ensures Keeps(w, e, w', Some(op))
  {
    hide RemotesFollow, GuardInv, Stops;
  }

  lemma QuietKeeps(epoch: C.Epoch, w: World, e: Step, w': World)
    requires WorldInv(w) && Takes(epoch, w, e, w')
    requires e.Host? || e.Recording? || e.Talk? || e.Sever? || e.Prepare? || e.Fail?
    ensures Keeps(w, e, w', None)
  {
    hide *;
    LedgerFits(w);
    SameRemotes(w.remotes);
    QuietGuards(epoch, w, e, w');
    BindingKnown(w, e);
    if e.Talk? {
      TalkRemotes(epoch, w, e, w');
    } else if e.Sever? {
      SeverRemotes(epoch, w, e, w');
    } else if e.Prepare? {
      PrepareRemotes(epoch, w, e, w');
    }
    UntouchedKeeps(w, e, w');
  }

  lemma QuietGuards(epoch: C.Epoch, w: World, e: Step, w': World)
    requires Takes(epoch, w, e, w')
    requires e.Host? || e.Recording? || e.Talk? || e.Sever? || e.Prepare? || e.Fail?
    ensures w'.guards == w.guards && Enabled(w, e)
    ensures e.Host? || e.Recording? || e.Fail? ==> w'.remotes == w.remotes
  {
    hide L.Inv, R.Taken, T.Taken, E.Apply, E.Settle, E.PrepareCompletion, Enabled, Looked, M.Invalidated;
  }

  lemma BindingKnown(w: World, e: Step)
    requires Enabled(w, e)
    ensures e.Talk? || e.Sever? ==> e.binding in w.remotes
  {
    hide E.Enabled;
  }

  lemma TalkRemotes(epoch: C.Epoch, w: World, e: Step, w': World)
    requires Takes(epoch, w, e, w') && e.Talk? && e.binding in w.remotes
    requires forall k :: k in w.remotes ==> RemoteInv(k, w.remotes[k])
    ensures RemotesFollow(w.remotes, w'.remotes)
  {
    hide L.Inv, RemoteInv, Follows, RemotesFollow, T.Taken;
    var b := e.binding;
    TalkFollows(b, w.remotes[b], e.said, w'.remotes[b]);
    OneRemote(w.remotes, b, w'.remotes[b]);
  }

  lemma SeverRemotes(epoch: C.Epoch, w: World, e: Step, w': World)
    requires Takes(epoch, w, e, w') && e.Sever? && e.binding in w.remotes
    requires forall k :: k in w.remotes ==> RemoteInv(k, w.remotes[k])
    ensures RemotesFollow(w.remotes, w'.remotes)
  {
    hide L.Inv, RemoteInv, Follows, RemotesFollow, M.Invalidated;
    SeverFollows(e.binding, w.remotes[e.binding]);
    OneRemote(w.remotes, e.binding, w'.remotes[e.binding]);
  }

  lemma PrepareRemotes(epoch: C.Epoch, w: World, e: Step, w': World)
    requires Takes(epoch, w, e, w') && e.Prepare?
    requires forall k :: k in w.remotes ==> RemoteInv(k, w.remotes[k])
    ensures RemotesFollow(w.remotes, w'.remotes)
  {
    hide L.Inv, RemoteInv, Follows, RemotesFollow, Looked, E.PrepareCompletion, Enabled, Reached;
    SameRemotes(w.remotes);
    if HasRemote(w, e.op) {
      var b := TenureOf(w, e.op).exchange.binding;
      LookedFollows(b, RemoteOf(w, e.op), TenureOf(w, e.op), w.host.now);
      OneRemote(w.remotes, b, Looked(RemoteOf(w, e.op), TenureOf(w, e.op), w.host.now).0);
    }
  }

  lemma SeverFollows(b: M.BindingId, r: Remote)
    requires RemoteInv(b, r)
    ensures Follows(b, r, With(r, M.Invalidated(r.talk.context)).(cancelled := true))
  {
    hide M.Inv;
    TalkFollows(b, r, T.Invalidate, With(r, M.Invalidated(r.talk.context)).(cancelled := true));
  }

  /** Steps that only record. */
  lemma ObservingKeeps(epoch: C.Epoch, w: World, e: Step, w': World)
    requires WorldInv(w) && Takes(epoch, w, e, w')
    requires e.Observing? || e.Local? || e.Conclude?
    ensures Keeps(w, e, w', Some(e.op))
  {
    hide *;
    LedgerFits(w);
    SameRemotes(w.remotes);
    ObservingParts(epoch, w, e, w');
    StreamsChanged(w, w', e.op, w'.guards[e.op].streams);
    OnlyItself(w, e);
    TouchedKeeps(w, e, w', e.op);
  }

  lemma ObservingParts(epoch: C.Epoch, w: World, e: Step, w': World)
    requires Takes(epoch, w, e, w')
    requires e.Observing? || e.Local? || e.Conclude?
    ensures w'.remotes == w.remotes && e.op in w.guards && e.op in w'.guards
    ensures w'.guards == w.guards[e.op := w'.guards[e.op]]
    ensures w'.guards[e.op] == w.guards[e.op].(streams := w'.guards[e.op].streams) && |w'.guards[e.op].streams| == O.SLOTS
    ensures w.guards[e.op].remote.Some? ==> w'.host == w.host
  {
    hide L.Inv, Observes, E.CompleteLocal, O.Finishing, E.Running;
    var g, g' := w.guards[e.op], w'.guards[e.op];
    var emitted := if e.Observing? then e.emitted else O.Finishing(g.streams, e.Local?);
    ObservedSlots(g.flow, g.streams, w.recording, emitted, e.report, g'.streams, w'.recording);
  }

  lemma OnlyItself(w: World, e: Step)
    requires e.Observing? || e.Local? || e.Conclude? || e.Commit? || e.Respond? || e.ReadOut? || e.GiveUp? || e.Guarding? || e.Admit?
    ensures forall o :: Stops(w, e, o) ==> o == e.op
  {
  }

  lemma GuardingKeeps(epoch: C.Epoch, w: World, e: Step, w': World)
    requires WorldInv(w) && Takes(epoch, w, e, w') && e.Guarding?
    ensures Keeps(w, e, w', Some(e.op))
  {
    hide *;
    LedgerFits(w);
    SameRemotes(w.remotes);
    GuardingParts(epoch, w, e, w');
    OnlyItself(w, e);
    TouchedKeeps(w, e, w', e.op);
  }

  lemma GuardingParts(epoch: C.Epoch, w: World, e: Step, w': World)
    requires Takes(epoch, w, e, w') && e.Guarding?
    ensures w'.remotes == w.remotes && e.op in w'.guards && w'.guards == w.guards[e.op := w'.guards[e.op]]
    ensures GuardInv(w'.host, w'.remotes, e.op, w'.guards[e.op])
  {
    hide L.Inv, R.Taken, E.Running;
  }

  /** A guard whose exchange alone changes, with its conversation. */
  lemma TenureChanged(w: World, e: Step, w': World, op: Op, r: Remote, t: Tenure)
    requires forall k :: k in w.remotes ==> RemoteInv(k, w.remotes[k])
    requires HasRemote(w, op) && t.exchange == TenureOf(w, op).exchange && RemoteOf(w, op).owner == op.session
    requires Follows(t.exchange.binding, RemoteOf(w, op), r) && TenureInv(r, t)
    requires w'.remotes == w.remotes[t.exchange.binding := r]
    requires op in w'.guards && w'.guards == w.guards[op := w'.guards[op]]
    requires |w'.guards[op].streams| == O.SLOTS && w'.guards[op].remote == Some(t)
    requires t.held ==> E.Running(w'.host, op.session, op.request)
    requires forall o :: Stops(w, e, o) ==> o == op
    ensures Keeps(w, e, w', Some(op))
  {
    hide RemoteInv, Follows, RemotesFollow, TenureInv, E.Running, Stops, Keeps;
    OneRemote(w.remotes, t.exchange.binding, r);
    OwnerKept(t.exchange.binding, RemoteOf(w, op), r);
    assert GuardInv(w'.host, w'.remotes, op, w'.guards[op]);
    TouchedKeeps(w, e, w', op);
  }

  lemma HeldRuns(w: World, op: Op)
    requires WorldInv(w) && HasRemote(w, op)
    ensures RemoteInv(TenureOf(w, op).exchange.binding, RemoteOf(w, op)) && TenureInv(RemoteOf(w, op), TenureOf(w, op))
    ensures TenureOf(w, op).held ==> E.Running(w.host, op.session, op.request)
    ensures |w.guards[op].streams| == O.SLOTS && RemoteOf(w, op).owner == op.session
  {
    hide RemoteInv, I.Inv, R.StateInv;
    assert GuardInv(w.host, w.remotes, op, w.guards[op]);
  }

  /** Reading a response, or giving the exchange up. */
  lemma TenureKeeps(epoch: C.Epoch, w: World, e: Step, w': World)
    requires WorldInv(w) && Takes(epoch, w, e, w')
    requires e.Respond? || e.ReadOut? || e.GiveUp?
    ensures Keeps(w, e, w', Some(e.op))
  {
    hide *;
    LedgerFits(w);
    TenureParts(epoch, w, e, w');
    HeldRuns(w, e.op);
    OnlyItself(w, e);
    var t, r := TenureOf(w, e.op), RemoteOf(w, e.op);
    var b := t.exchange.binding;
    SelfFollows(b, r);
    RespondsOrGives(w, e, b, r, t);
    if e.ReadOut? { ReadTenure(r, t); }
    TenureChanged(w, e, w', e.op, w'.remotes[b], w'.guards[e.op].remote.value);
  }

  lemma ReadTenure(r: Remote, t: Tenure)
    requires TenureInv(r, t) && t.decoding
    ensures forall success: bool, native: Option<int> ::
      TenureInv(r, t.(completion := Some(M.Completion(t.exchange.binding, t.exchange.serial, success, native))))
  {
  }

  /** How exactly the tenure and its binding change. */
  lemma TenureParts(epoch: C.Epoch, w: World, e: Step, w': World)
    requires Takes(epoch, w, e, w')
    requires e.Respond? || e.ReadOut? || e.GiveUp?
    ensures HasRemote(w, e.op) && e.op in w'.guards && w'.guards == w.guards[e.op := w'.guards[e.op]] && w'.host == w.host
    ensures w'.guards[e.op].streams == w.guards[e.op].streams && w'.guards[e.op].remote.Some?
    ensures var t, t' := TenureOf(w, e.op), w'.guards[e.op].remote.value;
            && t'.exchange == t.exchange && (t'.held ==> t.held)
            && t.exchange.binding in w'.remotes && w'.remotes == w.remotes[t.exchange.binding := w'.remotes[t.exchange.binding]]
    ensures var t, t', r, r' := TenureOf(w, e.op), w'.guards[e.op].remote.value, RemoteOf(w, e.op), w'.remotes[TenureOf(w, e.op).exchange.binding];
            && (e.ReadOut? ==> t.decoding && r' == r && t' == t.(completion := Some(M.Completion(t.exchange.binding, t.exchange.serial, e.success, e.native))))
            && (e.GiveUp? ==> r' == GivenUp(r, t, w.host.now) && t' == t.(held := false, completion := None))
            && (e.Respond? ==>
                  var (c, answer) := M.StartResponse(r.talk.context, t.exchange, e.admitted, w.host.now);
                  r' == With(r, c) && t' == t.(decoding := t.decoding || answer.Ok?))
  {
    hide L.Inv, M.StartResponse, GivenUp;
  }

  lemma RespondsOrGives(w: World, e: Step, b: M.BindingId, r: Remote, t: Tenure)
    requires e.Respond? || e.ReadOut? || e.GiveUp?
    requires RemoteInv(b, r) && TenureInv(r, t)
    ensures e.GiveUp? ==> Follows(b, r, GivenUp(r, t, w.host.now)) && TenureInv(GivenUp(r, t, w.host.now), t.(held := false, completion := None))
    ensures e.Respond? ==>
              var (c, answer) := M.StartResponse(r.talk.context, t.exchange, e.admitted, w.host.now);
              Follows(b, r, With(r, c)) && TenureInv(With(r, c), t.(decoding := t.decoding || answer.Ok?))
  {
    hide RemoteInv, Follows, TenureInv, GivenUp, M.StartResponse;
    if e.GiveUp? {
      GivenUpFollows(b, r, t, w.host.now);
      GivenUpTenure(b, r, t, w.host.now);
    } else if e.Respond? {
      RespondsFollows(b, r, t, e.admitted, w.host.now);
      RespondedTenure(b, r, t, e.admitted, w.host.now);
    }
  }

  // ---- Completion ----------------------------------------------------------

  /** Whether this commit reached the conversation. */
  predicate Hands(w: World, e: Step)
    requires e.Commit? && Enabled(w, e)
  {
    e.report.out.calls == 1 && HasRemote(w, e.op) && Asked(w, e.op)
  }

  lemma CommitParts(epoch: C.Epoch, w: World, e: Step, w': World)
    requires Takes(epoch, w, e, w') && e.Commit?
    ensures Enabled(w, e) && e.op in w.guards && e.op in w'.guards && w'.guards == w.guards[e.op := w'.guards[e.op]]
    ensures |w'.guards[e.op].streams| == O.SLOTS
    ensures w.guards[e.op].remote.Some? ==> HasRemote(w, e.op) && (TenureOf(w, e.op).held ==> TenureOf(w, e.op).completion.Some?)
    ensures Hands(w, e) ==>
              var t := TenureOf(w, e.op); var h := HandIn(RemoteOf(w, e.op), t, w.host.now);
              && h.tenure.exchange == t.exchange
              && w'.guards[e.op].remote == Some(h.tenure) && w'.remotes == w.remotes[t.exchange.binding := h.remote]
    ensures !Hands(w, e) ==>
              w'.remotes == w.remotes && w'.guards[e.op] == w.guards[e.op].(streams := w'.guards[e.op].streams)
  {
    hide L.Inv, Observes, E.CommitCompletion, HandIn, O.Finishing, E.Running;
    var g := w.guards[e.op];
    ObservedSlots(g.flow, g.streams, w.recording, ClosingBatch(w, e.op), e.report, w'.guards[e.op].streams, w'.recording);
    HandedExchange(w, e.op);
  }

  lemma HandedExchange(w: World, op: Op)
    ensures HasRemote(w, op) ==> HandIn(RemoteOf(w, op), TenureOf(w, op), w.host.now).tenure.exchange == TenureOf(w, op).exchange
  {
    hide M.Complete;
  }

  /** A guard stops running only when its whole commit succeeded. */
  lemma CommitStops(epoch: C.Epoch, w: World, e: Step, w': World)
    requires Takes(epoch, w, e, w') && e.Commit?
    ensures E.Running(w.host, e.op.session, e.op.request)
    ensures !E.Running(w'.host, e.op.session, e.op.request) ==>
              && e.report.out.calls == 1 && AnswerOf(HandedIn(w, e.op)).Ok?
              && (HasRemote(w, e.op) ==> Hands(w, e) && HandIn(RemoteOf(w, e.op), TenureOf(w, e.op), w.host.now).answer.Ok?)
  {
    hide L.Inv, Observes, HandIn, O.Finishing, E.Authorized, E.Usable;
  }

  lemma CommitKeeps(epoch: C.Epoch, w: World, e: Step, w': World)
    requires WorldInv(w) && Takes(epoch, w, e, w') && e.Commit?
    ensures Keeps(w, e, w', Some(e.op))
  {
    hide *;
    LedgerFits(w);
    CommitParts(epoch, w, e, w');
    CommitStops(epoch, w, e, w');
    OnlyItself(w, e);
    if Hands(w, e) {
      HandsRemote(w, e);
      HeldRuns(w, e.op);
      var t, r := TenureOf(w, e.op), RemoteOf(w, e.op);
      var h := HandIn(r, t, w.host.now);
      HandedFollows(t.exchange.binding, r, t, w.host.now);
      HandedTenure(t.exchange.binding, r, t, w.host.now);
      TenureChanged(w, e, w', e.op, h.remote, h.tenure);
    } else {
      SameRemotes(w.remotes);
      StreamsChanged(w, w', e.op, w'.guards[e.op].streams);
      TouchedKeeps(w, e, w', e.op);
    }
  }

  lemma HandsRemote(w: World, e: Step)
    requires e.Commit? && Enabled(w, e) && Hands(w, e)
    ensures HasRemote(w, e.op)
  {
  }

  // ---- Admission -----------------------------------------------------------

  lemma BegunInv(w: World, e: Step)
    requires e.Admit? && Enabled(w, e) && forall k :: k in w.remotes ==> RemoteInv(k, w.remotes[k])
    ensures RemoteInv(e.binding, Begun(w, e.op.session, e.binding, e.created))
  {
    hide M.Inv;
    if e.created.Some? { M.FreshInv(e.binding, w.host.now, e.created.value); }
  }

  lemma AdmitParts(epoch: C.Epoch, w: World, e: Step, w': World) returns (talk: Option<T.State>)
    requires Takes(epoch, w, e, w') && e.Admit?
    ensures Enabled(w, e) && Guarded(w, e.op)
    ensures E.Running(w'.host, e.op.session, e.op.request)
    ensures talk.None? ==> w'.remotes == w.remotes && w'.guards == w.guards
    ensures talk.Some? ==> NewTalk(w, e, w', Begun(w, e.op.session, e.binding, e.created), talk.value)
  {
    hide L.Inv, NewTalk, M.Fresh;
    var before := Begun(w, e.op.session, e.binding, e.created);
    if w'.remotes == w.remotes && w'.guards == w.guards {
      talk := None;
    } else {
      var state :| NewTalk(w, e, w', before, state);
      talk := Some(state);
    }
  }

  lemma AdmitKeeps(epoch: C.Epoch, w: World, e: Step, w': World)
    requires WorldInv(w) && Takes(epoch, w, e, w') && e.Admit?
    ensures Keeps(w, e, w', Some(e.op)) || Keeps(w, e, w', None)
  {
    hide *;
    LedgerFits(w);
    var talk := AdmitParts(epoch, w, e, w');
    OnlyItself(w, e);
    SameRemotes(w.remotes);
    if talk.None? {
      UntouchedKeeps(w, e, w');
    } else {
      NewTalkFollows(w, e, w', talk.value);
      if e.begun.Ok? && e.begun.value.Some? { TouchedKeeps(w, e, w', e.op); } else { UntouchedKeeps(w, e, w'); }
    }
  }

  lemma NewTalkFollows(w: World, e: Step, w': World, talk: T.State)
    requires e.Admit? && Enabled(w, e) && Guarded(w, e.op) && E.Running(w'.host, e.op.session, e.op.request)
    requires forall k :: k in w.remotes ==> RemoteInv(k, w.remotes[k])
    requires NewTalk(w, e, w', Begun(w, e.op.session, e.binding, e.created), talk)
    ensures RemotesFollow(w.remotes, w'.remotes)
    ensures e.begun.Ok? && e.begun.value.Some? ==>
              && e.op in w'.guards && w'.guards == w.guards[e.op := w'.guards[e.op]]
              && GuardInv(w'.host, w'.remotes, e.op, w'.guards[e.op])
    ensures !(e.begun.Ok? && e.begun.value.Some?) ==> w'.guards == w.guards
  {
    hide RemotesFollow, Follows, T.Taken, E.Running, RemoteInv, Begun, M.Formed;
    var b, before := e.binding, Begun(w, e.op.session, e.binding, e.created);
    BegunInv(w, e);
    BeginFollows(b, before, T.Begin(e.request, e.op.request, e.valid, w.host.now, e.begun), talk);
    SameRemotes(w.remotes);
    BegunOld(w, e);
    FollowsInv(b, before, before.(talk := talk));
    if e.begun.Ok? && e.begun.value.Some? { NewTenure(b, before.(talk := talk), e.begun.value.value); }
    hide TenureInv;
    if e.created.None? {
      OneRemote(w.remotes, b, before.(talk := talk));
    } else {
      NewRemote(w.remotes, b, before.(talk := talk));
    }
  }

  lemma NewTenure(b: M.BindingId, r: Remote, x: M.Exchange)
    requires RemoteInv(b, r) && x.binding == b && x.serial in r.talk.made && r.talk.made[x.serial] == x
    ensures TenureInv(r, Tenure(x, true, false, None))
  {
    hide T.StateInv;
  }

  lemma BegunOld(w: World, e: Step)
    requires e.Admit? && Enabled(w, e)
    ensures e.created.None? ==> e.binding in w.remotes && Begun(w, e.op.session, e.binding, e.created) == w.remotes[e.binding]
    ensures e.created.Some? ==> e.binding !in w.remotes
    ensures Begun(w, e.op.session, e.binding, e.created).owner == e.op.session
  {
  }

  lemma FollowsInv(b: M.BindingId, r: Remote, r': Remote)
    requires Follows(b, r, r')
    ensures RemoteInv(b, r')
  {
    hide RemoteInv, Grown;
  }

  /** Every step touches at most one guard. */
  lemma StepKeeps(epoch: C.Epoch, w: World, e: Step, w': World) returns (touched: Option<Op>)
    requires WorldInv(w) && Takes(epoch, w, e, w')
    ensures Keeps(w, e, w', touched)
  {
    hide *;
    if e.Host? || e.Recording? || e.Talk? || e.Sever? || e.Prepare? || e.Fail? {
      QuietKeeps(epoch, w, e, w');
      touched := None;
    } else if e.Admit? {
      AdmitKeeps(epoch, w, e, w');
      touched := if Keeps(w, e, w', None) then None else Some(e.op);
    } else {
      if e.Guarding? {
        GuardingKeeps(epoch, w, e, w');
      } else if e.Commit? {
        CommitKeeps(epoch, w, e, w');
      } else if e.Respond? || e.ReadOut? || e.GiveUp? {
        TenureKeeps(epoch, w, e, w');
      } else {
        ObservingKeeps(epoch, w, e, w');
      }
      touched := Some(e.op);
    }
  }

  /** Every step keeps the joint invariant; bindings stay, and conversations only
      move on. */
  lemma StepInv(epoch: C.Epoch, w: World, e: Step, w': World)
    requires WorldInv(w) && Takes(epoch, w, e, w')
    ensures WorldInv(w') && RemotesFollow(w.remotes, w'.remotes)
  {
    hide *;
    ghost var touched := StepKeeps(epoch, w, e, w');
    KeepsInv(epoch, w, e, w', touched);
    KeptRemotes(w, e, w', touched);
  }

  lemma KeptRemotes(w: World, e: Step, w': World, touched: Option<Op>)
    requires Keeps(w, e, w', touched)
    ensures RemotesFollow(w.remotes, w'.remotes)
  {
    hide RemotesFollow, GuardInv, Stops;
  }
}
