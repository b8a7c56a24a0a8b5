/** Authority, dispatch and completion over whole runs of the engine, in every
    interleaving of its steps. */
module EngineRuns {
  import opened Prelude
  import opened Engine
  import opened EngineInvariant

  // ---- What no step undoes -------------------------------------------------

  predicate OpGrows(o: Operation, o': Operation) {
    && o'.request == o.request && o'.size == o.size
    && (o.dispatched ==> o'.dispatched)
    && (o.closed ==> o'.closed)
    && (o.cancelled ==> o'.cancelled)
    && (Terminal(o.state) ==> o'.state == o.state)
  }

  /** Besides, only a completion step completes an operation, and an exchange
      keeps its binding until a completion or a failing guard ends it; */
  predicate OpSteps(o: Operation, o': Operation, e: Step) {
    && OpGrows(o, o')
    && (o.state != Completed && o'.state == Completed ==> e.Commit? || e.Local?)
    && (!o.closed && o'.closed ==> e.Commit? || e.Local? || e.Failing?)
    && (o.exchange.Some? && o'.exchange.None? ==> e.Commit? || e.Relinquishing?)
    && (o.exchange.Some? && o'.exchange.Some? ==> o'.exchange.value.context == o.exchange.value.context)
  }

  /** issuances and streams are settled once and for all; */
  predicate IssuanceGrows(i: Issuance, i': Issuance) {
    && i'.request == i.request && i'.size == i.size
    && (i.cancelled ==> i'.cancelled)
    && (Terminal(i.state) ==> i' == i)
  }

  predicate StreamGrows(a: Attachment, a': Attachment) {
    a'.request == a.request && a'.size == a.size && (a.ended ==> a' == a)
  }

  /** and private state enters a binding through nothing but a completion. */
  predicate BindingSteps(b: Binding, b': Binding, e: Step) {
    && (b.cancelled ==> b'.cancelled)
    && (b'.custody == b.custody || b'.custody.None? || e.Commit?)
  }

  predicate SessionGrows(c: Session, c': Session, e: Step) {
    && c'.expires == c.expires
    && (c.revoked ==> c'.revoked) && (c.cancelled ==> c'.cancelled)
    && (forall r :: r in c.items ==> r in c'.items && OpSteps(c.items[r], c'.items[r], e))
    && (forall b :: b in c.contexts ==> b in c'.contexts && BindingSteps(c.contexts[b], c'.contexts[b], e))
    && SidesGrow(c, c')
  }

  predicate SidesGrow(c: Session, c': Session) {
    && (forall r :: r in c.issuances ==> r in c'.issuances && IssuanceGrows(c.issuances[r], c'.issuances[r]))
    && (forall r :: r in c.streams ==> r in c'.streams && StreamGrows(c.streams[r], c'.streams[r]))
  }

  predicate HostGrows(h: Host, h': Host, e: Step) {
    && (h.closed ==> h'.closed)
    && h.now <= h'.now
    && (forall s :: s in h.sessions && s !in h'.sessions ==> e == DropCore(s))
    && (forall s :: s in h.sessions && s in h'.sessions ==> SessionGrows(h.sessions[s], h'.sessions[s], e))
    && (forall s :: s in h'.sessions && s !in h.sessions ==> e.Create? && e.session == s && !h.closed)
  }

  lemma GrowsAlone(h: Host, s: SessionId, c': Session, bytes: nat, e: Step)
    requires s in h.sessions && SessionGrows(h.sessions[s], c', e)
    ensures HostGrows(h, With(h, s, c').(bytes := bytes), e)
  {
    hide OpGrows;
    forall t | t in h.sessions && t != s ensures SessionGrows(h.sessions[t], h.sessions[t], e) { SelfGrows(h.sessions[t], e); }
  }

  lemma SameSides(c: Session, c': Session)
    requires c'.issuances == c.issuances && c'.streams == c.streams
    ensures SidesGrow(c, c')
  {
  }

  lemma SelfGrows(c: Session, e: Step)
    ensures SessionGrows(c, c, e)
  {
  }

  lemma SameGrows(h: Host, e: Step)
    ensures HostGrows(h, h, e)
  {
    forall t | t in h.sessions ensures SessionGrows(h.sessions[t], h.sessions[t], e) { SelfGrows(h.sessions[t], e); }
  }

  lemma ItemGrows(h: Host, s: SessionId, r: RequestId, o: Operation, e: Step)
    requires OnItem(h, s, r) && OpSteps(h.sessions[s].items[r], o, e)
    ensures HostGrows(h, With(h, s, WithItem(h.sessions[s], r, o)), e)
  {
    hide HostGrows, OpSteps, BindingSteps, SidesGrow;
    var c' := WithItem(h.sessions[s], r, o);
    SelfGrows(h.sessions[s], e);
    OthersGrow(h.sessions[s], r, c', e);
    OneSession(h, s, With(h, s, c'), e);
  }

  /** A step that replaces one session by one that has grown. */
  lemma OneSession(h: Host, s: SessionId, h': Host, e: Step)
    requires s in h.sessions && s in h'.sessions && SessionGrows(h.sessions[s], h'.sessions[s], e)
    requires h' == With(h, s, h'.sessions[s]).(bytes := h'.bytes)
    ensures HostGrows(h, h', e)
  {
    GrowsAlone(h, s, h'.sessions[s], h'.bytes, e);
  }

  lemma RegisterGrows(h: Host, e: Step)
    requires e.Register? && e.session in h.sessions
    ensures HostGrows(h, Track(h, e.session, e.request, e.body, e.size, e.fits).host, e)
  {
    hide HostGrows, Room;
    SameGrows(h, e);
    var h' := Track(h, e.session, e.request, e.body, e.size, e.fits).host;
    if h' != h { OneSession(h, e.session, h', e); }
  }

  lemma RegisterLoginGrows(h: Host, e: Step)
    requires e.RegisterLogin? && e.session in h.sessions
    ensures HostGrows(h, Issue(h, e.session, e.request, e.body, e.size).host, e)
  {
    hide HostGrows, Room;
    SameGrows(h, e);
    var h' := Issue(h, e.session, e.request, e.body, e.size).host;
    if h' != h { OneSession(h, e.session, h', e); }
  }

  lemma RegisterStreamGrows(h: Host, e: Step)
    requires e.RegisterStream? && e.session in h.sessions
    ensures HostGrows(h, AdmitTcp(h, e.session, e.request, e.body, e.size, e.granted).host, e)
  {
    hide HostGrows, Room, Authorized;
    SameGrows(h, e);
    var h' := AdmitTcp(h, e.session, e.request, e.body, e.size, e.granted).host;
    if h' != h { OneSession(h, e.session, h', e); }
  }

  lemma CreateGrows(h: Host, e: Step)
    requires e.Create? && e.session !in h.sessions
    ensures HostGrows(h, CreateSession(h, e.session, e.lifetime, e.valid).host, e)
  {
    hide OpGrows;
    SameGrows(h, e);
  }

  lemma DropCoreGrows(h: Host, e: Step)
    requires e.DropCore? && e.session in h.sessions
    ensures HostGrows(h, DropSession(h, e.session).host, e)
  {
    hide OpGrows;
    SameGrows(h, e);
  }

  lemma MarkGrows(h: Host, s: SessionId, c: Session, e: Step)
    requires s in h.sessions && c == h.sessions[s].(revoked := c.revoked, cancelled := c.cancelled)
    requires (h.sessions[s].revoked ==> c.revoked) && (h.sessions[s].cancelled ==> c.cancelled)
    ensures HostGrows(h, With(h, s, c), e)
  {
    hide HostGrows, OpSteps, BindingSteps, SidesGrow;
    SelfGrows(h.sessions[s], e);
    SameSides(h.sessions[s], c);
    OneSession(h, s, With(h, s, c), e);
  }

  lemma CancelGrows(h: Host, s: SessionId, r: RequestId, e: Step)
    requires OnItem(h, s, r)
    ensures HostGrows(h, Cancel(h, s, r).host, e)
  {
    ItemGrows(h, s, r, CancelledOp(h.sessions[s].items[r]), e);
  }

  lemma RelinquishGrows(h: Host, e: Step)
    requires e.Relinquishing? && OnItem(h, e.session, e.request)
    ensures HostGrows(h, Relinquish(h, e.session, e.request).host, e)
  {
    hide HostGrows;
    var s, r := e.session, e.request;
    var c := h.sessions[s];
    var h' := Relinquish(h, s, r).host;
    SameGrows(h, e);
    if h' != h {
      var c' := h'.sessions[s];
      assert h' == With(h, s, c').(bytes := h.bytes);
      assert OpSteps(c.items[r], c'.items[r], e);
      OthersGrow(c, r, c', e);
      OneSession(h, s, h', e);
    }
  }

  lemma SettleGrows(h: Host, e: Step)
    requires e.Failing? && OnItem(h, e.session, e.request)
    ensures HostGrows(h, Settle(h, e.session, e.request, e.reason).host, e)
  {
    hide HostGrows;
    SameGrows(h, e);
    var o := h.sessions[e.session].items[e.request];
    if !o.closed { ItemGrows(h, e.session, e.request, FailedOp(o, e.reason), e); }
  }

  /** Steps that move one operation. */
  lemma ItemStepGrows(h: Host, e: Step)
    requires e.Cancelling? || e.Advancing? || e.Dispatch? || e.Local?
    requires Enabled(h, e)
    ensures HostGrows(h, Apply(h, e).host, e)
  {
    hide HostGrows, Authorized;
    SameGrows(h, e);
    var s, r := e.session, e.request;
    var o := h.sessions[s].items[r];
    CancelGrows(h, s, r, e);
    match e
    case Advancing(_, _, state) => if !Terminal(o.state) { ItemGrows(h, s, r, o.(state := state), e); }
    case Dispatch(_, _) => if o.state == Ready { ItemGrows(h, s, r, o.(state := Dispatching, dispatched := true), e); }
    case Local(_, _, _) => if !Terminal(o.state) { ItemGrows(h, s, r, o.(state := Completed, closed := true), e); }
    case _ =>
  }

  lemma BeginGrows(h: Host, e: Step)
    requires e.Begin? && Running(h, e.session, e.request)
    ensures HostGrows(h, StartExchange(h, e.session, e.request, e.context).host, e)
  {
    hide HostGrows, Usable, Holds;
    SameGrows(h, e);
    var h' := StartExchange(h, e.session, e.request, e.context).host;
    if h' != h { OneSession(h, e.session, h', e); }
  }

  lemma TakeGrows(h: Host, e: Step)
    requires e.Take? && Running(h, e.session, e.request) && FreshExchange(h.sessions[e.session].items[e.request])
    ensures HostGrows(h, TakeCustody(h, e.session, e.request).host, e)
  {
    hide HostGrows;
    SameGrows(h, e);
    var h' := TakeCustody(h, e.session, e.request).host;
    if h' != h { OneSession(h, e.session, h', e); }
  }

  lemma CapturedGrows(h: Host, e: Step)
    requires e.Captured? && Running(h, e.session, e.request) && HeldExchange(h.sessions[e.session].items[e.request])
    ensures HostGrows(h, Capture(h, e.session, e.request, e.value, e.status).host, e)
  {
    hide HostGrows;
    OneSession(h, e.session, Capture(h, e.session, e.request, e.value, e.status).host, e);
  }

  lemma PrepareGrows(h: Host, e: Step)
    requires e.Prepare? && Running(h, e.session, e.request)
    ensures HostGrows(h, PrepareCompletion(h, e.session, e.request, e.remote).host, e)
  {
    hide HostGrows, Authorized;
    SameGrows(h, e);
    var s, r := e.session, e.request;
    var c := h.sessions[s];
    var n := PrepareCompletion(h, s, r, e.remote);
    if n.host != h {
      var c' := n.host.sessions[s];
      assert n.host == With(h, s, c').(bytes := h.bytes);
      if n.result.Ok? {
        assert OpSteps(c.items[r], c'.items[r], e);
        OthersGrow(c, r, c', e);
      } else {
        ContextsGrow(c, c', e);
      }
      hide PrepareCompletion;
      OneSession(h, s, n.host, e);
    }
  }

  lemma ContextsGrow(c: Session, c': Session, e: Step)
    requires c' == c.(contexts := c'.contexts)
    requires forall b :: b in c.contexts ==> b in c'.contexts && BindingSteps(c.contexts[b], c'.contexts[b], e)
    ensures SessionGrows(c, c', e)
  {
  }

  lemma CommitGrows(h: Host, e: Step)
    requires e.Commit? && Running(h, e.session, e.request)
    ensures HostGrows(h, CommitCompletion(h, e.session, e.request, e.recorded, e.remote).host, e)
  {
    hide HostGrows, Authorized, Usable;
    var s, r := e.session, e.request;
    var c := h.sessions[s];
    var n := CommitCompletion(h, s, r, e.recorded, e.remote);
    var c' := n.host.sessions[s];
    assert n.host == With(h, s, c').(bytes := h.bytes);
    if n.result.Ok? {
      assert OpSteps(c.items[r], c'.items[r], e);
      OthersGrow(c, r, c', e);
    } else {
      assert c' == WithItem(c, r, WithoutStage(c.items[r]));
      assert OpSteps(c.items[r], c'.items[r], e);
      OthersGrow(c, r, c', e);
    }
    OneSession(h, s, n.host, e);
  }

  lemma OthersGrow(c: Session, r: RequestId, c': Session, e: Step)
    requires r in c.items && r in c'.items && OpSteps(c.items[r], c'.items[r], e)
    requires c' == WithItem(c, r, c'.items[r]).(contexts := c'.contexts)
    requires forall b :: b in c.contexts ==> b in c'.contexts && BindingSteps(c.contexts[b], c'.contexts[b], e)
    ensures SessionGrows(c, c', e)
  {
    hide BindingSteps, SidesGrow;
    SelfGrows(c, e);
    SameSides(c, c');
  }

  lemma CancelLoginGrows(h: Host, e: Step)
    requires e.CancelLogin? && e.session in h.sessions && e.request in h.sessions[e.session].issuances
    ensures HostGrows(h, CancelIssuance(h, e.session, e.request).host, e)
  {
    hide HostGrows, Terminal;
    SameGrows(h, e);
    SelfGrows(h.sessions[e.session], e);
    var h' := CancelIssuance(h, e.session, e.request).host;
    if h' != h { OneSession(h, e.session, h', e); }
  }

  lemma PublishGrows(h: Host, e: Step)
    requires e.Publish? && e.session in h.sessions && e.request in h.sessions[e.session].issuances
    requires e.context !in h.sessions[e.session].contexts
    ensures HostGrows(h, PublishLogin(h, e.session, e.request, e.context, e.prepared).host, e)
  {
    hide HostGrows, PublishLogin, SessionGrows, SidesGrow;
    SameGrows(h, e);
    PublishChanges(h, e);
    var c, h' := h.sessions[e.session], PublishLogin(h, e.session, e.request, e.context, e.prepared).host;
    if h' != h {
      OneIssuance(c, e.request, h'.sessions[e.session]);
      SidesOnly(c, h'.sessions[e.session], e);
      OneSession(h, e.session, h', e);
    }
  }

  /** A publication settles one issuance and may add one context. */
  lemma PublishChanges(h: Host, e: Step)
    requires e.Publish? && e.session in h.sessions && e.request in h.sessions[e.session].issuances
    requires e.context !in h.sessions[e.session].contexts
    ensures var c, h' := h.sessions[e.session], PublishLogin(h, e.session, e.request, e.context, e.prepared).host;
            h' != h ==>
              && e.session in h'.sessions && h' == With(h, e.session, h'.sessions[e.session]).(bytes := h'.bytes)
              && var c' := h'.sessions[e.session];
                 && c' == c.(issuances := c'.issuances, contexts := c'.contexts)
                 && !Terminal(c.issuances[e.request].state) && c'.issuances.Keys == c.issuances.Keys
                 && c'.issuances == c.issuances[e.request := c.issuances[e.request].(state := c'.issuances[e.request].state)]
                 && forall b :: b in c.contexts ==> b in c'.contexts && c'.contexts[b] == c.contexts[b]
  {
    hide Terminal, PublishVerdict;
  }

  lemma SidesOnly(c: Session, c': Session, e: Step)
    requires c' == c.(issuances := c'.issuances, contexts := c'.contexts) && SidesGrow(c, c')
    requires forall b :: b in c.contexts ==> b in c'.contexts && c'.contexts[b] == c.contexts[b]
    ensures SessionGrows(c, c', e)
  {
    hide SidesGrow;
    SelfGrows(c, e);
  }

  lemma OneIssuance(c: Session, r: RequestId, c': Session)
    requires r in c.issuances && !Terminal(c.issuances[r].state) && c'.issuances.Keys == c.issuances.Keys
    requires c'.issuances == c.issuances[r := c.issuances[r].(state := c'.issuances[r].state)] && c'.streams == c.streams
    ensures SidesGrow(c, c')
  {
  }

  lemma RemoteGrows(h: Host, e: Step)
    requires e.Remote? && OnItem(h, e.session, e.request)
    ensures HostGrows(h, PrepareRemote(h, e.session, e.request, e.added, e.begun).host, e)
  {
    hide HostGrows, Terminal, Authorized, OpSteps, BindingSteps;
    SameGrows(h, e);
    SelfGrows(h.sessions[e.session], e);
    var h' := PrepareRemote(h, e.session, e.request, e.added, e.begun).host;
    if h' != h { OneSession(h, e.session, h', e); }
  }

  lemma ClearGrows(h: Host, e: Step)
    requires e.Clear? && HasContext(h, e.session, e.context)
    ensures HostGrows(h, Invalidate(h, e.session, e.context).host, e)
  {
    hide HostGrows, OpSteps;
    SelfGrows(h.sessions[e.session], e);
    OneSession(h, e.session, Invalidate(h, e.session, e.context).host, e);
  }

  lemma EndGrows(h: Host, e: Step)
    requires e.End? && e.session in h.sessions && e.request in h.sessions[e.session].streams
    ensures HostGrows(h, EndStream(h, e.session, e.request).host, e)
  {
    hide HostGrows, OpSteps, BindingSteps;
    SelfGrows(h.sessions[e.session], e);
    OneSession(h, e.session, EndStream(h, e.session, e.request).host, e);
  }

  lemma StepGrows(h: Host, e: Step)
    requires Enabled(h, e)
    ensures HostGrows(h, Apply(h, e).host, e)
  {
    hide SessionGrows, Track, Issue, AdmitTcp, Cancel, Advance, BeginDispatch, CompleteLocal, StartExchange, TakeCustody, Capture,
         PrepareCompletion, CommitCompletion, Relinquish, Settle, CancelIssuance, PublishLogin, PrepareRemote, Invalidate, EndStream;
    SameGrows(h, e);
    match e
    case Tick(_) =>
    case Retire =>
    case Create(_, _, _) => CreateGrows(h, e);
    case DropCore(_) => DropCoreGrows(h, e);
    case RetireOne(s) => MarkGrows(h, s, h.sessions[s].(revoked := true), e);
    case Notify(s) => MarkGrows(h, s, h.sessions[s].(cancelled := true), e);
    case Register(_, _, _, _, _) => RegisterGrows(h, e);
    case RegisterLogin(_, _, _, _) => RegisterLoginGrows(h, e);
    case RegisterStream(_, _, _, _, _) => RegisterStreamGrows(h, e);
    case Cancelling(_, _) => ItemStepGrows(h, e);
    case Advancing(_, _, _) => ItemStepGrows(h, e);
    case Dispatch(_, _) => ItemStepGrows(h, e);
    case Local(_, _, _) => ItemStepGrows(h, e);
    case Begin(_, _, _) => BeginGrows(h, e);
    case Take(_, _) => TakeGrows(h, e);
    case Captured(_, _, _, _) => CapturedGrows(h, e);
    case Prepare(_, _, _) => PrepareGrows(h, e);
    case Commit(_, _, _, _) => CommitGrows(h, e);
    case Relinquishing(_, _) => RelinquishGrows(h, e);
    case Failing(_, _, _) => SettleGrows(h, e);
    case CancelLogin(_, _) => CancelLoginGrows(h, e);
    case Publish(_, _, _, _) => PublishGrows(h, e);
    case Remote(_, _, _, _) => RemoteGrows(h, e);
    case Clear(_, _) => ClearGrows(h, e);
    case End(_, _) => EndGrows(h, e);
  }

  // ---- What a step commits -------------------------------------------------

  /** Dispatch, completion and publication: what needs authority. */
  predicate Commits(ev: Event) {
    ev.Dispatched? || ev.Finished? || ev.ContextPublished? || ev.RemotePublished?
  }

  lemma NoEvents(h: Host, e: Step)
    requires Enabled(h, e)
    requires !(e.Dispatch? || e.Local? || e.Commit? || e.Publish? || e.Remote?)
    ensures forall ev :: ev in Apply(h, e).events ==> !Commits(ev)
  {
    hide FailedOp, Authorized, Room, Checked, Cleared, Holds, Usable;
  }

  /** Nothing is committed without authority at that very step. */
  lemma CommitsAuthorized(h: Host, e: Step)
    requires Enabled(h, e)
    ensures forall ev :: ev in Apply(h, e).events && Commits(ev) ==> Authorized(h, ev.session)
  {
    if e.Dispatch? || e.Local? || e.Commit? || e.Publish? || e.Remote? {
      hide With, WithItem, Cancel, Authorized;
    } else {
      NoEvents(h, e);
    }
  }

  /** The steps that are not completions: their bodies do not matter here. */
  lemma CompletesBy(h: Host, e: Step, s: SessionId, r: RequestId)
    requires Enabled(h, e) && OnItem(h, s, r) && OnItem(Apply(h, e).host, s, r)
    requires h.sessions[s].items[r].state != Completed && Apply(h, e).host.sessions[s].items[r].state == Completed
    ensures e.Commit? || e.Local?
  {
    hide Enabled, Apply;
    StepGrows(h, e);
    assert OpSteps(h.sessions[s].items[r], Apply(h, e).host.sessions[s].items[r], e);
  }

  /** An operation appears as a received one. */
  lemma AppearsReceived(h: Host, e: Step, s: SessionId, r: RequestId)
    requires Enabled(h, e) && !OnItem(h, s, r)
    ensures OnItem(Apply(h, e).host, s, r) ==> Apply(h, e).host.sessions[s].items[r].state == Received
  {
    if e.Register? || e.Create? || e.DropCore? {
      hide Room;
    } else if GuardMoves(e) {
      GuardAddsNothing(h, e, s, r);
    } else {
      OthersAddNothing(h, e, s, r);
    }
  }

  /** The steps of a running guard. */
  predicate GuardMoves(e: Step) {
    || e.Cancelling? || e.Advancing? || e.Dispatch? || e.Local? || e.Begin? || e.Take? || e.Captured?
    || e.Prepare? || e.Commit? || e.Relinquishing? || e.Failing?
  }

  lemma GuardAddsNothing(h: Host, e: Step, s: SessionId, r: RequestId)
    requires Enabled(h, e) && !OnItem(h, s, r) && GuardMoves(e)
    ensures !OnItem(Apply(h, e).host, s, r)
  {
    if e.Cancelling? || e.Advancing? || e.Dispatch? || e.Local? || e.Failing? || e.Captured? {
      hide Authorized, FailedOp, Terminal, CancelledOp;
    } else {
      ExchangeAddsNothing(h, e, s, r);
    }
  }

  lemma ExchangeAddsNothing(h: Host, e: Step, s: SessionId, r: RequestId)
    requires Enabled(h, e) && !OnItem(h, s, r) && (e.Begin? || e.Take? || e.Prepare? || e.Commit? || e.Relinquishing?)
    ensures !OnItem(Apply(h, e).host, s, r)
  {
    if e.Commit? {
      hide CommitCompletion;
      CommitTouches(h, e.session, e.request, e.recorded, e.remote);
    } else {
      hide Authorized, Usable, Checked, Cleared, Holds, WithoutStage;
    }
  }

  lemma OthersAddNothing(h: Host, e: Step, s: SessionId, r: RequestId)
    requires Enabled(h, e) && !OnItem(h, s, r) && !GuardMoves(e) && !e.Register? && !e.Create? && !e.DropCore?
    ensures !OnItem(Apply(h, e).host, s, r)
  {
    hide Authorized, Usable, Room, Cleared, Terminal, PublishVerdict;
  }

  /** Only its own completion or failure ends a running guard. */
  lemma ClosesBy(h: Host, e: Step, s: SessionId, r: RequestId)
    requires Enabled(h, e) && Running(h, s, r) && !Running(Apply(h, e).host, s, r)
    ensures (e.Commit? || e.Local? || e.Failing?) && e.session == s && e.request == r
    ensures !e.Failing? ==> Apply(h, e).result.Ok?
  {
    ClosingStep(h, e, s, r);
    hide Authorized, Usable;
  }

  lemma ClosingStep(h: Host, e: Step, s: SessionId, r: RequestId)
    requires Enabled(h, e) && Running(h, s, r) && !Running(Apply(h, e).host, s, r)
    ensures e.Commit? || e.Local? || e.Failing?
  {
    hide Apply, SidesGrow, BindingSteps;
    StepGrows(h, e);
  }

  lemma ReturnsBy(h: Host, e: Step, s: SessionId, b: ContextId)
    requires Enabled(h, e) && HasContext(h, s, b) && HasContext(Apply(h, e).host, s, b)
    requires Apply(h, e).host.sessions[s].contexts[b].custody != h.sessions[s].contexts[b].custody
    requires Apply(h, e).host.sessions[s].contexts[b].custody.Some?
    ensures e.Commit?
  {
    hide Enabled, Apply;
    StepGrows(h, e);
    assert BindingSteps(h.sessions[s].contexts[b], Apply(h, e).host.sessions[s].contexts[b], e);
  }

  /** An operation moves from Dispatching to Completed in one step with the
      recorder's commit, under authority, together with the publication of the
      private state that its exchange staged. */
  lemma CompletionIsAtomic(h: Host, e: Step, s: SessionId, r: RequestId)
    requires Enabled(h, e) && OnItem(h, s, r) && OnItem(Apply(h, e).host, s, r)
    requires h.sessions[s].items[r].state == Dispatching && Apply(h, e).host.sessions[s].items[r].state == Completed
    ensures (e.Commit? || e.Local?) && e.session == s && e.request == r && e.recorded && Apply(h, e).result.Ok?
    ensures Authorized(h, s) && !h.sessions[s].items[r].cancelled && Apply(h, e).events == [Finished(s, r)]
    ensures e.Commit? && h.sessions[s].items[r].exchange.Some? ==>
              var x := h.sessions[s].items[r].exchange.value;
              && x.context in h.sessions[s].contexts && Usable(h.sessions[s].contexts[x.context], h.now) && x.staged.Some?
              && x.context in Apply(h, e).host.sessions[s].contexts
              && var b := Apply(h, e).host.sessions[s].contexts[x.context];
                 b.custody == x.staged && b.status == x.status
  {
    hide Authorized, Usable;
    CompletesBy(h, e, s, r);
  }

  predicate HasContext(h: Host, s: SessionId, b: ContextId) {
    s in h.sessions && b in h.sessions[s].contexts
  }

  /** Private state enters a published binding only through the completion of
      the exchange that held it. */
  lemma CustodyReturns(h: Host, e: Step, s: SessionId, b: ContextId)
    requires Inv(h) && Enabled(h, e) && HasContext(h, s, b) && HasContext(Apply(h, e).host, s, b)
    requires Apply(h, e).host.sessions[s].contexts[b].custody != h.sessions[s].contexts[b].custody
    requires Apply(h, e).host.sessions[s].contexts[b].custody.Some?
    ensures e.Commit? && e.session == s && Apply(h, e).result.Ok? && Apply(h, e).events == [Finished(s, e.request)]
    ensures h.sessions[s].items[e.request].state == Dispatching
    ensures h.sessions[s].items[e.request].exchange.Some? && h.sessions[s].items[e.request].exchange.value.context == b
    ensures h.sessions[s].items[e.request].exchange.value.staged == Apply(h, e).host.sessions[s].contexts[b].custody
  {
    hide Authorized, Usable, Inv;
    ReturnsBy(h, e, s, b);
  }

  /** A failing exchange publishes nothing: the first thing a failing guard does
      leaves its binding revoked and empty, */
  lemma FailureRevokes(h: Host, s: SessionId, r: RequestId)
    requires Inv(h) && Running(h, s, r) && h.sessions[s].items[r].exchange.Some?
    ensures EndsRevoked(Relinquish(h, s, r).host, s, h.sessions[s].items[r].exchange.value.context)
  {
    hide Inv, SessionInv;
    SessionParts(h, s);
    assert InCustody(h.sessions[s], h.sessions[s].items[r].exchange.value);
  }

  predicate EndsRevoked(h: Host, s: SessionId, b: ContextId) {
    && HasContext(h, s, b)
    && h.sessions[s].contexts[b].cancelled && h.sessions[s].contexts[b].custody.None? && h.sessions[s].contexts[b].status == Revoked
  }

  // ---- Runs ----------------------------------------------------------------

  datatype Run = Run(states: seq<Host>, steps: seq<Step>)

  /** Session ids are random and so never reused. */
  predicate NewIds(r: Run, k: nat)
    requires k < |r.steps| && |r.states| == |r.steps| + 1
  {
    r.steps[k].Create? ==> forall j :: 0 <= j <= k ==> r.steps[k].session !in r.states[j].sessions
  }

  predicate StepAt(r: Run, k: nat)
    requires k < |r.steps| && |r.states| == |r.steps| + 1
  {
    Enabled(r.states[k], r.steps[k]) && r.states[k + 1] == Apply(r.states[k], r.steps[k]).host
  }

  predicate IsRun(r: Run) {
    && |r.states| == |r.steps| + 1
    && r.states[0].sessions == map[] && r.states[0].bytes == 0
    && (forall k :: 0 <= k < |r.steps| ==> StepAt(r, k))
    && (forall k :: 0 <= k < |r.steps| ==> NewIds(r, k))
  }

  function EventsAt(r: Run, k: nat): seq<Event>
    requires k < |r.steps| && |r.states| == |r.steps| + 1 && StepAt(r, k)
  {
    Apply(r.states[k], r.steps[k]).events
  }

  lemma RunShape(r: Run, k: nat)
    requires IsRun(r) && k < |r.steps|
    ensures |r.states| == |r.steps| + 1 && StepAt(r, k) && NewIds(r, k)
    ensures HostGrows(r.states[k], r.states[k + 1], r.steps[k])
  {
    hide Enabled, Apply, HostGrows;
    assert StepAt(r, k) && NewIds(r, k);
    StepGrows(r.states[k], r.steps[k]);
  }

  /** What one step of a run does to a session that outlives it. */
  lemma SessionStep(r: Run, k: nat, s: SessionId)
    requires IsRun(r) && k < |r.steps| && |r.states| == |r.steps| + 1
    requires s in r.states[k].sessions && s in r.states[k + 1].sessions
    ensures SessionGrows(r.states[k].sessions[s], r.states[k + 1].sessions[s], r.steps[k])
  {
    hide IsRun, Enabled, SessionGrows;
    RunShape(r, k);
  }

  lemma GrowsParts(c: Session, c': Session, e: Step)
    requires SessionGrows(c, c', e)
    ensures (c.revoked ==> c'.revoked) && SidesGrow(c, c')
    ensures forall r :: r in c.items ==> r in c'.items && OpSteps(c.items[r], c'.items[r], e)
    ensures forall b :: b in c.contexts ==> b in c'.contexts && (c.contexts[b].cancelled ==> c'.contexts[b].cancelled)
  {
    hide SidesGrow, OpSteps;
  }

  lemma Length(r: Run)
    requires IsRun(r)
    ensures |r.states| == |r.steps| + 1 && r.states[0].sessions == map[] && r.states[0].bytes == 0
  {
  }

  /** The invariant holds in every state of every run. */
  lemma {:induction false} RunInv(r: Run, k: nat)
    requires IsRun(r) && k < |r.states|
    ensures Inv(r.states[k])
  {
    hide IsRun, Inv, Enabled, Apply, HostGrows;
    Length(r);
    if k == 0 {
      EmptyInv(r.states[0]);
    } else {
      RunInv(r, k - 1);
      RunShape(r, k - 1);
      StepInv(r.states[k - 1], r.steps[k - 1]);
    }
  }

  lemma EmptyInv(h: Host)
    requires h.sessions == map[] && h.bytes == 0
    ensures Inv(h)
  {
    assert SessionSizes(h.sessions) == map[];
  }

  lemma {:induction false} StaysRetired(r: Run, i: nat, k: nat)
    requires IsRun(r) && i < k < |r.states| == |r.steps| + 1 && r.steps[i] == Retire
    ensures r.states[k].closed
    decreases k
  {
    hide IsRun, Enabled, SessionGrows;
    RunShape(r, k - 1);
    if i < k - 1 { StaysRetired(r, i, k - 1); }
  }

  /** After the broker's admission closes, nothing is ever committed: no
      dispatch, no completion, no publication, in any interleaving. */
  lemma NothingAfterRetirement(r: Run, i: nat, k: nat)
    requires IsRun(r) && i < k < |r.steps| && |r.states| == |r.steps| + 1 && StepAt(r, k) && r.steps[i] == Retire
    ensures forall ev :: ev in EventsAt(r, k) ==> !Commits(ev)
  {
    hide IsRun, Enabled, Apply;
    StaysRetired(r, i, k);
    CommitsAuthorized(r.states[k], r.steps[k]);
  }

  lemma {:induction false} StaysRevoked(r: Run, i: nat, k: nat, s: SessionId)
    requires IsRun(r) && i < k < |r.states| == |r.steps| + 1 && r.steps[i] == RetireOne(s)
    ensures s in r.states[i].sessions
    ensures s in r.states[k].sessions ==> r.states[k].sessions[s].revoked
    decreases k
  {
    hide IsRun, SessionGrows, SidesGrow, OpSteps;
    RunShape(r, i);
    Retiring(r.states[i], s);
    if i < k - 1 {
      StaysRevoked(r, i, k - 1, s);
      if s in r.states[k].sessions {
        Lives(r, i, k - 1, k, s);
        SessionStep(r, k - 1, s);
        GrowsParts(r.states[k - 1].sessions[s], r.states[k].sessions[s], r.steps[k - 1]);
      }
    }
  }

  lemma Retiring(h: Host, s: SessionId)
    requires s in h.sessions
    ensures s in RetireSession(h, s).host.sessions && RetireSession(h, s).host.sessions[s].revoked
  {
  }

  /** After a session is retired, nothing of it is ever committed. */
  lemma NothingAfterRevocation(r: Run, i: nat, k: nat, s: SessionId)
    requires IsRun(r) && i < k < |r.steps| && |r.states| == |r.steps| + 1 && StepAt(r, k) && r.steps[i] == RetireOne(s)
    ensures forall ev :: ev in EventsAt(r, k) && Commits(ev) ==> ev.session != s
  {
    hide IsRun, Enabled, Apply;
    StaysRevoked(r, i, k, s);
    CommitsAuthorized(r.states[k], r.steps[k]);
  }

  lemma {:induction false} NoneAdmitted(r: Run, i: nat, k: nat, s: SessionId)
    requires IsRun(r) && i < k < |r.states| == |r.steps| + 1 && r.steps[i] == Retire && s in r.states[k].sessions
    ensures s in r.states[i + 1].sessions
    decreases k
  {
    hide IsRun, Enabled, SessionGrows;
    RunShape(r, k - 1);
    if i < k - 1 {
      StaysRetired(r, i, k - 1);
      NoneAdmitted(r, i, k - 1, s);
    }
  }

  /** A close that stopped admission at step `i` has returned by state `k`: it has
      retired, one by one, the sessions that the registry held at that step. */
  predicate Closes(r: Run, i: nat, k: nat)
    requires i < k < |r.states| == |r.steps| + 1
  {
    && r.steps[i] == Retire
    && forall s :: s in r.states[i + 1].sessions && s in r.states[k].sessions ==> exists m :: i < m < k && r.steps[m] == RetireOne(s)
  }

  /** When a close returns, every session that exists is revoked, whoever else
      was creating sessions meanwhile. */
  lemma CloseRevokesAll(r: Run, i: nat, k: nat)
    requires IsRun(r) && i < k < |r.states| == |r.steps| + 1 && Closes(r, i, k)
    ensures forall s :: s in r.states[k].sessions ==> r.states[k].sessions[s].revoked && !Authorized(r.states[k], s)
  {
    hide IsRun;
    forall s | s in r.states[k].sessions ensures r.states[k].sessions[s].revoked {
      NoneAdmitted(r, i, k, s);
      var m :| i < m < k && r.steps[m] == RetireOne(s);
      StaysRevoked(r, m, k, s);
    }
  }

  /** A session that exists at two moments existed throughout. */
  lemma {:induction false} Lives(r: Run, j: nat, m: nat, k: nat, s: SessionId)
    requires IsRun(r) && j <= m <= k < |r.states| == |r.steps| + 1
    requires s in r.states[j].sessions && s in r.states[k].sessions
    ensures s in r.states[m].sessions
    decreases k - m
  {
    hide IsRun, Enabled, SessionGrows;
    if m < k {
      Lives(r, j, m + 1, k, s);
      RunShape(r, m);
      assert s in r.states[m + 1].sessions;
    }
  }

  /** Operations are never forgotten; their request and size never change, and
      neither dispatch, cancellation nor a terminal state is ever taken back. */
  lemma {:induction false} OutcomesAreFinal(r: Run, j: nat, k: nat, s: SessionId, q: RequestId)
    requires IsRun(r) && j <= k < |r.states| == |r.steps| + 1
    requires OnItem(r.states[j], s, q) && s in r.states[k].sessions
    ensures OnItem(r.states[k], s, q) && OpGrows(r.states[j].sessions[s].items[q], r.states[k].sessions[s].items[q])
    decreases k
  {
    hide IsRun, SessionGrows, SidesGrow;
    if j < k {
      Lives(r, j, k - 1, k, s);
      OutcomesAreFinal(r, j, k - 1, s, q);
      SessionStep(r, k - 1, s);
      GrowsParts(r.states[k - 1].sessions[s], r.states[k].sessions[s], r.steps[k - 1]);
    }
  }

  /** So are the issuances and the streams of a session: neither an outcome, a
      cancellation nor an end is ever taken back. */
  lemma {:induction false} SidesAreFinal(r: Run, j: nat, k: nat, s: SessionId)
    requires IsRun(r) && j <= k < |r.states| == |r.steps| + 1
    requires s in r.states[j].sessions && s in r.states[k].sessions
    ensures SidesGrow(r.states[j].sessions[s], r.states[k].sessions[s])
    decreases k
  {
    hide IsRun, SessionGrows, SidesGrow;
    if j == k {
      SameSides(r.states[j].sessions[s], r.states[j].sessions[s]);
    } else {
      Lives(r, j, k - 1, k, s);
      SidesAreFinal(r, j, k - 1, s);
      SessionStep(r, k - 1, s);
      GrowsParts(r.states[k - 1].sessions[s], r.states[k].sessions[s], r.steps[k - 1]);
      SidesGrowTwice(r.states[j].sessions[s], r.states[k - 1].sessions[s], r.states[k].sessions[s]);
    }
  }

  lemma SidesGrowTwice(a: Session, b: Session, c: Session)
    requires SidesGrow(a, b) && SidesGrow(b, c)
    ensures SidesGrow(a, c)
  {
    forall r | r in a.issuances ensures r in c.issuances && IssuanceGrows(a.issuances[r], c.issuances[r]) {
      assert IssuanceGrows(a.issuances[r], b.issuances[r]) && IssuanceGrows(b.issuances[r], c.issuances[r]);
    }
    forall r | r in a.streams ensures r in c.streams && StreamGrows(a.streams[r], c.streams[r]) {
      assert StreamGrows(a.streams[r], b.streams[r]) && StreamGrows(b.streams[r], c.streams[r]);
    }
  }

  lemma DispatchEvent(h: Host, e: Step, s: SessionId, q: RequestId)
    requires Enabled(h, e) && Dispatched(s, q) in Apply(h, e).events
    ensures e == Dispatch(s, q) && OnItem(h, s, q) && h.sessions[s].items[q].state == Ready
    ensures OnItem(Apply(h, e).host, s, q) && Apply(h, e).host.sessions[s].items[q].dispatched
  {
    if e.Dispatch? || e.Local? || e.Commit? || e.Publish? || e.Remote? {
    } else {
      NoEvents(h, e);
    }
  }

  /** No request is ever dispatched twice. */
  lemma DispatchedOnce(r: Run, j: nat, k: nat, s: SessionId, q: RequestId)
    requires IsRun(r) && j < k < |r.steps| && |r.states| == |r.steps| + 1 && StepAt(r, j) && StepAt(r, k)
    requires Dispatched(s, q) in EventsAt(r, j)
    ensures Dispatched(s, q) !in EventsAt(r, k)
  {
    hide IsRun, Inv, Enabled, Apply;
    if Dispatched(s, q) in EventsAt(r, k) {
      DispatchEvent(r.states[j], r.steps[j], s, q);
      DispatchEvent(r.states[k], r.steps[k], s, q);
      OutcomesAreFinal(r, j + 1, k, s, q);
      RunInv(r, k);
      SessionParts(r.states[k], s);
    }
  }

  /** A finished guard leaves an honest outcome: dispatched work is completed or
      uncertain, undispatched work is never uncertain. */
  lemma HonestOutcome(r: Run, k: nat, s: SessionId, q: RequestId)
    requires IsRun(r) && k < |r.states| && OnItem(r.states[k], s, q)
    ensures var o := r.states[k].sessions[s].items[q];
            && (o.closed ==> Terminal(o.state))
            && (o.closed && o.dispatched ==> o.state == Completed || o.state == Uncertain)
            && (!o.dispatched ==> o.state != Uncertain)
    ensures q !in r.states[k].sessions[s].issuances && q !in r.states[k].sessions[s].streams
  {
    hide IsRun, Inv;
    RunInv(r, k);
    SessionParts(r.states[k], s);
  }

  /** A revoked binding stays revoked and empty for as long as it exists. */
  lemma {:induction false} RevokedStaysEmpty(r: Run, j: nat, k: nat, s: SessionId, b: ContextId)
    requires IsRun(r) && j <= k < |r.states| == |r.steps| + 1
    requires HasContext(r.states[j], s, b) && r.states[j].sessions[s].contexts[b].cancelled && s in r.states[k].sessions
    ensures HasContext(r.states[k], s, b)
    ensures r.states[k].sessions[s].contexts[b].cancelled && r.states[k].sessions[s].contexts[b].custody.None?
    decreases k
  {
    hide IsRun, Inv, SessionGrows, SidesGrow, OpSteps, SessionInv, Honest;
    RunInv(r, k);
    SessionParts(r.states[k], s);
    if j < k {
      Lives(r, j, k - 1, k, s);
      RevokedStaysEmpty(r, j, k - 1, s, b);
      SessionStep(r, k - 1, s);
      GrowsParts(r.states[k - 1].sessions[s], r.states[k].sessions[s], r.steps[k - 1]);
    }
  }

  /** How an operation's exchange may end in one step. */
  lemma ExchangeEnds(h: Host, e: Step, s: SessionId, q: RequestId)
    requires Inv(h) && Enabled(h, e) && OnItem(h, s, q) && OnItem(Apply(h, e).host, s, q)
    requires h.sessions[s].items[q].exchange.Some? && Apply(h, e).host.sessions[s].items[q].exchange.None?
    ensures Apply(h, e).host.sessions[s].items[q].state == Completed
            || EndsRevoked(Apply(h, e).host, s, h.sessions[s].items[q].exchange.value.context)
  {
    hide Inv, Apply, Enabled, EndsRevoked;
    EndsBy(h, e, s, q);
    SessionCustody(h, s, q);
    if e.Commit? {
      CommitEnds(h, e, s, q);
    } else {
      OwnExchange(h, e, s, q);
      FailureRevokes(h, s, q);
    }
  }

  lemma CommitEnds(h: Host, e: Step, s: SessionId, q: RequestId)
    requires e.Commit? && Enabled(h, e) && OnItem(h, s, q) && OnItem(Apply(h, e).host, s, q)
    requires h.sessions[s].items[q].exchange.Some? && Apply(h, e).host.sessions[s].items[q].exchange.None?
    ensures Apply(h, e).host.sessions[s].items[q].state == Completed
  {
    hide CommitCompletion;
    CommitTouches(h, e.session, e.request, e.recorded, e.remote);
  }

  /** A commit changes one operation, and ends its exchange only by completing it. */
  lemma CommitTouches(h: Host, s: SessionId, q: RequestId, recorded: bool, remote: Result<()>)
    requires OnItem(h, s, q)
    ensures var h' := CommitCompletion(h, s, q, recorded, remote).host;
            && OnItem(h', s, q) && h'.sessions == h.sessions[s := h'.sessions[s]]
            && h'.sessions[s].items == h.sessions[s].items[q := h'.sessions[s].items[q]]
            && (h.sessions[s].items[q].exchange.Some? && h'.sessions[s].items[q].exchange.None? ==>
                  h'.sessions[s].items[q].state == Completed)
  {
    hide Authorized, Usable;
  }

  lemma OwnExchange(h: Host, e: Step, s: SessionId, q: RequestId)
    requires e.Relinquishing? && Enabled(h, e) && OnItem(h, s, q) && OnItem(Apply(h, e).host, s, q)
    requires h.sessions[s].items[q].exchange.Some? && Apply(h, e).host.sessions[s].items[q].exchange.None?
    ensures Apply(h, e) == Relinquish(h, s, q) && Running(h, s, q)
  {
    hide Cleared;
  }

  lemma SessionCustody(h: Host, s: SessionId, q: RequestId)
    requires Inv(h) && OnItem(h, s, q) && h.sessions[s].items[q].exchange.Some?
    ensures h.sessions[s].items[q].exchange.value.context in h.sessions[s].contexts && !h.sessions[s].items[q].closed
  {
    hide Inv, SessionInv;
    SessionParts(h, s);
    assert InCustody(h.sessions[s], h.sessions[s].items[q].exchange.value);
    assert Honest(h.sessions[s].items[q]);
  }

  lemma EndsBy(h: Host, e: Step, s: SessionId, q: RequestId)
    requires Enabled(h, e) && OnItem(h, s, q) && OnItem(Apply(h, e).host, s, q)
    requires h.sessions[s].items[q].exchange.Some? && Apply(h, e).host.sessions[s].items[q].exchange.None?
    ensures e.Commit? || e.Relinquishing?
  {
    hide Enabled, Apply;
    StepGrows(h, e);
    assert OpSteps(h.sessions[s].items[q], Apply(h, e).host.sessions[s].items[q], e);
  }

  /** Over any run, an exchange that is over has either completed its operation
      or left its binding revoked and empty. */
  lemma {:induction false} ExchangesEnd(r: Run, j: nat, k: nat, s: SessionId, q: RequestId)
    requires IsRun(r) && j <= k < |r.states| == |r.steps| + 1
    requires OnItem(r.states[j], s, q) && r.states[j].sessions[s].items[q].exchange.Some? && OnItem(r.states[k], s, q)
    ensures var o, b := r.states[k].sessions[s].items[q], r.states[j].sessions[s].items[q].exchange.value.context;
            || (o.exchange.Some? && o.exchange.value.context == b)
            || o.state == Completed
            || (HasContext(r.states[k], s, b) && r.states[k].sessions[s].contexts[b].cancelled
                && r.states[k].sessions[s].contexts[b].custody.None?)
    decreases k
  {
    hide IsRun, Enabled, Apply, Inv, SessionGrows, SidesGrow;
    if j < k {
      Lives(r, j, k - 1, k, s);
      OutcomesAreFinal(r, j, k - 1, s, q);
      ExchangesEnd(r, j, k - 1, s, q);
      RunShape(r, k - 1);
      RunInv(r, k - 1);
      SessionStep(r, k - 1, s);
      GrowsParts(r.states[k - 1].sessions[s], r.states[k].sessions[s], r.steps[k - 1]);
      var b := r.states[j].sessions[s].items[q].exchange.value.context;
      var o, o' := r.states[k - 1].sessions[s].items[q], r.states[k].sessions[s].items[q];
      assert OpSteps(o, o', r.steps[k - 1]);
      if o.exchange.Some? && o.exchange.value.context == b {
        if o'.exchange.None? { ExchangeEnds(r.states[k - 1], r.steps[k - 1], s, q); }
      } else if o.state != Completed {
        RevokedStaysEmpty(r, k - 1, k, s, b);
      }
    }
  }
}
