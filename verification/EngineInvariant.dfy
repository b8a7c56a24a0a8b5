/** What every engine step keeps: budgets that equal their sums, one namespace
    of request ids, honest operation states and private state that is never in
    two places. */
module EngineInvariant {
  import opened Prelude
  import opened Sums
  import opened Engine

  // ---- Charges -------------------------------------------------------------

  ghost function ItemSizes(m: map<RequestId, Operation>): map<nat, nat> {
    map r | r in m :: m[r].size
  }

  ghost function LoginSizes(m: map<RequestId, Issuance>): map<nat, nat> {
    map r | r in m :: m[r].size
  }

  ghost function StreamSizes(m: map<RequestId, Attachment>): map<nat, nat> {
    map r | r in m :: m[r].size
  }

  ghost function SessionSizes(m: map<SessionId, Session>): map<nat, nat> {
    map s | s in m :: m[s].bytes
  }

  ghost function Charged(c: Session): nat {
    Total(ItemSizes(c.items)) + Total(LoginSizes(c.issuances)) + Total(StreamSizes(c.streams))
  }

  // ---- The invariant -------------------------------------------------------

  /** An operation is dispatched at most once and reports its outcome honestly. */
  predicate Honest(o: Operation) {
    && (o.state == Dispatching ==> o.dispatched)
    && (o.dispatched ==> o.state.Dispatching? || o.state.Completed? || o.state.Uncertain?)
    && (!o.dispatched ==> o.state != Uncertain)
    && (o.closed ==> Terminal(o.state) && o.exchange.None?)
  }

  /** A request id lives in only one of the three operation maps. */
  predicate OneNamespace(c: Session) {
    && (forall r :: r in c.items ==> r !in c.issuances && r !in c.streams)
    && (forall r :: r in c.issuances ==> r !in c.streams)
  }

  predicate Budgeted(c: Session) {
    c.bytes <= SESSION_BYTES && Count(c) <= MAX_OPERATIONS && c.remotes <= MAX_CONTEXTS && |c.contexts| <= MAX_CONTEXTS
  }

  predicate Private(x: Exchange) {
    x.held.Some? || x.staged.Some?
  }

  /** Private state is in its binding or in one exchange, never in both, never
      twice; a cancelled binding keeps none. */
  predicate Custody(c: Session) {
    && (forall r, q :: r in c.items && q in c.items && r != q && c.items[r].exchange.Some? && c.items[q].exchange.Some?
          ==> c.items[r].exchange.value.context != c.items[q].exchange.value.context)
    && (forall r :: r in c.items && c.items[r].exchange.Some? ==> InCustody(c, c.items[r].exchange.value))
    && (forall b :: b in c.contexts && c.contexts[b].cancelled ==> c.contexts[b].custody.None?)
  }

  predicate InCustody(c: Session, x: Exchange) {
    && x.context in c.contexts
    && !(x.held.Some? && x.staged.Some?)
    && (Private(x) || x.ready ==> c.contexts[x.context].custody.None?)
  }

  ghost predicate SessionInv(c: Session) {
    && c.bytes == Charged(c)
    && Budgeted(c) && OneNamespace(c) && Custody(c)
    && forall r :: r in c.items ==> Honest(c.items[r])
  }

  ghost predicate Inv(h: Host) {
    && h.bytes == Total(SessionSizes(h.sessions)) <= HOST_BYTES
    && |h.sessions| <= MAX_SESSIONS
    && forall s {:trigger SessionInv(h.sessions[s])} :: s in h.sessions ==> SessionInv(h.sessions[s])
  }

  // ---- One session changes -------------------------------------------------

  lemma SessionReplaced(h: Host, s: SessionId, c: Session)
    requires Inv(h) && s in h.sessions && SessionInv(c) && c.bytes == h.sessions[s].bytes
    ensures Inv(With(h, s, c))
  {
    hide SessionInv, Total;
    var h' := With(h, s, c);
    assert SessionSizes(h'.sessions) == SessionSizes(h.sessions);
    assert h'.sessions.Keys == h.sessions.Keys;
    assert |h'.sessions| == |h'.sessions.Keys|;
  }

  lemma SessionGrown(h: Host, s: SessionId, c: Session, size: nat)
    requires Inv(h) && s in h.sessions && SessionInv(c) && c.bytes == h.sessions[s].bytes + size && h.bytes + size <= HOST_BYTES
    ensures Inv(With(h, s, c).(bytes := h.bytes + size))
  {
    hide SessionInv, Total;
    var h' := With(h, s, c);
    TotalUpdate(SessionSizes(h.sessions), s, c.bytes);
    assert SessionSizes(h'.sessions) == SessionSizes(h.sessions)[s := c.bytes];
    assert h'.sessions.Keys == h.sessions.Keys;
    assert |h'.sessions| == |h'.sessions.Keys|;
  }

  lemma CreateInv(h: Host, s: SessionId, lifetime: int, valid: bool)
    requires Inv(h) && s !in h.sessions
    ensures Inv(CreateSession(h, s, lifetime, valid).host)
  {
    hide Total, SessionInv;
    var h' := CreateSession(h, s, lifetime, valid).host;
    if h' != h {
      TotalAdd(SessionSizes(h.sessions), s, 0);
      assert SessionSizes(h'.sessions) == SessionSizes(h.sessions)[s := 0];
      GrownBy(h.sessions, s, h'.sessions[s]);
      EmptySession(h.now + lifetime);
    }
  }

  lemma EmptySession(expires: int)
    ensures SessionInv(Session(expires, false, false, map[], map[], map[], 0, map[], 0))
  {
    var c := Session(expires, false, false, map[], map[], map[], 0, map[], 0);
    assert ItemSizes(c.items) == map[] && LoginSizes(c.issuances) == map[] && StreamSizes(c.streams) == map[];
  }

  lemma DropInv(h: Host, s: SessionId)
    requires Inv(h) && s in h.sessions
    ensures Inv(DropSession(h, s).host)
    ensures DropSession(h, s).host.bytes + h.sessions[s].bytes == h.bytes
  {
    hide SessionInv, Total;
    TotalWithout(SessionSizes(h.sessions), s);
    assert SessionSizes(h.sessions - {s}) == SessionSizes(h.sessions) - {s};
    assert (h.sessions - {s}).Keys == h.sessions.Keys - {s};
    assert |h.sessions - {s}| == |(h.sessions - {s}).Keys|;
  }

  // ---- One operation changes -----------------------------------------------

  /** Replacing an operation, and perhaps bindings, keeps the session in order. */
  lemma ItemReplaced(c: Session, r: RequestId, o: Operation, contexts: map<ContextId, Binding>)
    requires SessionInv(c) && r in c.items && o.size == c.items[r].size && Honest(o)
    requires contexts.Keys == c.contexts.Keys
    requires Custody(WithItem(c, r, o).(contexts := contexts))
    ensures SessionInv(WithItem(c, r, o).(contexts := contexts))
  {
    hide Total, Custody, Honest;
    var c' := WithItem(c, r, o).(contexts := contexts);
    assert ItemSizes(c'.items) == ItemSizes(c.items);
    assert c'.items.Keys == c.items.Keys;
    assert |c'.items| == |c'.items.Keys| == |c.items.Keys| == |c.items|;
    assert |contexts| == |contexts.Keys|;
  }

  /** An operation that keeps or drops its exchange does not disturb custody. */
  lemma ItemKeepsCustody(c: Session, r: RequestId, o: Operation)
    requires Custody(c) && r in c.items
    requires o.exchange.None? || o.exchange == c.items[r].exchange
    ensures Custody(WithItem(c, r, o))
  {
  }

  lemma StateChanged(h: Host, s: SessionId, r: RequestId, o: Operation)
    requires Inv(h) && OnItem(h, s, r) && o.size == h.sessions[s].items[r].size && Honest(o)
    requires o.exchange.None? || o.exchange == h.sessions[s].items[r].exchange
    ensures Inv(With(h, s, WithItem(h.sessions[s], r, o)))
  {
    hide Inv, Honest, Custody, Charged;
    var c := h.sessions[s];
    SessionParts(h, s);
    ItemKeepsCustody(c, r, o);
    assert WithItem(c, r, o).(contexts := c.contexts) == WithItem(c, r, o);
    ItemReplaced(c, r, o, c.contexts);
    SessionReplaced(h, s, WithItem(c, r, o));
  }

  lemma SessionParts(h: Host, s: SessionId)
    requires Inv(h) && s in h.sessions
    ensures SessionInv(h.sessions[s]) && Custody(h.sessions[s])
    ensures forall r :: r in h.sessions[s].items ==> Honest(h.sessions[s].items[r])
  {
  }

  lemma CancelInv(h: Host, s: SessionId, r: RequestId)
    requires Inv(h) && OnItem(h, s, r)
    ensures Inv(Cancel(h, s, r).host)
  {
    hide Inv, Custody;
    SessionParts(h, s);
    StateChanged(h, s, r, CancelledOp(h.sessions[s].items[r]));
  }

  // ---- Registration --------------------------------------------------------

  predicate Unused(c: Session, r: RequestId) {
    r !in c.items && r !in c.issuances && r !in c.streams
  }

  predicate Spacious(c: Session, size: nat) {
    Count(c) < MAX_OPERATIONS && c.bytes + size <= SESSION_BYTES
  }

  lemma TrackedSession(c: Session, r: RequestId, o: Operation)
    requires SessionInv(c) && Unused(c, r) && Spacious(c, o.size) && Honest(o) && o.exchange.None?
    ensures SessionInv(WithItem(c, r, o).(bytes := c.bytes + o.size))
  {
    hide Total, Honest, Custody;
    var c' := WithItem(c, r, o).(bytes := c.bytes + o.size);
    TrackedCustody(c, r, o);
    TotalAdd(ItemSizes(c.items), r, o.size);
    assert ItemSizes(c'.items) == ItemSizes(c.items)[r := o.size];
    GrownBy(c.items, r, o);
  }

  lemma TrackedCustody(c: Session, r: RequestId, o: Operation)
    requires Custody(c) && r !in c.items && o.exchange.None?
    ensures Custody(WithItem(c, r, o).(bytes := c.bytes + o.size))
  {
  }

  lemma GrownBy<V>(m: map<nat, V>, r: nat, v: V)
    requires r !in m
    ensures |m[r := v]| == |m| + 1
  {
    assert m[r := v].Keys == m.Keys + {r};
    assert |m[r := v]| == |m[r := v].Keys|;
  }

  lemma IssuedSession(c: Session, r: RequestId, i: Issuance)
    requires SessionInv(c) && Unused(c, r) && Spacious(c, i.size)
    ensures SessionInv(c.(issuances := c.issuances[r := i], bytes := c.bytes + i.size))
  {
    hide Total, Honest, Custody;
    var c' := c.(issuances := c.issuances[r := i], bytes := c.bytes + i.size);
    TotalAdd(LoginSizes(c.issuances), r, i.size);
    assert LoginSizes(c'.issuances) == LoginSizes(c.issuances)[r := i.size];
    GrownBy(c.issuances, r, i);
    SameCustody(c, c');
  }

  lemma AttachedSession(c: Session, r: RequestId, a: Attachment)
    requires SessionInv(c) && Unused(c, r) && Spacious(c, a.size)
    ensures SessionInv(c.(streams := c.streams[r := a], bytes := c.bytes + a.size))
  {
    hide Total, Honest, Custody;
    var c' := c.(streams := c.streams[r := a], bytes := c.bytes + a.size);
    TotalAdd(StreamSizes(c.streams), r, a.size);
    assert StreamSizes(c'.streams) == StreamSizes(c.streams)[r := a.size];
    GrownBy(c.streams, r, a);
    SameCustody(c, c');
  }

  lemma SameCustody(c: Session, c': Session)
    requires c'.items == c.items && c'.contexts == c.contexts && Custody(c)
    ensures Custody(c')
  {
  }

  lemma TrackInv(h: Host, s: SessionId, r: RequestId, body: Opaque, size: nat, fits: bool)
    requires Inv(h) && s in h.sessions
    ensures Inv(Track(h, s, r, body, size, fits).host)
  {
    hide Inv, SessionInv;
    SessionParts(h, s);
    var c := h.sessions[s];
    if Track(h, s, r, body, size, fits).host != h {
      var o := Operation(body, size, Received, false, false, false, None);
      TrackedSession(c, r, o);
      SessionGrown(h, s, WithItem(c, r, o).(bytes := c.bytes + size), size);
    }
  }

  lemma IssueInv(h: Host, s: SessionId, r: RequestId, body: Opaque, size: nat)
    requires Inv(h) && s in h.sessions
    ensures Inv(Issue(h, s, r, body, size).host)
  {
    hide Inv, SessionInv;
    SessionParts(h, s);
    var c := h.sessions[s];
    if Issue(h, s, r, body, size).host != h {
      var i := Issuance(body, size, Received, false);
      IssuedSession(c, r, i);
      SessionGrown(h, s, c.(issuances := c.issuances[r := i], bytes := c.bytes + size), size);
    }
  }

  lemma AdmitInv(h: Host, s: SessionId, r: RequestId, body: Opaque, size: nat, granted: Result<()>)
    requires Inv(h) && s in h.sessions
    ensures Inv(AdmitTcp(h, s, r, body, size, granted).host)
  {
    hide Inv, SessionInv;
    SessionParts(h, s);
    var c := h.sessions[s];
    if AdmitTcp(h, s, r, body, size, granted).host != h {
      var a := Attachment(body, size, false);
      AttachedSession(c, r, a);
      SessionGrown(h, s, c.(streams := c.streams[r := a], bytes := c.bytes + size), size);
    }
  }

  // ---- The protocol --------------------------------------------------------

  lemma AdvanceInv(h: Host, s: SessionId, r: RequestId, state: OpState)
    requires Inv(h) && Running(h, s, r)
    requires state in (if h.sessions[s].items[r].dispatched then {Dispatching} else {Validated, PendingApproval, Ready})
    ensures Inv(Advance(h, s, r, state).host)
  {
    hide Inv, SessionInv, Custody;
    SessionParts(h, s);
    var o := h.sessions[s].items[r];
    if !Terminal(o.state) { StateChanged(h, s, r, o.(state := state)); }
  }

  lemma DispatchInv(h: Host, s: SessionId, r: RequestId)
    requires Inv(h) && Running(h, s, r)
    ensures Inv(BeginDispatch(h, s, r).host)
  {
    hide Inv, SessionInv, Custody;
    SessionParts(h, s);
    var o := h.sessions[s].items[r];
    CancelInv(h, s, r);
    if Authorized(h, s) && o.state == Ready && !o.cancelled {
      StateChanged(h, s, r, o.(state := Dispatching, dispatched := true));
    }
  }

  lemma LocalInv(h: Host, s: SessionId, r: RequestId, recorded: bool)
    requires Inv(h) && Running(h, s, r) && h.sessions[s].items[r].exchange.None?
    ensures Inv(CompleteLocal(h, s, r, recorded).host)
  {
    hide Inv, SessionInv, Custody;
    SessionParts(h, s);
    var o := h.sessions[s].items[r];
    CancelInv(h, s, r);
    if recorded && Authorized(h, s) && !Terminal(o.state) && !o.cancelled {
      StateChanged(h, s, r, o.(state := Completed, closed := true));
    }
  }

  /** Replacing an operation together with the bindings it touches. */
  lemma ExchangeChanged(h: Host, s: SessionId, r: RequestId, o: Operation, contexts: map<ContextId, Binding>)
    requires Inv(h) && OnItem(h, s, r) && o.size == h.sessions[s].items[r].size && Honest(o)
    requires contexts.Keys == h.sessions[s].contexts.Keys
    requires Custody(WithItem(h.sessions[s], r, o).(contexts := contexts))
    ensures Inv(With(h, s, WithItem(h.sessions[s], r, o).(contexts := contexts)))
  {
    hide Inv, SessionInv, Custody, Honest;
    SessionParts(h, s);
    var c := h.sessions[s];
    ItemReplaced(c, r, o, contexts);
    BytesKept(c, r, o, contexts);
    SessionReplaced(h, s, WithItem(c, r, o).(contexts := contexts));
  }

  lemma BytesKept(c: Session, r: RequestId, o: Operation, contexts: map<ContextId, Binding>)
    ensures WithItem(c, r, o).(contexts := contexts).bytes == c.bytes
  {
  }

  lemma BeginInv(h: Host, s: SessionId, r: RequestId, b: ContextId)
    requires Inv(h) && Running(h, s, r)
    ensures Inv(StartExchange(h, s, r, b).host)
  {
    hide Inv, SessionInv;
    SessionParts(h, s);
    var c := h.sessions[s];
    if StartExchange(h, s, r, b).host != h {
      var o := c.items[r].(exchange := Some(Exchange(b, c.contexts[b].status, None, false, None)));
      assert WithItem(c, r, o).(contexts := c.contexts) == WithItem(c, r, o);
      assert forall q :: q in c.items && c.items[q].exchange.Some? ==> c.items[q].exchange.value.context != b by {
        forall q | q in c.items && c.items[q].exchange.Some? ensures c.items[q].exchange.value.context != b {
          assert !Holds(c.items[q], b);
        }
      }
      ExchangeChanged(h, s, r, o, c.contexts);
    }
  }

  lemma TakeInv(h: Host, s: SessionId, r: RequestId)
    requires Inv(h) && Running(h, s, r) && FreshExchange(h.sessions[s].items[r])
    ensures Inv(TakeCustody(h, s, r).host)
  {
    hide Inv, SessionInv;
    SessionParts(h, s);
    var c := h.sessions[s];
    var o := c.items[r];
    var x := o.exchange.value;
    if x.context in c.contexts {
      var b := c.contexts[x.context];
      var o' := o.(exchange := Some(x.(held := b.custody)));
      ExchangeChanged(h, s, r, o', c.contexts[x.context := b.(custody := None)]);
    }
  }

  lemma CaptureInv(h: Host, s: SessionId, r: RequestId, value: Opaque, status: AuthState)
    requires Inv(h) && Running(h, s, r) && HeldExchange(h.sessions[s].items[r])
    ensures Inv(Capture(h, s, r, value, status).host)
  {
    hide Inv, SessionInv;
    SessionParts(h, s);
    var c := h.sessions[s];
    var o := c.items[r];
    var o' := o.(exchange := Some(o.exchange.value.(held := Some(value), status := status, ready := true)));
    assert WithItem(c, r, o').(contexts := c.contexts) == WithItem(c, r, o');
    ExchangeChanged(h, s, r, o', c.contexts);
  }

  lemma PrepareInv(h: Host, s: SessionId, r: RequestId, remote: Result<()>)
    requires Inv(h) && Running(h, s, r)
    ensures Inv(PrepareCompletion(h, s, r, remote).host)
  {
    hide Inv, SessionInv;
    SessionParts(h, s);
    var c := h.sessions[s];
    var o := c.items[r];
    if PrepareCompletion(h, s, r, remote).host != h {
      var x := o.exchange.value;
      var b := Checked(c.contexts[x.context], h.now);
      var contexts := c.contexts[x.context := b];
      assert WithItem(c, r, o).(contexts := contexts) == c.(contexts := contexts);
      ExchangeChanged(h, s, r, o, contexts);
      var o' := o.(exchange := Some(x.(held := None, ready := false, staged := x.held)));
      if x.ready { ExchangeChanged(h, s, r, o', contexts); }
    }
  }

  lemma WithoutStageInv(h: Host, s: SessionId, r: RequestId)
    requires Inv(h) && Running(h, s, r)
    ensures Inv(With(h, s, WithItem(h.sessions[s], r, WithoutStage(h.sessions[s].items[r]))))
  {
    hide Inv, SessionInv;
    SessionParts(h, s);
    var c := h.sessions[s];
    var o := WithoutStage(c.items[r]);
    assert WithItem(c, r, o).(contexts := c.contexts) == WithItem(c, r, o);
    ExchangeChanged(h, s, r, o, c.contexts);
  }

  lemma CommitInv(h: Host, s: SessionId, r: RequestId, recorded: bool, remote: Result<()>)
    requires Inv(h) && Running(h, s, r)
    ensures Inv(CommitCompletion(h, s, r, recorded, remote).host)
  {
    hide Inv, SessionInv, Custody, InCustody;
    SessionParts(h, s);
    WithoutStageInv(h, s, r);
    var c := h.sessions[s];
    var o := c.items[r];
    if CommitCompletion(h, s, r, recorded, remote).result.Ok? {
      var done := o.(state := Completed, closed := true, exchange := None);
      if o.exchange.None? {
        StateChanged(h, s, r, done);
        assert WithItem(c, r, done).(contexts := c.contexts) == WithItem(c, r, done);
      } else {
        var x := o.exchange.value;
        var contexts := c.contexts[x.context := c.contexts[x.context].(custody := x.staged, status := x.status)];
        ReturnedCustody(c, r, done, x.context, c.contexts[x.context].(custody := x.staged, status := x.status));
        ExchangeChanged(h, s, r, done, contexts);
      }
    }
  }

  /** The exchange ends and its binding changes, without reviving a cancelled one. */
  lemma ReturnedCustody(c: Session, r: RequestId, o: Operation, b: ContextId, binding: Binding)
    requires Custody(c) && r in c.items && o.exchange.None?
    requires c.items[r].exchange.Some? && c.items[r].exchange.value.context == b
    requires binding.cancelled ==> binding.custody.None?
    ensures b in c.contexts
    ensures Custody(WithItem(c, r, o).(contexts := c.contexts[b := binding]))
  {
    var c' := WithItem(c, r, o).(contexts := c.contexts[b := binding]);
    assert InCustody(c, c.items[r].exchange.value);
    forall q | q in c'.items && c'.items[q].exchange.Some? ensures InCustody(c', c'.items[q].exchange.value) {
      assert InCustody(c, c.items[q].exchange.value);
    }
  }

  lemma RelinquishInv(h: Host, s: SessionId, r: RequestId)
    requires Inv(h) && OnItem(h, s, r)
    ensures Inv(Relinquish(h, s, r).host)
  {
    hide Inv, SessionInv, Custody, InCustody;
    SessionParts(h, s);
    var c := h.sessions[s];
    var o := c.items[r];
    if !o.closed && o.exchange.Some? {
      var f := o.(exchange := None);
      if o.exchange.value.context !in c.contexts {
        StateChanged(h, s, r, f);
        assert WithItem(c, r, f).(contexts := c.contexts) == WithItem(c, r, f);
      } else {
        var b := o.exchange.value.context;
        ReturnedCustody(c, r, f, b, Cleared(c.contexts[b], Revoked));
        ExchangeChanged(h, s, r, f, c.contexts[b := Cleared(c.contexts[b], Revoked)]);
      }
    }
  }

  lemma SettleInv(h: Host, s: SessionId, r: RequestId, reason: ErrorCode)
    requires Inv(h) && OnItem(h, s, r) && h.sessions[s].items[r].exchange.None?
    ensures Inv(Settle(h, s, r, reason).host)
  {
    hide Inv, SessionInv, Custody;
    SessionParts(h, s);
    var o := h.sessions[s].items[r];
    if !o.closed { StateChanged(h, s, r, FailedOp(o, reason)); }
  }

  // ---- Contexts, issuances and streams -------------------------------------

  /** A change that leaves operations, sizes and the number of contexts alone. */
  lemma SideChanged(h: Host, s: SessionId, c': Session)
    requires Inv(h) && s in h.sessions
    requires var c := h.sessions[s];
             && c' == c.(issuances := c'.issuances, streams := c'.streams, contexts := c'.contexts, revoked := c'.revoked,
                         cancelled := c'.cancelled, remotes := c'.remotes)
             && LoginSizes(c'.issuances) == LoginSizes(c.issuances) && StreamSizes(c'.streams) == StreamSizes(c.streams)
             && |c'.contexts| <= MAX_CONTEXTS && c'.remotes <= MAX_CONTEXTS
    requires Custody(c')
    ensures Inv(With(h, s, c'))
  {
    hide Total, Custody, Inv, Honest;
    SessionParts(h, s);
    var c := h.sessions[s];
    assert c'.issuances.Keys == LoginSizes(c'.issuances).Keys == c.issuances.Keys;
    assert c'.streams.Keys == StreamSizes(c'.streams).Keys == c.streams.Keys;
    assert |c'.issuances| == |c'.issuances.Keys| && |c'.streams| == |c'.streams.Keys|;
    assert |c.issuances| == |c.issuances.Keys| && |c.streams| == |c.streams.Keys|;
    SessionReplaced(h, s, c');
  }

  lemma MarkInv(h: Host, s: SessionId, revoked: bool, cancelled: bool)
    requires Inv(h) && s in h.sessions
    ensures Inv(With(h, s, h.sessions[s].(revoked := revoked, cancelled := cancelled)))
  {
    hide Inv, SessionInv, Custody;
    SessionBudget(h, s);
    var c := h.sessions[s];
    SameCustody(c, c.(revoked := revoked, cancelled := cancelled));
    SideChanged(h, s, c.(revoked := revoked, cancelled := cancelled));
  }

  lemma SessionBudget(h: Host, s: SessionId)
    requires Inv(h) && s in h.sessions
    ensures Budgeted(h.sessions[s]) && Custody(h.sessions[s])
  {
    assert SessionInv(h.sessions[s]);
  }

  lemma CancelIssuanceInv(h: Host, s: SessionId, r: RequestId)
    requires Inv(h) && s in h.sessions && r in h.sessions[s].issuances
    ensures Inv(CancelIssuance(h, s, r).host)
  {
    hide Inv, SessionInv, Custody;
    SessionBudget(h, s);
    var c := h.sessions[s];
    var i := c.issuances[r];
    var c' := c.(issuances := c.issuances[r := i.(state := Cancelled, cancelled := true)]);
    SameCustody(c, c');
    SideChanged(h, s, c');
  }

  lemma PublishInv(h: Host, s: SessionId, r: RequestId, b: ContextId, prepared: Result<Binding>)
    requires Inv(h) && s in h.sessions && r in h.sessions[s].issuances && b !in h.sessions[s].contexts
    ensures Inv(PublishLogin(h, s, r, b, prepared).host)
  {
    hide Inv, SessionInv, Custody, Authorized;
    SessionBudget(h, s);
    var c := h.sessions[s];
    var i := c.issuances[r];
    var verdict := PublishVerdict(h, s, i, prepared);
    if !Terminal(i.state) {
      if verdict.Err? {
        var c' := c.(issuances := c.issuances[r := i.(state := IssueFailure(verdict.error))]);
        SameCustody(c, c');
        SideChanged(h, s, c');
      } else {
        var c' := c.(issuances := c.issuances[r := i.(state := Completed)], contexts := c.contexts[b := prepared.value]);
        GrownBy(c.contexts, b, prepared.value);
        ContextAdded(c, b, prepared.value, c');
        SideChanged(h, s, c');
      }
    }
  }

  lemma ContextAdded(c: Session, b: ContextId, binding: Binding, c': Session)
    requires Custody(c) && b !in c.contexts && !binding.cancelled
    requires c'.items == c.items && c'.contexts == c.contexts[b := binding]
    ensures Custody(c')
  {
    forall q | q in c'.items && c'.items[q].exchange.Some? ensures InCustody(c', c'.items[q].exchange.value) {
      assert InCustody(c, c.items[q].exchange.value);
    }
  }

  lemma ClearedCustody(c: Session, b: ContextId)
    requires Custody(c) && b in c.contexts
    ensures Custody(c.(contexts := c.contexts[b := Cleared(c.contexts[b], Revoked)]))
  {
    var c' := c.(contexts := c.contexts[b := Cleared(c.contexts[b], Revoked)]);
    forall q | q in c'.items && c'.items[q].exchange.Some? ensures InCustody(c', c'.items[q].exchange.value) {
      assert InCustody(c, c.items[q].exchange.value);
    }
  }

  lemma ClearInv(h: Host, s: SessionId, b: ContextId)
    requires Inv(h) && s in h.sessions && b in h.sessions[s].contexts
    ensures Inv(Invalidate(h, s, b).host)
  {
    hide Inv, SessionInv, Custody;
    SessionBudget(h, s);
    var c := h.sessions[s];
    var contexts := c.contexts[b := Cleared(c.contexts[b], Revoked)];
    ClearedCustody(c, b);
    assert contexts.Keys == c.contexts.Keys && |contexts| == |contexts.Keys| && |c.contexts| == |c.contexts.Keys|;
    SideChanged(h, s, c.(contexts := contexts));
  }

  lemma RemoteInv(h: Host, s: SessionId, r: RequestId, added: bool, begun: Result<()>)
    requires Inv(h) && OnItem(h, s, r)
    ensures Inv(PrepareRemote(h, s, r, added, begun).host)
  {
    hide Inv, SessionInv, Custody, Authorized;
    SessionBudget(h, s);
    var c := h.sessions[s];
    var c' := c.(remotes := if added then c.remotes + 1 else c.remotes);
    if PrepareRemote(h, s, r, added, begun).result.Ok? {
      SameCustody(c, c');
      SideChanged(h, s, c');
    }
  }

  lemma EndInv(h: Host, s: SessionId, r: RequestId)
    requires Inv(h) && s in h.sessions && r in h.sessions[s].streams
    ensures Inv(EndStream(h, s, r).host)
  {
    hide Inv, SessionInv, Custody;
    SessionBudget(h, s);
    var c := h.sessions[s];
    var c' := c.(streams := c.streams[r := c.streams[r].(ended := true)]);
    SameCustody(c, c');
    SideChanged(h, s, c');
  }

  lemma PlainInv(h: Host, closed: bool, now: int)
    requires Inv(h)
    ensures Inv(h.(closed := closed, now := now))
  {
  }

  /** Every enabled step keeps the invariant. */
  lemma StepInv(h: Host, e: Step)
    requires Enabled(h, e) && Inv(h)
    ensures Inv(Apply(h, e).host)
  {
    hide Inv, CreateSession, DropSession, Track, Issue, AdmitTcp, Cancel, Advance, BeginDispatch, CompleteLocal, StartExchange,
         TakeCustody, Capture, PrepareCompletion, CommitCompletion, Relinquish, Settle, CancelIssuance, PublishLogin, PrepareRemote,
         Invalidate, EndStream;
    match e
    case Tick(now) => PlainInv(h, h.closed, now);
    case Create(s, lifetime, valid) => CreateInv(h, s, lifetime, valid);
    case DropCore(s) => DropInv(h, s);
    case Retire => PlainInv(h, true, h.now);
    case RetireOne(s) => MarkInv(h, s, true, h.sessions[s].cancelled);
    case Notify(s) => MarkInv(h, s, h.sessions[s].revoked, true);
    case Register(s, r, body, size, fits) => TrackInv(h, s, r, body, size, fits);
    case RegisterLogin(s, r, body, size) => IssueInv(h, s, r, body, size);
    case RegisterStream(s, r, body, size, granted) => AdmitInv(h, s, r, body, size, granted);
    case Cancelling(s, r) => CancelInv(h, s, r);
    case Advancing(s, r, state) => AdvanceInv(h, s, r, state);
    case Dispatch(s, r) => DispatchInv(h, s, r);
    case Local(s, r, recorded) => LocalInv(h, s, r, recorded);
    case Begin(s, r, b) => BeginInv(h, s, r, b);
    case Take(s, r) => TakeInv(h, s, r);
    case Captured(s, r, value, status) => CaptureInv(h, s, r, value, status);
    case Prepare(s, r, remote) => PrepareInv(h, s, r, remote);
    case Commit(s, r, recorded, remote) => CommitInv(h, s, r, recorded, remote);
    case Relinquishing(s, r) => RelinquishInv(h, s, r);
    case Failing(s, r, reason) => SettleInv(h, s, r, reason);
    case CancelLogin(s, r) => CancelIssuanceInv(h, s, r);
    case Publish(s, r, b, prepared) => PublishInv(h, s, r, b, prepared);
    case Remote(s, r, added, begun) => RemoteInv(h, s, r, added, begun);
    case Clear(s, b) => ClearInv(h, s, b);
    case End(s, r) => EndInv(h, s, r);
  }
}
