/** Broker authority and the operation protocol, as atomic steps over one value:
    each step is one critical section, and every commit crosses the admission
    boundary that closure and revocation also cross. A flag that wakes a
    cancelled operation or binding is set in the section that decides it. */
module Engine {
  import opened Prelude

  const MAX_SESSIONS: nat := 64
  const MAX_OPERATIONS: nat := 4096
  const SESSION_BYTES: nat := 8 * 1024 * 1024
  const HOST_BYTES: nat := 64 * 1024 * 1024
  const MAX_CONTEXTS: nat := 16
  const MAX_LIFETIME: int := 3600

  type SessionId = nat
  type RequestId = nat
  type ContextId = nat

  /** A request body or a jar with its token and template: compared or moved,
      never inspected. */
  type Opaque = int

  datatype OpState =
    Received | Validated | PendingApproval | Ready | Dispatching
    | Completed | Failed | Uncertain | Denied | Expired | Cancelled

  predicate Terminal(s: OpState) {
    s.Completed? || s.Failed? || s.Uncertain? || s.Denied? || s.Expired? || s.Cancelled?
  }

  datatype AuthState = Unauthenticated | Authenticating | Authenticated | Lapsed | Revoked

  /** A login context. `custody` is its private state; `None` once cleared or
      moved into an exchange. */
  datatype Binding = Binding(expires: int, status: AuthState, cancelled: bool, custody: Option<Opaque>)

  /** One website exchange: `held` is the private state moved out of the binding,
      `ready` says the response is in, `staged` is what completion is committing. */
  datatype Exchange = Exchange(context: ContextId, status: AuthState, held: Option<Opaque>, ready: bool, staged: Option<Opaque>)

  /** `closed` says that the operation's guard has finished. */
  datatype Operation = Operation(request: Opaque, size: nat, state: OpState, cancelled: bool, dispatched: bool, closed: bool,
                                 exchange: Option<Exchange>)

  datatype Issuance = Issuance(request: Opaque, size: nat, state: OpState, cancelled: bool)

  datatype Attachment = Attachment(request: Opaque, size: nat, ended: bool)

  datatype Session = Session(expires: int, revoked: bool, cancelled: bool, items: map<RequestId, Operation>,
                             issuances: map<RequestId, Issuance>, streams: map<RequestId, Attachment>, bytes: nat,
                             contexts: map<ContextId, Binding>, remotes: nat)

  datatype Host = Host(closed: bool, bytes: nat, now: int, sessions: map<SessionId, Session>)

  /** What has irrevocably happened, in order. */
  datatype Event =
    | Retired
    | SessionRetired(session: SessionId)
    | Dispatched(session: SessionId, request: RequestId)
    | Finished(session: SessionId, request: RequestId)
    | ContextPublished(session: SessionId)
    | RemotePublished(session: SessionId)

  datatype Next = Next(host: Host, result: Result<()>, events: seq<Event>)

  function Refuse(h: Host, e: ErrorCode): Next {
    Next(h, Err(e), [])
  }

  function With(h: Host, s: SessionId, c: Session): Host {
    h.(sessions := h.sessions[s := c])
  }

  function WithItem(c: Session, r: RequestId, o: Operation): Session {
    c.(items := c.items[r := o])
  }

  // ---- Authority -----------------------------------------------------------

  predicate Authorized(h: Host, s: SessionId) {
    && !h.closed
    && s in h.sessions
    && !h.sessions[s].revoked && !h.sessions[s].cancelled && h.sessions[s].expires > h.now
  }

  /** `valid` says that the requested resources and items are configured. */
  function CreateSession(h: Host, s: SessionId, lifetime: int, valid: bool): Next {
    if h.closed then Refuse(h, SessionInvalid)
    else if lifetime <= 0 || lifetime > MAX_LIFETIME || !valid then Refuse(h, RequestInvalid)
    else if |h.sessions| >= MAX_SESSIONS then Refuse(h, LimitExceeded)
    else Next(With(h, s, Session(h.now + lifetime, false, false, map[], map[], map[], 0, map[], 0)), Ok(()), [])
  }

  /** Every handle and guard of the session is gone. */
  function DropSession(h: Host, s: SessionId): Next
    requires s in h.sessions
  {
    Next(h.(sessions := h.sessions - {s}, bytes := Max(0, h.bytes - h.sessions[s].bytes)), Ok(()), [])
  }

  function CloseAdmission(h: Host): Next {
    Next(h.(closed := true), Ok(()), [Retired])
  }

  /** Revocation takes effect at the admission boundary; cleanup follows. */
  function RetireSession(h: Host, s: SessionId): Next
    requires s in h.sessions
  {
    Next(With(h, s, h.sessions[s].(revoked := true)), Ok(()), [SessionRetired(s)])
  }

  function NotifySession(h: Host, s: SessionId): Next
    requires s in h.sessions
  {
    Next(With(h, s, h.sessions[s].(cancelled := true)), Ok(()), [])
  }

  // ---- Registration: three kinds of operation share ids and budgets --------

  function Count(c: Session): nat {
    |c.items| + |c.issuances| + |c.streams|
  }

  predicate Room(h: Host, c: Session, size: nat) {
    Count(c) < MAX_OPERATIONS && c.bytes + size <= SESSION_BYTES && h.bytes + size <= HOST_BYTES
  }

  /** `fits` says that the request's own fields are within their limits. */
  function Track(h: Host, s: SessionId, r: RequestId, request: Opaque, size: nat, fits: bool): Next
    requires s in h.sessions
  {
    var c := h.sessions[s];
    if r in c.issuances || r in c.streams then Refuse(h, RequestConflict)
    else if r in c.items then
      if c.items[r].request != request then Refuse(h, RequestConflict) else Next(h, Ok(()), [])
    else if !fits || !Room(h, c, size) then Refuse(h, LimitExceeded)
    else Next(With(h, s, WithItem(c, r, Operation(request, size, Received, false, false, false, None)).(bytes := c.bytes + size))
                .(bytes := h.bytes + size), Ok(()), [])
  }

  function Issue(h: Host, s: SessionId, r: RequestId, request: Opaque, size: nat): Next
    requires s in h.sessions
  {
    var c := h.sessions[s];
    if r in c.items || r in c.streams then Refuse(h, RequestConflict)
    else if r in c.issuances then
      if c.issuances[r].request != request then Refuse(h, RequestConflict) else Next(h, Ok(()), [])
    else if !Room(h, c, size) then Refuse(h, LimitExceeded)
    else Next(With(h, s, c.(issuances := c.issuances[r := Issuance(request, size, Received, false)], bytes := c.bytes + size))
                .(bytes := h.bytes + size), Ok(()), [])
  }

  /** `granted` says that the profile allows the stream and a slot is free. */
  function AdmitTcp(h: Host, s: SessionId, r: RequestId, request: Opaque, size: nat, granted: Result<()>): Next
    requires s in h.sessions
  {
    var c := h.sessions[s];
    if !Authorized(h, s) then Refuse(h, SessionInvalid)
    else if r in c.items || r in c.issuances then Refuse(h, RequestConflict)
    else if r in c.streams then
      if c.streams[r].request != request then Refuse(h, RequestConflict) else Next(h, Ok(()), [])
    else if granted.Err? then Refuse(h, granted.error)
    else if !Room(h, c, size) then Refuse(h, LimitExceeded)
    else Next(With(h, s, c.(streams := c.streams[r := Attachment(request, size, false)], bytes := c.bytes + size))
                .(bytes := h.bytes + size), Ok(()), [])
  }

  // ---- One operation -------------------------------------------------------

  function CancelledOp(o: Operation): Operation {
    if Terminal(o.state) then o
    else o.(state := if o.state == Dispatching then Uncertain else Cancelled, cancelled := true)
  }

  function Cancel(h: Host, s: SessionId, r: RequestId): Next
    requires s in h.sessions && r in h.sessions[s].items
  {
    Next(With(h, s, WithItem(h.sessions[s], r, CancelledOp(h.sessions[s].items[r]))), Ok(()), [])
  }

  /** The owner moves its operation towards dispatch. */
  function Advance(h: Host, s: SessionId, r: RequestId, next: OpState): Next
    requires s in h.sessions && r in h.sessions[s].items
  {
    var c := h.sessions[s];
    var o := c.items[r];
    if Terminal(o.state) then Refuse(h, RequestConflict)
    else Next(With(h, s, WithItem(c, r, o.(state := next))), Ok(()), [])
  }

  /** The final handoff: authority and state are checked in one step. */
  function BeginDispatch(h: Host, s: SessionId, r: RequestId): Next
    requires s in h.sessions && r in h.sessions[s].items
  {
    var c := h.sessions[s];
    var o := c.items[r];
    if !Authorized(h, s) then Refuse(h, SessionInvalid)
    else if o.state != Ready || o.cancelled then Refuse(h, RequestConflict)
    else Next(With(h, s, WithItem(c, r, o.(state := Dispatching, dispatched := true))), Ok(()), [Dispatched(s, r)])
  }

  /** Complete without remote work. `recorded` says that the recorder ran the
      commit, which it does at most once. */
  function CompleteLocal(h: Host, s: SessionId, r: RequestId, recorded: bool): Next
    requires s in h.sessions && r in h.sessions[s].items
  {
    var c := h.sessions[s];
    var o := c.items[r];
    if !recorded then Refuse(h, ObservationUnavailable)
    else if !Authorized(h, s) then Refuse(h, SessionInvalid)
    else if Terminal(o.state) || o.cancelled then Refuse(h, RequestConflict)
    else Next(With(h, s, WithItem(c, r, o.(state := Completed, closed := true))), Ok(()), [Finished(s, r)])
  }

  /** After either one is refused for lack of authority, the guard cancels its
      operation, in a section of its own. */
  function CancelRefused(n: Next, s: SessionId, r: RequestId): Next
    requires s in n.host.sessions && r in n.host.sessions[s].items
  {
    if n.result == Err(SessionInvalid) then n.(host := Cancel(n.host, s, r).host) else n
  }

  // ---- Website exchanges: private state moves, and is never duplicated -----

  predicate Holds(o: Operation, b: ContextId) {
    o.exchange.Some? && o.exchange.value.context == b
  }

  function Cleared(b: Binding, status: AuthState): Binding {
    b.(status := status, cancelled := true, custody := None)
  }

  /** Expiry is discovered when the binding is checked. */
  function Checked(b: Binding, now: int): Binding {
    if b.expires <= now && b.status != Revoked then Cleared(b, Lapsed) else b
  }

  predicate Usable(b: Binding, now: int) {
    !b.cancelled && b.expires > now
  }

  /** Take the binding's only exchange permit. */
  function StartExchange(h: Host, s: SessionId, r: RequestId, b: ContextId): Next
    requires s in h.sessions && r in h.sessions[s].items
  {
    var c := h.sessions[s];
    var o := c.items[r];
    if b !in c.contexts || !Usable(c.contexts[b], h.now) then Refuse(h, PlaceholderInvalid)
    else if o.exchange.Some? || exists q :: q in c.items && Holds(c.items[q], b) then Refuse(h, RequestConflict)
    else Next(With(h, s, WithItem(c, r, o.(exchange := Some(Exchange(b, c.contexts[b].status, None, false, None))))), Ok(()), [])
  }

  /** Move the private state out of the binding into the exchange. */
  function TakeCustody(h: Host, s: SessionId, r: RequestId): Next
    requires s in h.sessions && r in h.sessions[s].items && h.sessions[s].items[r].exchange.Some?
  {
    var c := h.sessions[s];
    var o := c.items[r];
    var x := o.exchange.value;
    if x.context !in c.contexts then Refuse(h, PlaceholderInvalid)
    else
      var b := c.contexts[x.context];
      Next(With(h, s, WithItem(c, r, o.(exchange := Some(x.(held := b.custody))))
                        .(contexts := c.contexts[x.context := b.(custody := None)])), Ok(()), [])
  }

  /** The inspected response replaces the held private state. */
  function Capture(h: Host, s: SessionId, r: RequestId, value: Opaque, status: AuthState): Next
    requires s in h.sessions && r in h.sessions[s].items && h.sessions[s].items[r].exchange.Some?
  {
    var c := h.sessions[s];
    var o := c.items[r];
    Next(With(h, s, WithItem(c, r, o.(exchange := Some(o.exchange.value.(held := Some(value), status := status, ready := true))))), Ok(()), [])
  }

  // ---- Completion ----------------------------------------------------------

  function WithoutStage(o: Operation): Operation {
    if o.exchange.None? then o else o.(exchange := Some(o.exchange.value.(held := None, staged := None, ready := false)))
  }

  /** Before recording the closing batch: check, and take the private state.
      `remote` is what the remote context's own check answers. */
  function PrepareCompletion(h: Host, s: SessionId, r: RequestId, remote: Result<()>): Next
    requires s in h.sessions && r in h.sessions[s].items
  {
    var c := h.sessions[s];
    var o := c.items[r];
    if !Authorized(h, s) || o.cancelled || o.state != Dispatching then Refuse(h, OutcomeUnknown)
    else if o.exchange.None? then Next(h, remote, [])
    else
      var x := o.exchange.value;
      if x.context !in c.contexts then Refuse(h, PlaceholderInvalid)
      else
        var b := Checked(c.contexts[x.context], h.now);
        var c' := c.(contexts := c.contexts[x.context := b]);
        if b.cancelled then Next(With(h, s, c'), Err(PlaceholderInvalid), [])
        else if remote.Err? then Next(With(h, s, c'), remote, [])
        else if !x.ready then Next(With(h, s, c'), Err(InternalError), [])
        else Next(With(h, s, WithItem(c', r, o.(exchange := Some(x.(held := None, ready := false, staged := x.held))))), Ok(()), [])
  }

  /** The commit that the recorder runs with the closing batch: the operation
      completes and its private state is published, together or not at all.
      `remote` is what the remote context answers to its own completion. */
  function CommitCompletion(h: Host, s: SessionId, r: RequestId, recorded: bool, remote: Result<()>): Next
    requires s in h.sessions && r in h.sessions[s].items
  {
    var c := h.sessions[s];
    var o := c.items[r];
    var lost := With(h, s, WithItem(c, r, WithoutStage(o)));
    if !recorded then Next(lost, Err(ObservationUnavailable), [])
    else if !Authorized(h, s) || o.cancelled || o.state != Dispatching then Next(lost, Err(OutcomeUnknown), [])
    else if o.exchange.Some? && (o.exchange.value.context !in c.contexts || !Usable(c.contexts[o.exchange.value.context], h.now)
                                 || o.exchange.value.staged.None?)
    then Next(lost, Err(OutcomeUnknown), [])
    else if remote.Err? then Next(lost, Err(remote.error), [])
    else
      var done := o.(state := Completed, closed := true, exchange := None);
      var contexts := if o.exchange.None? then c.contexts
                      else c.contexts[o.exchange.value.context :=
                                        c.contexts[o.exchange.value.context].(custody := o.exchange.value.staged, status := o.exchange.value.status)];
      Next(With(h, s, WithItem(c, r, done).(contexts := contexts)), Ok(()), [Finished(s, r)])
  }

  function Outcome(o: Operation, reason: ErrorCode): OpState {
    if o.dispatched then Uncertain else if reason == PolicyDenied then Denied else Failed
  }

  /** A failing guard first gives up its exchange and revokes the binding it used. */
  function Relinquish(h: Host, s: SessionId, r: RequestId): Next
    requires s in h.sessions && r in h.sessions[s].items
  {
    var c := h.sessions[s];
    var o := c.items[r];
    if o.closed || o.exchange.None? then Next(h, Ok(()), [])
    else
      var b := o.exchange.value.context;
      var contexts := if b !in c.contexts then c.contexts else c.contexts[b := Cleared(c.contexts[b], Revoked)];
      Next(With(h, s, WithItem(c, r, o.(exchange := None)).(contexts := contexts)), Ok(()), [])
  }

  function FailedOp(o: Operation, reason: ErrorCode): Operation {
    o.(state := if Terminal(o.state) then o.state else Outcome(o, reason), cancelled := true, closed := true)
  }

  /** Then it settles the outcome of its operation. */
  function Settle(h: Host, s: SessionId, r: RequestId, reason: ErrorCode): Next
    requires s in h.sessions && r in h.sessions[s].items
  {
    var o := h.sessions[s].items[r];
    if o.closed then Next(h, Ok(()), []) else Next(With(h, s, WithItem(h.sessions[s], r, FailedOp(o, reason))), Ok(()), [])
  }

  /** Both sections of a failing guard, */
  function Fail(h: Host, s: SessionId, r: RequestId, reason: ErrorCode): Next
    requires s in h.sessions && r in h.sessions[s].items
  {
    Settle(Relinquish(h, s, r).host, s, r, reason)
  }

  /** which one that is dropped unfinished enters after cancelling its operation. */
  function DropGuard(h: Host, s: SessionId, r: RequestId): Next
    requires s in h.sessions && r in h.sessions[s].items
  {
    var o := h.sessions[s].items[r];
    if o.closed then Next(h, Ok(()), [])
    else Fail(Cancel(h, s, r).host, s, r, if o.dispatched then OutcomeUnknown else RequestConflict)
  }

  // ---- Contexts ------------------------------------------------------------

  function CancelIssuance(h: Host, s: SessionId, r: RequestId): Next
    requires s in h.sessions && r in h.sessions[s].issuances
  {
    var c := h.sessions[s];
    var i := c.issuances[r];
    if Terminal(i.state) then Next(h, Ok(()), [])
    else Next(With(h, s, c.(issuances := c.issuances[r := i.(state := Cancelled, cancelled := true)])), Ok(()), [])
  }

  function IssueFailure(e: ErrorCode): OpState {
    if e == SessionInvalid then Cancelled else if e == PolicyDenied then Denied else Failed
  }

  function PublishVerdict(h: Host, s: SessionId, i: Issuance, prepared: Result<Binding>): Result<()>
    requires s in h.sessions
  {
    if prepared.Err? then Err(prepared.error)
    else if !Authorized(h, s) then Err(SessionInvalid)
    else if !Usable(prepared.value, h.now) then Err(PlaceholderInvalid)
    else if |h.sessions[s].contexts| >= MAX_CONTEXTS then Err(LimitExceeded)
    else if i.cancelled then Err(RequestConflict)
    else Ok(())
  }

  /** Publish a prepared login context, or settle the issuance as failed. */
  function PublishLogin(h: Host, s: SessionId, r: RequestId, b: ContextId, prepared: Result<Binding>): Next
    requires s in h.sessions && r in h.sessions[s].issuances
  {
    var c := h.sessions[s];
    var i := c.issuances[r];
    if Terminal(i.state) then Refuse(h, RequestConflict)
    else
      var verdict := PublishVerdict(h, s, i, prepared);
      if verdict.Err? then
        Next(With(h, s, c.(issuances := c.issuances[r := i.(state := IssueFailure(verdict.error))])), verdict, [])
      else
        Next(With(h, s, c.(issuances := c.issuances[r := i.(state := Completed)], contexts := c.contexts[b := prepared.value])),
             Ok(()), [ContextPublished(s)])
  }

  /** `begun` is what the remote context answers; `added` says it is a new one. */
  function PrepareRemote(h: Host, s: SessionId, r: RequestId, added: bool, begun: Result<()>): Next
    requires s in h.sessions && r in h.sessions[s].items
  {
    var c := h.sessions[s];
    var o := c.items[r];
    if added && c.remotes >= MAX_CONTEXTS then Refuse(h, LimitExceeded)
    else if !Authorized(h, s) then Refuse(h, SessionInvalid)
    else if Terminal(o.state) || o.cancelled then Refuse(h, RequestConflict)
    else if begun.Err? then Refuse(h, begun.error)
    else Next(With(h, s, c.(remotes := if added then c.remotes + 1 else c.remotes)), Ok(()), [RemotePublished(s)])
  }

  function Invalidate(h: Host, s: SessionId, b: ContextId): Next
    requires s in h.sessions && b in h.sessions[s].contexts
  {
    var c := h.sessions[s];
    Next(With(h, s, c.(contexts := c.contexts[b := Cleared(c.contexts[b], Revoked)])), Ok(()), [])
  }

  function EndStream(h: Host, s: SessionId, r: RequestId): Next
    requires s in h.sessions && r in h.sessions[s].streams
  {
    var c := h.sessions[s];
    Next(With(h, s, c.(streams := c.streams[r := c.streams[r].(ended := true)])), Ok(()), [])
  }

  // ---- Steps ---------------------------------------------------------------

  datatype Step =
    | Tick(now: int)
    | Create(session: SessionId, lifetime: int, valid: bool)
    | DropCore(session: SessionId)
    | Retire
    | RetireOne(session: SessionId)
    | Notify(session: SessionId)
    | Register(session: SessionId, request: RequestId, body: Opaque, size: nat, fits: bool)
    | RegisterLogin(session: SessionId, request: RequestId, body: Opaque, size: nat)
    | RegisterStream(session: SessionId, request: RequestId, body: Opaque, size: nat, granted: Result<()>)
    | Cancelling(session: SessionId, request: RequestId)
    | Advancing(session: SessionId, request: RequestId, state: OpState)
    | Dispatch(session: SessionId, request: RequestId)
    | Local(session: SessionId, request: RequestId, recorded: bool)
    | Begin(session: SessionId, request: RequestId, context: ContextId)
    | Take(session: SessionId, request: RequestId)
    | Captured(session: SessionId, request: RequestId, value: Opaque, status: AuthState)
    | Prepare(session: SessionId, request: RequestId, remote: Result<()>)
    | Commit(session: SessionId, request: RequestId, recorded: bool, remote: Result<()>)
    | Relinquishing(session: SessionId, request: RequestId)
    | Failing(session: SessionId, request: RequestId, reason: ErrorCode)
    | CancelLogin(session: SessionId, request: RequestId)
    | Publish(session: SessionId, request: RequestId, context: ContextId, prepared: Result<Binding>)
    | Remote(session: SessionId, request: RequestId, added: bool, begun: Result<()>)
    | Clear(session: SessionId, context: ContextId)
    | End(session: SessionId, request: RequestId)

  predicate OnItem(h: Host, s: SessionId, r: RequestId) {
    s in h.sessions && r in h.sessions[s].items
  }

  /** An operation whose guard still runs. */
  predicate Running(h: Host, s: SessionId, r: RequestId) {
    OnItem(h, s, r) && !h.sessions[s].items[r].closed
  }

  predicate Quiet(c: Session) {
    forall r :: r in c.items ==> c.items[r].closed
  }

  /** What the surrounding program order guarantees: only a running guard moves
      its own operation; before dispatch it only prepares, afterwards it only
      reports and completes; it settles a failure after giving up its exchange.
      Handles and guards keep their session alive. */
  predicate Enabled(h: Host, e: Step) {
    match e
    case Tick(now) => now >= h.now
    case Create(s, _, _) => s !in h.sessions
    case DropCore(s) => s in h.sessions && Quiet(h.sessions[s])
    case Retire => true
    case RetireOne(s) => s in h.sessions
    case Notify(s) => s in h.sessions
    case Register(s, _, _, _, _) => s in h.sessions
    case RegisterLogin(s, _, _, _) => s in h.sessions
    case RegisterStream(s, _, _, _, _) => s in h.sessions
    case Cancelling(s, r) => OnItem(h, s, r)
    case Advancing(s, r, state) =>
      && Running(h, s, r)
      && state in (if h.sessions[s].items[r].dispatched then {Dispatching} else {Validated, PendingApproval, Ready})
    case Dispatch(s, r) => Running(h, s, r)
    case Local(s, r, _) => Running(h, s, r) && h.sessions[s].items[r].exchange.None?
    case Begin(s, r, _) => Running(h, s, r) && !h.sessions[s].items[r].dispatched
    case Take(s, r) => Running(h, s, r) && !h.sessions[s].items[r].dispatched && FreshExchange(h.sessions[s].items[r])
    case Captured(s, r, _, _) => Running(h, s, r) && HeldExchange(h.sessions[s].items[r])
    case Prepare(s, r, _) => Running(h, s, r)
    case Commit(s, r, _, _) => Running(h, s, r)
    case Relinquishing(s, r) => OnItem(h, s, r)
    case Failing(s, r, _) => OnItem(h, s, r) && h.sessions[s].items[r].exchange.None?
    case CancelLogin(s, r) => s in h.sessions && r in h.sessions[s].issuances
    case Publish(s, r, b, _) => s in h.sessions && r in h.sessions[s].issuances && b !in h.sessions[s].contexts
    case Remote(s, r, _, _) => Running(h, s, r)
    case Clear(s, b) => s in h.sessions && b in h.sessions[s].contexts
    case End(s, r) => s in h.sessions && r in h.sessions[s].streams
  }

  predicate FreshExchange(o: Operation) {
    o.exchange.Some? && o.exchange.value.held.None? && o.exchange.value.staged.None? && !o.exchange.value.ready
  }

  predicate HeldExchange(o: Operation) {
    o.exchange.Some? && o.exchange.value.held.Some? && o.exchange.value.staged.None?
  }

  function Apply(h: Host, e: Step): Next
    requires Enabled(h, e)
  {
    match e
    case Tick(now) => Next(h.(now := now), Ok(()), [])
    case Create(s, lifetime, valid) => CreateSession(h, s, lifetime, valid)
    case DropCore(s) => DropSession(h, s)
    case Retire => CloseAdmission(h)
    case RetireOne(s) => RetireSession(h, s)
    case Notify(s) => NotifySession(h, s)
    case Register(s, r, body, size, fits) => Track(h, s, r, body, size, fits)
    case RegisterLogin(s, r, body, size) => Issue(h, s, r, body, size)
    case RegisterStream(s, r, body, size, granted) => AdmitTcp(h, s, r, body, size, granted)
    case Cancelling(s, r) => Cancel(h, s, r)
    case Advancing(s, r, state) => Advance(h, s, r, state)
    case Dispatch(s, r) => BeginDispatch(h, s, r)
    case Local(s, r, recorded) => CompleteLocal(h, s, r, recorded)
    case Begin(s, r, b) => StartExchange(h, s, r, b)
    case Take(s, r) => TakeCustody(h, s, r)
    case Captured(s, r, value, status) => Capture(h, s, r, value, status)
    case Prepare(s, r, remote) => PrepareCompletion(h, s, r, remote)
    case Commit(s, r, recorded, remote) => CommitCompletion(h, s, r, recorded, remote)
    case Relinquishing(s, r) => Relinquish(h, s, r)
    case Failing(s, r, reason) => Settle(h, s, r, reason)
    case CancelLogin(s, r) => CancelIssuance(h, s, r)
    case Publish(s, r, b, prepared) => PublishLogin(h, s, r, b, prepared)
    case Remote(s, r, added, begun) => PrepareRemote(h, s, r, added, begun)
    case Clear(s, b) => Invalidate(h, s, b)
    case End(s, r) => EndStream(h, s, r)
  }
}
