/** One remote MCP conversation: its handshake, the exchanges it has pending,
    their cancellation, and its expiry. */
module McpContext {
  import opened Prelude

  const MAX_SERIAL: nat := 4096
  const MAX_CONTROL: nat := 2
  const MAX_WORK: nat := 8
  const LIFETIME: int := 600
  const HANDSHAKE: int := 30

  type MessageId = int
  type OperationId = nat
  type BindingId = nat

  datatype Method = Initialize | Initialized | Ping | Cancel | List | Call

  predicate IsControl(m: Method) {
    m == Ping || m == Initialized || m == Cancel
  }

  datatype Phase = New | Initializing | AwaitingInitialized | Ready | Invalid | Closed

  predicate Over(p: Phase) {
    p == Invalid || p == Closed
  }

  /** `own` says that the request was parsed for this context's profile. */
  datatype Request = Request(kind: Method, id: Option<MessageId>, target: Option<MessageId>, own: bool)

  /** What parsing a request guarantees. */
  predicate Formed(r: Request) {
    && (r.id.None? <==> r.kind == Initialized || r.kind == Cancel)
    && (r.target.Some? <==> r.kind == Cancel)
  }

  datatype Pending = Pending(kind: Method, id: Option<MessageId>, operation: OperationId, started: bool)

  datatype Exchange = Exchange(binding: BindingId, serial: nat, kind: Method, mapped: Option<nat>, target: Option<OperationId>)

  datatype Completion = Completion(binding: BindingId, serial: nat, success: bool, native: Option<int>)

  /** `flags` are the serials whose shared cancellation flag is set: an exchange
      keeps its flag after it is no longer pending. */
  datatype Context = Context(binding: BindingId, expires: int, handshake: int, phase: Phase, fault: bool, native: Option<int>,
                             next: nat, pending: map<nat, Pending>, flags: set<nat>)

  function Fresh(binding: BindingId, now: int, expires: int): Context {
    Context(binding, Min(expires, now + LIFETIME), Min(expires, now + HANDSHAKE), New, false, None, 1, map[], {})
  }

  // ---- The operations ------------------------------------------------------

  function Invalidated(c: Context): Context {
    c.(phase := if c.phase == Closed then Closed else Invalid, fault := true, native := None, pending := map[])
  }

  function Expire(c: Context, now: int): Context {
    if !Over(c.phase) && (c.fault || now >= c.expires || (c.phase != Ready && now >= c.handshake)) then Invalidated(c) else c
  }

  predicate Admitted(c: Context, m: Method) {
    match m
    case Initialize => c.phase == New
    case Initialized => c.phase == AwaitingInitialized && forall s :: s in c.pending ==> c.pending[s].kind != Initialized
    case Ping => c.phase != New
    case Cancel => c.phase != New
    case _ => c.phase == Ready
  }

  predicate Clashes(c: Context, r: Request, operation: OperationId) {
    exists s :: s in c.pending && (c.pending[s].operation == operation || (r.id.Some? && c.pending[s].id == r.id))
  }

  /** A pending exchange that a cancellation of `id` may stop. */
  predicate Cancellable(c: Context, s: nat, id: Option<MessageId>) {
    s in c.pending && c.pending[s].id.Some? && c.pending[s].id == id && c.pending[s].kind != Initialize
  }

  function OfKind(c: Context, control: bool): set<nat> {
    set s | s in c.pending && IsControl(c.pending[s].kind) == control
  }

  predicate Full(c: Context, m: Method) {
    c.next > MAX_SERIAL || |OfKind(c, IsControl(m))| >= (if IsControl(m) then MAX_CONTROL else MAX_WORK)
  }

  /** The context after admitting a request, whose cancellation target, if it
      has one, is already chosen. */
  function Inserted(c: Context, r: Request, operation: OperationId, target: Option<nat>): Context {
    c.(phase := if r.kind == Initialize then Initializing else c.phase,
       next := c.next + 1,
       flags := if target.Some? then c.flags + {target.value} else c.flags,
       pending := c.pending[c.next := Pending(r.kind, r.id, operation, false)])
  }

  function ExchangeFor(c: Context, r: Request, target: Option<nat>): Exchange
    requires target.Some? ==> target.value in c.pending
  {
    Exchange(c.binding, c.next, r.kind,
             if target.Some? then target else if r.id.Some? then Some(c.next) else None,
             if target.Some? then Some(c.pending[target.value].operation) else None)
  }

  /** The unique exchange that a cancellation stops, not counting stopped ones. */
  predicate StopTarget(c: Context, r: Request, s: nat) {
    Cancellable(c, s, r.target) && s !in c.flags
  }

  /** One `begin`. `valid` says that the operation id is canonical. */
  ghost predicate BeginStep(c: Context, r: Request, operation: OperationId, valid: bool, now: int, c': Context, out: Result<Option<Exchange>>) {
    var e := Expire(c, now);
    if !r.own || !valid then c' == e && out == Err(RequestInvalid)
    else if Over(e.phase) then c' == e && out == Err(SessionInvalid)
    else if !Admitted(e, r.kind) || Clashes(e, r, operation) then c' == e && out == Err(RequestConflict)
    else if r.kind == Cancel && !exists s :: StopTarget(e, r, s) then c' == e && out == Ok(None)
    else if Full(e, r.kind) then c' == e && out == Err(LimitExceeded)
    else if r.kind == Cancel then
      exists s :: StopTarget(e, r, s) && c' == Inserted(e, r, operation, Some(s)) && out == Ok(Some(ExchangeFor(e, r, Some(s))))
    else c' == Inserted(e, r, operation, None) && out == Ok(Some(ExchangeFor(e, r, None)))
  }

  /** Why an exchange may not go on, if it may not; the context has expired. */
  function CheckVerdict(e: Context, x: Exchange): Result<()> {
    if Over(e.phase) then Err(SessionInvalid)
    else if x.serial !in e.pending || x.serial in e.flags then Err(RequestConflict)
    else Ok(())
  }

  /** A foreign exchange is refused before expiry is even looked at. */
  function Check(c: Context, x: Exchange, now: int): (Context, Result<()>) {
    if x.binding != c.binding then (c, Err(RequestConflict)) else (Expire(c, now), CheckVerdict(Expire(c, now), x))
  }

  /** `admitted` is the verdict on the response's status and headers. */
  function StartResponse(c: Context, x: Exchange, admitted: Result<()>, now: int): (Context, Result<()>) {
    var (e, checked) := Check(c, x, now);
    if checked.Err? then (e, checked)
    else if x.serial !in e.pending || e.pending[x.serial].started then (e, Err(RequestConflict))
    else if admitted.Err? then (Invalidated(e), admitted)
    else (e.(pending := e.pending[x.serial := e.pending[x.serial].(started := true)]), Ok(()))
  }

  function Complete(c: Context, x: Exchange, completion: Completion, now: int): (Context, Result<()>) {
    if x.binding != c.binding || completion.binding != c.binding || x.serial != completion.serial then (c, Err(RequestConflict))
    else
      var (e, checked) := Check(c, x, now);
      if checked.Err? then (e.(pending := e.pending - {x.serial}), checked)
      else if x.serial !in e.pending || !e.pending[x.serial].started then (e, Err(RequestConflict))
      else (Settled(e.(pending := e.pending - {x.serial}), x.kind, completion), Ok(()))
  }

  function Settled(e: Context, m: Method, completion: Completion): Context {
    if m == Initialize then
      if completion.success then e.(native := completion.native, phase := AwaitingInitialized) else Invalidated(e)
    else if m == Initialized then e.(phase := Ready)
    else e
  }

  function Abandon(c: Context, x: Exchange): Context {
    if x.binding != c.binding || x.serial !in c.pending then c
    else
      var m := c.pending[x.serial].kind;
      var e := c.(pending := c.pending - {x.serial}, flags := c.flags + {x.serial});
      if m == Initialize || m == Initialized then Invalidated(e) else e
  }

  /** Stop one exchange; `Some` when there is something to tell upstream. */
  function CancelSerial(c: Context, s: nat): (Context, Option<nat>)
    requires s in c.pending
  {
    if c.pending[s].id.None? then (c, None)
    else if s in c.flags then (c, None)
    else (c.(flags := c.flags + {s}), Some(s))
  }

  ghost predicate CancelRequestStep(c: Context, r: Request, now: int, c': Context, out: Result<Option<nat>>) {
    if r.kind != Cancel || !r.own then c' == c && out == Err(RequestInvalid)
    else
      var e := Expire(c, now);
      if !exists s :: Cancellable(e, s, r.target) then c' == e && out == Ok(None)
      else exists s :: Cancellable(e, s, r.target) && c' == CancelSerial(e, s).0 && out == Ok(CancelSerial(e, s).1)
  }

  ghost predicate CancelOperationStep(c: Context, operation: OperationId, now: int, c': Context, out: Option<nat>) {
    var e := Expire(c, now);
    if !exists s :: s in e.pending && e.pending[s].operation == operation then c' == e && out == None
    else exists s :: s in e.pending && e.pending[s].operation == operation &&
           if e.pending[s].kind == Initialize || e.pending[s].kind == Initialized then c' == Invalidated(e) && out == None
           else c' == CancelSerial(e, s).0 && out == CancelSerial(e, s).1
  }

  function Close(c: Context, now: int): Context {
    Invalidated(Expire(c, now)).(phase := Closed)
  }

  // ---- The invariant -------------------------------------------------------

  predicate Distinct(p: map<nat, Pending>) {
    && (forall s, t :: s in p && t in p && s != t ==> p[s].operation != p[t].operation)
    && (forall s, t :: s in p && t in p && s != t && p[s].id.Some? ==> p[s].id != p[t].id)
  }

  /** The handshake is carried by exactly one exchange at a time. */
  predicate Handshake(c: Context) {
    && (c.phase == New ==> c.pending == map[] && c.native.None?)
    && (c.phase == Initializing ==> c.native.None? && exists s :: s in c.pending && c.pending[s].kind == Initialize)
    && (forall s, t :: s in c.pending && t in c.pending && c.pending[s].kind == Initialize && c.pending[t].kind == Initialize ==> s == t)
    && (forall s :: s in c.pending && c.pending[s].kind == Initialize ==> c.phase == Initializing)
    && (forall s :: s in c.pending && c.pending[s].kind == Initialized ==> c.phase == AwaitingInitialized)
    && (forall s, t :: s in c.pending && t in c.pending && c.pending[s].kind == Initialized && c.pending[t].kind == Initialized ==> s == t)
  }

  /** Serials are below the next one; only requests with an id can be stopped. */
  predicate Numbered(c: Context) {
    && 1 <= c.next <= MAX_SERIAL + 1
    && (forall s :: s in c.pending ==> 1 <= s < c.next)
    && (forall s :: s in c.flags ==> 1 <= s < c.next)
    && (forall s :: s in c.pending && s in c.flags ==> c.pending[s].id.Some? && c.pending[s].kind != Initialize)
    && (forall s :: s in c.pending ==>
          (c.pending[s].id.None? <==> c.pending[s].kind == Initialized || c.pending[s].kind == Cancel))
  }

  predicate Within(c: Context) {
    |OfKind(c, true)| <= MAX_CONTROL && |OfKind(c, false)| <= MAX_WORK
  }

  predicate Inv(c: Context) {
    && Numbered(c) && Distinct(c.pending) && Within(c)
    && (Over(c.phase) ==> c.pending == map[] && c.native.None? && c.fault)
    && Handshake(c)
  }

  lemma FreshInv(binding: BindingId, now: int, expires: int)
    ensures Inv(Fresh(binding, now, expires))
  {
  }

  lemma InvalidatedInv(c: Context)
    requires Inv(c)
    ensures Inv(Invalidated(c))
  {
    assert OfKind(Invalidated(c), true) == {} && OfKind(Invalidated(c), false) == {};
  }

  lemma ExpireInv(c: Context, now: int)
    requires Inv(c)
    ensures Inv(Expire(c, now))
  {
    hide Inv;
    InvalidatedInv(c);
  }

  lemma KindsShrink(c: Context, c': Context)
    requires forall s :: s in c'.pending ==> s in c.pending && c'.pending[s].kind == c.pending[s].kind
    ensures |OfKind(c', true)| <= |OfKind(c, true)| && |OfKind(c', false)| <= |OfKind(c, false)|
  {
    SubsetSize(OfKind(c', true), OfKind(c, true));
    SubsetSize(OfKind(c', false), OfKind(c, false));
  }

  lemma {:induction false} SubsetSize(a: set<nat>, b: set<nat>)
    requires a <= b
    ensures |a| <= |b|
    decreases |a|
  {
    if a != {} {
      var x :| x in a;
      SubsetSize(a - {x}, b - {x});
    }
  }

  lemma InsertedInv(c: Context, r: Request, operation: OperationId, target: Option<nat>)
    requires Inv(c) && Formed(r) && !Over(c.phase) && Admitted(c, r.kind) && !Clashes(c, r, operation) && !Full(c, r.kind)
    requires target.Some? ==> r.kind == Cancel && StopTarget(c, r, target.value)
    ensures Inv(Inserted(c, r, operation, target))
  {
    hide Numbered, Distinct, Within, Handshake;
    InsertedNumbered(c, r, operation, target);
    InsertedDistinct(c, r, operation, target);
    InsertedWithin(c, r, operation, target);
    InsertedHandshake(c, r, operation, target);
  }

  lemma InsertedNumbered(c: Context, r: Request, operation: OperationId, target: Option<nat>)
    requires Numbered(c) && Formed(r) && c.next <= MAX_SERIAL
    requires target.Some? ==> StopTarget(c, r, target.value)
    ensures Numbered(Inserted(c, r, operation, target))
  {
  }

  lemma InsertedDistinct(c: Context, r: Request, operation: OperationId, target: Option<nat>)
    requires Numbered(c) && Distinct(c.pending) && !Clashes(c, r, operation)
    ensures Distinct(Inserted(c, r, operation, target).pending)
  {
    forall s | s in c.pending ensures c.pending[s].operation != operation && (r.id.Some? ==> c.pending[s].id != r.id) {
      assert !(c.pending[s].operation == operation || (r.id.Some? && c.pending[s].id == r.id));
    }
  }

  lemma InsertedWithin(c: Context, r: Request, operation: OperationId, target: Option<nat>)
    requires Numbered(c) && Within(c) && !Full(c, r.kind)
    ensures Within(Inserted(c, r, operation, target))
  {
    var c' := Inserted(c, r, operation, target);
    var control := IsControl(r.kind);
    assert OfKind(c', control) == OfKind(c, control) + {c.next};
    assert OfKind(c', !control) == OfKind(c, !control);
  }

  lemma InsertedHandshake(c: Context, r: Request, operation: OperationId, target: Option<nat>)
    requires Numbered(c) && Handshake(c) && Admitted(c, r.kind)
    ensures Handshake(Inserted(c, r, operation, target))
  {
    var c' := Inserted(c, r, operation, target);
    if r.kind == Initialize { assert c'.pending[c.next].kind == Initialize; }
    if c.phase == Initializing {
      var s :| s in c.pending && c.pending[s].kind == Initialize;
      assert c'.pending[s].kind == Initialize;
    }
  }

  /** Admission keeps the invariant, accepted or refused, */
  lemma BeginInv(c: Context, r: Request, operation: OperationId, valid: bool, now: int, c': Context, out: Result<Option<Exchange>>)
    requires Inv(c) && Formed(r) && BeginStep(c, r, operation, valid, now, c', out)
    ensures Inv(c')
  {
    hide Inv, Full, Clashes, Admitted, Inserted;
    ExpireInv(c, now);
    var e := Expire(c, now);
    if c' != e {
      if r.kind == Cancel {
        var s: nat :| StopTarget(e, r, s) && c' == Inserted(e, r, operation, Some(s));
        InsertedInv(e, r, operation, Some(s));
      } else {
        InsertedInv(e, r, operation, None);
      }
    }
  }

  lemma RemovedInv(c: Context, s: nat)
    requires Inv(c) && (s in c.pending ==> c.pending[s].kind != Initialize)
    ensures Inv(c.(pending := c.pending - {s}))
  {
    KindsShrink(c, c.(pending := c.pending - {s}));
    if c.phase == Initializing {
      var t :| t in c.pending && c.pending[t].kind == Initialize;
      assert t in c.pending - {s};
    }
  }

  lemma StartInv(c: Context, x: Exchange, admitted: Result<()>, now: int)
    requires Inv(c)
    ensures Inv(StartResponse(c, x, admitted, now).0)
  {
    ExpireInv(c, now);
    var e := Expire(c, now);
    InvalidatedInv(e);
    var c' := StartResponse(c, x, admitted, now).0;
    if c' != c && c' != e && c' != Invalidated(e) { StartedInv(e, x.serial); }
  }

  lemma StartedInv(c: Context, s: nat)
    requires Inv(c) && s in c.pending
    ensures Inv(c.(pending := c.pending[s := c.pending[s].(started := true)]))
  {
    hide OfKind, Distinct, Handshake;
    var c' := c.(pending := c.pending[s := c.pending[s].(started := true)]);
    KindsShrink(c, c');
    SameDistinct(c.pending, c'.pending);
    SameHandshake(c, c');
  }

  /** Nothing but response progress differs. */
  predicate Alike(p: map<nat, Pending>, q: map<nat, Pending>) {
    p.Keys == q.Keys && forall s :: s in p ==> q[s] == p[s].(started := q[s].started)
  }

  lemma SameDistinct(p: map<nat, Pending>, q: map<nat, Pending>)
    requires Alike(p, q) && Distinct(p)
    ensures Distinct(q)
  {
  }

  lemma SameHandshake(c: Context, c': Context)
    requires Alike(c.pending, c'.pending) && c'.phase == c.phase && c'.native == c.native && Handshake(c)
    ensures Handshake(c')
  {
    if c.phase == Initializing {
      var t :| t in c.pending && c.pending[t].kind == Initialize;
      assert c'.pending[t].kind == Initialize;
    }
    if c.phase == New { assert c'.pending.Keys == {}; }
  }

  /** completion on each of its branches, */
  lemma CompleteInv(c: Context, x: Exchange, completion: Completion, now: int)
    requires Inv(c) && Owns(Expire(c, now), x)
    ensures Inv(Complete(c, x, completion, now).0)
  {
    hide Inv;
    ExpireInv(c, now);
    var e := Expire(c, now);
    InvParts(e);
    if x.serial in e.pending {
      if x.serial in e.flags {
        RemovedInv(e, x.serial);
      } else if e.pending[x.serial].started {
        SettledInv(e, x, completion);
      }
    } else {
      assert e.pending - {x.serial} == e.pending;
    }
  }

  /** The exchange's own method is the pending one's: exchanges are only made by
      `begin` and their serials never reused. */
  predicate Owns(c: Context, x: Exchange) {
    x.serial in c.pending ==> c.pending[x.serial].kind == x.kind
  }

  lemma InvParts(c: Context)
    requires Inv(c)
    ensures forall s :: s in c.pending && s in c.flags ==> c.pending[s].id.Some? && c.pending[s].kind != Initialize
    ensures Over(c.phase) ==> c.pending == map[]
  {
  }

  /** Completing the handshake's exchange moves the phase on. */
  lemma SettledInv(c: Context, x: Exchange, completion: Completion)
    requires Inv(c) && x.serial in c.pending && c.pending[x.serial].kind == x.kind
    ensures Inv(Settled(c.(pending := c.pending - {x.serial}), x.kind, completion))
  {
    hide Numbered, Distinct, Within, Handshake;
    var e := c.(pending := c.pending - {x.serial});
    if x.kind == Initialize || x.kind == Initialized {
      SettledHandshake(c, x, completion);
      SubPending(c, Settled(e, x.kind, completion));
    } else {
      StillWorking(c, x.serial);
    }
  }

  lemma StillWorking(c: Context, s: nat)
    requires Inv(c) && s in c.pending && c.pending[s].kind != Initialize
    ensures Inv(c.(pending := c.pending - {s}))
  {
    RemovedInv(c, s);
  }

  /** Forgetting exchanges keeps numbering, distinctness and capacities. */
  lemma SubPending(c: Context, c': Context)
    requires Numbered(c) && Distinct(c.pending) && Within(c)
    requires c'.next == c.next && c'.flags == c.flags
    requires forall s :: s in c'.pending ==> s in c.pending && c'.pending[s] == c.pending[s]
    ensures Numbered(c') && Distinct(c'.pending) && Within(c')
  {
    KindsShrink(c, c');
  }

  lemma SettledHandshake(c: Context, x: Exchange, completion: Completion)
    requires Handshake(c) && x.serial in c.pending && c.pending[x.serial].kind == x.kind
    requires x.kind == Initialize || x.kind == Initialized
    ensures Handshake(Settled(c.(pending := c.pending - {x.serial}), x.kind, completion))
    ensures c.phase == (if x.kind == Initialize then Initializing else AwaitingInitialized)
  {
  }

  /** and abandoning. */
  lemma AbandonInv(c: Context, x: Exchange)
    requires Inv(c)
    ensures Inv(Abandon(c, x))
  {
    if x.binding == c.binding && x.serial in c.pending {
      var m := c.pending[x.serial].kind;
      InvalidatedInv(c);
      if m != Initialize && m != Initialized {
        RemovedInv(c, x.serial);
        FlaggedInv(c.(pending := c.pending - {x.serial}), x.serial);
      } else {
        FlaggedInvalidated(c, x.serial);
      }
    }
  }

  lemma FlaggedInv(c: Context, s: nat)
    requires Inv(c) && 1 <= s < c.next
    requires s in c.pending ==> c.pending[s].id.Some? && c.pending[s].kind != Initialize
    ensures Inv(c.(flags := c.flags + {s}))
  {
    KindsShrink(c, c.(flags := c.flags + {s}));
  }

  lemma FlaggedInvalidated(c: Context, s: nat)
    requires Inv(c) && s in c.pending
    ensures Inv(Invalidated(c.(pending := c.pending - {s}, flags := c.flags + {s})))
  {
    var e := Invalidated(c.(pending := c.pending - {s}, flags := c.flags + {s}));
    assert OfKind(e, true) == {} && OfKind(e, false) == {};
  }

  lemma CancelSerialInv(c: Context, s: nat)
    requires Inv(c) && s in c.pending && c.pending[s].kind != Initialize
    ensures Inv(CancelSerial(c, s).0)
  {
    if CancelSerial(c, s).0 != c { FlaggedInv(c, s); }
  }

  lemma CloseInv(c: Context, now: int)
    requires Inv(c)
    ensures Inv(Close(c, now))
  {
    ExpireInv(c, now);
    InvalidatedInv(Expire(c, now));
    var e := Invalidated(Expire(c, now));
    KindsShrink(e, e.(phase := Closed));
  }
}
