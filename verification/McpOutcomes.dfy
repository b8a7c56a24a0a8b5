/** What a conversation's peers can rely on over a whole run: what a cancellation
    stops, what has to come before work, and when everything ends. */
module McpOutcomes {
  import opened Prelude
  import opened McpContext
  import opened McpRuns

  lemma TakenParts(s: State, e: Step, s': State)
    requires StateInv(s) && Taken(s, e, s')
    ensures Inv(s.context)
    ensures e.Begin? ==> Formed(e.request) && BeginStep(s.context, e.request, e.operation, e.valid, e.now, s'.context, e.out)
    ensures e.StopRequest? ==> CancelRequestStep(s.context, e.request, e.now, s'.context, e.stopped)
    ensures e.StopOperation? ==> CancelOperationStep(s.context, e.operation, e.now, s'.context, e.told)
    ensures e.Drop? ==> s'.context == Abandon(s.context, e.exchange)
    ensures e.Finish? ==> Genuine(s, e.exchange) && s'.context == Complete(s.context, e.exchange, e.completion, e.now).0
  {
    hide Inv, BeginStep, CancelRequestStep, CancelOperationStep, StartResponse, Complete, Abandon, Close, Expire, Genuine;
  }

  // ---- Cancelled is cancelled ----------------------------------------------

  /** An exchange that can no longer start a response or complete. */
  ghost predicate Stopped(s: State, serial: nat) {
    serial in s.context.flags || (serial !in s.context.pending && serial < s.context.next)
  }

  lemma StoppedForGood(r: Run, j: nat, k: nat, serial: nat)
    requires IsRun(r) && j <= k < |r.steps| && |r.states| == |r.steps| + 1 && Stopped(r.states[j], serial)
    ensures !Finishes(r.states[k].context, r.steps[k], serial) && !Starts(r.states[k].context, r.steps[k], serial)
  {
    hide IsRun, Taken, Moves, StateInv, Complete, StartResponse;
    RunStep(r, k);
    OnlyForward(r, j, k);
    if serial !in r.states[j].context.flags { GoneForGood(r, j, k, serial); }
    StoppedNow(r.states[k], r.steps[k], r.states[k + 1], serial);
  }

  lemma StoppedNow(s: State, e: Step, s': State, serial: nat)
    requires Taken(s, e, s') && (serial in s.context.flags || serial !in s.context.pending)
    ensures !Finishes(s.context, e, serial) && !Starts(s.context, e, serial)
  {
  }

  /** Once a cancellation of this conversation names the id of a pending request,
      other than the handshake's first, that exchange never starts a response and
      never completes. */
  lemma CancelledByRequest(r: Run, j: nat, k: nat, serial: nat)
    requires IsRun(r) && j < k < |r.steps| && |r.states| == |r.steps| + 1
    requires r.steps[j].StopRequest? && r.steps[j].request.kind == Cancel && r.steps[j].request.own
    requires serial in r.states[j].context.pending && r.states[j].context.pending[serial].kind != Initialize
    requires r.steps[j].request.target.Some? && r.states[j].context.pending[serial].id == r.steps[j].request.target
    ensures !Finishes(r.states[k].context, r.steps[k], serial) && !Starts(r.states[k].context, r.steps[k], serial)
  {
    hide IsRun, Moves, Finishes, Starts, Taken, Inv, BeginStep, CancelRequestStep, CancelOperationStep, StateInv;
    RunStep(r, j);
    TakenParts(r.states[j], r.steps[j], r.states[j + 1]);
    RequestStops(r.states[j].context, r.steps[j], r.states[j + 1].context, serial);
    StoppedForGood(r, j + 1, k, serial);
  }

  lemma RequestStops(c: Context, e: Step, c': Context, serial: nat)
    requires Inv(c) && e.StopRequest? && CancelRequestStep(c, e.request, e.now, c', e.stopped)
    requires e.request.kind == Cancel && e.request.own && e.request.target.Some?
    requires serial in c.pending && c.pending[serial].kind != Initialize && c.pending[serial].id == e.request.target
    ensures serial in c'.flags || (serial !in c'.pending && serial < c'.next)
  {
    hide OfKind;
    if Expire(c, e.now) == c { assert Cancellable(c, serial, e.request.target); }
  }

  /** The same for a cancellation of the operation behind the exchange, whatever it
      does; only a cancellation that is itself under way cannot be stopped. */
  lemma CancelledByOperation(r: Run, j: nat, k: nat, serial: nat)
    requires IsRun(r) && j < k < |r.steps| && |r.states| == |r.steps| + 1 && r.steps[j].StopOperation?
    requires serial in r.states[j].context.pending && r.states[j].context.pending[serial].operation == r.steps[j].operation
    requires r.states[j].context.pending[serial].kind != Cancel
    ensures !Finishes(r.states[k].context, r.steps[k], serial) && !Starts(r.states[k].context, r.steps[k], serial)
  {
    hide IsRun, Moves, Finishes, Starts, Taken, Inv, BeginStep, CancelRequestStep, CancelOperationStep, StateInv;
    RunStep(r, j);
    TakenParts(r.states[j], r.steps[j], r.states[j + 1]);
    OperationStops(r.states[j].context, r.steps[j], r.states[j + 1].context, serial);
    StoppedForGood(r, j + 1, k, serial);
  }

  lemma OperationStops(c: Context, e: Step, c': Context, serial: nat)
    requires Inv(c) && e.StopOperation? && CancelOperationStep(c, e.operation, e.now, c', e.told)
    requires serial in c.pending && c.pending[serial].operation == e.operation && c.pending[serial].kind != Cancel
    ensures serial in c'.flags || (serial !in c'.pending && serial < c'.next)
  {
    hide OfKind;
  }

  /** And for a cancellation that is sent on as an exchange of its own: it names
      the exchange it stops, and that one's operation. */
  lemma CancelledByExchange(r: Run, j: nat, k: nat, serial: nat)
    requires IsRun(r) && j < k < |r.steps| && |r.states| == |r.steps| + 1
    requires r.steps[j].Begin? && r.steps[j].request.kind == Cancel && r.steps[j].out.Ok? && r.steps[j].out.value.Some?
    requires r.steps[j].out.value.value.mapped == Some(serial)
    ensures serial in r.states[j].context.pending && r.states[j].context.pending[serial].id.Some?
    ensures r.states[j].context.pending[serial].id == r.steps[j].request.target
    ensures r.states[j].context.pending[serial].kind != Initialize
    ensures r.steps[j].out.value.value.target == Some(r.states[j].context.pending[serial].operation)
    ensures !Finishes(r.states[k].context, r.steps[k], serial) && !Starts(r.states[k].context, r.steps[k], serial)
  {
    hide IsRun, Moves, Finishes, Starts, Taken, Inv, BeginStep, CancelRequestStep, CancelOperationStep, StateInv;
    RunStep(r, j);
    TakenParts(r.states[j], r.steps[j], r.states[j + 1]);
    ExchangeStops(r.states[j].context, r.steps[j], r.states[j + 1].context, serial);
    StoppedForGood(r, j + 1, k, serial);
  }

  lemma ExchangeStops(c: Context, e: Step, c': Context, serial: nat)
    requires Inv(c) && e.Begin? && BeginStep(c, e.request, e.operation, e.valid, e.now, c', e.out)
    requires e.request.kind == Cancel && e.out.Ok? && e.out.value.Some? && e.out.value.value.mapped == Some(serial)
    ensures serial in c.pending && c.pending[serial].id.Some? && c.pending[serial].id == e.request.target && c.pending[serial].kind != Initialize
    ensures e.out.value.value.target == Some(c.pending[serial].operation) && serial in c'.flags && serial !in c.flags
  {
    hide OfKind, Clashes, Full, Admitted;
  }

  /** The serial that a step tells the peer to stop, if any. */
  function ToldToStop(e: Step): Option<nat> {
    match e
    case StopRequest(_, _, out) => if out.Ok? then out.value else None
    case StopOperation(_, _, out) => out
    case Begin(q, _, _, _, out) => if q.kind == Cancel && out.Ok? && out.value.Some? then out.value.value.mapped else None
    case _ => None
  }

  lemma TellsOnce(c: Context, e: Step, c': Context, serial: nat)
    requires Inv(c) && ToldToStop(e) == Some(serial)
    requires e.Begin? ==> BeginStep(c, e.request, e.operation, e.valid, e.now, c', e.out)
    requires e.StopRequest? ==> CancelRequestStep(c, e.request, e.now, c', e.stopped)
    requires e.StopOperation? ==> CancelOperationStep(c, e.operation, e.now, c', e.told)
    ensures serial !in c.flags && serial in c'.flags
  {
    hide OfKind, Clashes, Full, Admitted;
  }

  /** The first cancellation of a pending request, by its id or by its operation, is
      one that the peer has to be told. */
  lemma FirstIsTold(c: Context, e: Step, c': Context, serial: nat)
    requires (e.StopRequest? || e.StopOperation?) && Inv(c) && !TimeIsOver(c, e.now) && serial in c.pending && serial !in c.flags
    requires c.pending[serial].id.Some? && c.pending[serial].kind != Initialize
    requires || (e.StopRequest? && e.request.kind == Cancel && e.request.own && e.request.target == c.pending[serial].id
                 && CancelRequestStep(c, e.request, e.now, c', e.stopped))
             || (e.StopOperation? && e.operation == c.pending[serial].operation && CancelOperationStep(c, e.operation, e.now, c', e.told))
    ensures ToldToStop(e) == Some(serial) && c' == c.(flags := c.flags + {serial})
  {
    hide OfKind, Within, Handshake;
    InvParts(c);
    IdsMean(c, serial);
    if e.StopRequest? { assert Cancellable(c, serial, e.request.target); }
  }

  lemma IdsMean(c: Context, serial: nat)
    requires Inv(c) && serial in c.pending && c.pending[serial].id.Some?
    ensures c.pending[serial].kind != Initialized && c.pending[serial].kind != Cancel && !Over(c.phase)
  {
  }

  /** The peer is told at most once to stop one exchange. */
  lemma ToldOnce(r: Run, j: nat, k: nat, serial: nat)
    requires IsRun(r) && j < k < |r.steps| && |r.states| == |r.steps| + 1 && ToldToStop(r.steps[j]) == Some(serial)
    ensures ToldToStop(r.steps[k]) != Some(serial)
  {
    hide IsRun, Moves, Taken, Inv, BeginStep, CancelRequestStep, CancelOperationStep, StateInv;
    RunStep(r, j);
    RunStep(r, k);
    TakenParts(r.states[j], r.steps[j], r.states[j + 1]);
    TakenParts(r.states[k], r.steps[k], r.states[k + 1]);
    OnlyForward(r, j + 1, k);
    TellsOnce(r.states[j].context, r.steps[j], r.states[j + 1].context, serial);
    if ToldToStop(r.steps[k]) == Some(serial) {
      TellsOnce(r.states[k].context, r.steps[k], r.states[k + 1].context, serial);
    }
  }

  // ---- The handshake comes first -------------------------------------------

  /** The exchange of `kind` that completes at this step, if one does. */
  predicate Completes(c: Context, e: Step, kind: Method) {
    e.Finish? && Complete(c, e.exchange, e.completion, e.now).1.Ok? && e.exchange.kind == kind
  }

  lemma {:induction false} ReadyAfter(r: Run, k: nat) returns (j: nat)
    requires IsRun(r) && k < |r.states| && r.states[k].context.phase == Ready
    ensures |r.states| == |r.steps| + 1 && j < k && Completes(r.states[j].context, r.steps[j], Initialized)
    ensures r.states[j].context.phase == AwaitingInitialized
    decreases k
  {
    hide IsRun, Moves, StateInv, Taken, Completes;
    Shape(r);
    if k == 0 {
      StartsNew(r);
    } else {
      RunStep(r, k - 1);
      if r.states[k - 1].context.phase == Ready {
        j := ReadyAfter(r, k - 1);
      } else {
        j := k - 1;
        TurnsReady(r.states[j], r.steps[j], r.states[k]);
      }
    }
  }

  lemma StartsNew(r: Run)
    requires IsRun(r)
    ensures r.states[0].context.phase == New && r.states[0].context.pending == map[] && r.states[0].context.native.None?
  {
  }

  /** Only a completion moves the handshake's later phases and the native session. */
  lemma OtherPhases(s: State, e: Step, s': State)
    requires Taken(s, e, s') && !e.Finish?
    ensures s'.context.phase == s.context.phase || s'.context.phase in {Initializing, Invalid, Closed}
    ensures s'.context.native == s.context.native || s'.context.native.None?
  {
    hide OfKind, Clashes, Full, Admitted, Genuine;
  }

  lemma TurnsReady(s: State, e: Step, s': State)
    requires StateInv(s) && Taken(s, e, s') && s'.context.phase == Ready && s.context.phase != Ready
    ensures Completes(s.context, e, Initialized) && s.context.phase == AwaitingInitialized
  {
    if e.Finish? {
      hide Taken, Numbered, Distinct, Within, OfKind;
      TakenParts(s, e, s');
    } else {
      OtherPhases(s, e, s');
    }
  }

  lemma {:induction false} AwaitingAfter(r: Run, k: nat) returns (j: nat)
    requires IsRun(r) && k < |r.states| && r.states[k].context.phase == AwaitingInitialized
    ensures |r.states| == |r.steps| + 1 && j < k && Completes(r.states[j].context, r.steps[j], Initialize) && r.steps[j].completion.success
    decreases k
  {
    hide IsRun, Moves, StateInv, Taken, Completes;
    Shape(r);
    if k == 0 {
      StartsNew(r);
    } else {
      RunStep(r, k - 1);
      if r.states[k - 1].context.phase == AwaitingInitialized {
        j := AwaitingAfter(r, k - 1);
      } else {
        j := k - 1;
        TurnsAwaiting(r.states[j], r.steps[j], r.states[k]);
      }
    }
  }

  lemma TurnsAwaiting(s: State, e: Step, s': State)
    requires StateInv(s) && Taken(s, e, s') && s'.context.phase == AwaitingInitialized && s.context.phase != AwaitingInitialized
    ensures Completes(s.context, e, Initialize) && e.completion.success
  {
    if e.Finish? {
      hide Taken, Numbered, Distinct, Within, OfKind;
      TakenParts(s, e, s');
    } else {
      OtherPhases(s, e, s');
    }
  }

  /** Listing and calling begin only after the whole handshake: an `initialize` that
      succeeded, and then an `initialized` that completed. */
  lemma WorkAfterHandshake(r: Run, k: nat) returns (i: nat, j: nat)
    requires IsRun(r) && k < |r.steps| && |r.states| == |r.steps| + 1 && r.steps[k].Begin? && r.steps[k].out.Ok?
    requires r.steps[k].request.kind == List || r.steps[k].request.kind == Call
    ensures i < j < k
    ensures Completes(r.states[i].context, r.steps[i], Initialize) && r.steps[i].completion.success
    ensures Completes(r.states[j].context, r.steps[j], Initialized)
  {
    hide IsRun, Moves, StateInv, Completes, Inserted, Clashes, Full;
    RunStep(r, k);
    assert r.states[k].context.phase == Ready;
    hide Taken;
    j := ReadyAfter(r, k);
    i := AwaitingAfter(r, j);
  }

  /** The native session is the one that the `initialize` exchange completed with. */
  lemma {:induction false} NativeFromInitialize(r: Run, k: nat) returns (j: nat)
    requires IsRun(r) && k < |r.states| && r.states[k].context.native.Some?
    ensures |r.states| == |r.steps| + 1 && j < k && Completes(r.states[j].context, r.steps[j], Initialize)
    ensures r.steps[j].completion.success && r.steps[j].completion.native == r.states[k].context.native
    decreases k
  {
    hide IsRun, Moves, StateInv, Taken, Completes;
    Shape(r);
    if k == 0 {
      StartsNew(r);
    } else {
      RunStep(r, k - 1);
      if r.states[k - 1].context.native == r.states[k].context.native {
        j := NativeFromInitialize(r, k - 1);
      } else {
        j := k - 1;
        TurnsNative(r.states[j], r.steps[j], r.states[k]);
      }
    }
  }

  lemma TurnsNative(s: State, e: Step, s': State)
    requires StateInv(s) && Taken(s, e, s') && s'.context.native.Some? && s'.context.native != s.context.native
    ensures Completes(s.context, e, Initialize) && e.completion.success && e.completion.native == s'.context.native
  {
    if e.Finish? {
      hide Taken, Numbered, Distinct, Within, OfKind;
      TakenParts(s, e, s');
    } else {
      OtherPhases(s, e, s');
    }
  }

  // ---- The end -------------------------------------------------------------

  /** The conversation is over: invalid or closed, with nothing pending and no
      native session. */
  predicate Ended(c: Context) {
    (c.phase == Invalid || c.phase == Closed) && c.pending == map[] && c.native.None?
  }

  /** What ends a conversation at once: a failed `initialize`, giving up or
      cancelling a handshake exchange, a refused response, an invalidation, a close,
      and looking at it with a fault or when its time is over. */
  predicate Ends(c: Context, e: Step) {
    || (e.Finish? && Completes(c, e, Initialize) && !e.completion.success)
    || (e.Drop? && e.exchange.binding == c.binding && e.exchange.serial in c.pending && IsHandshake(c.pending[e.exchange.serial].kind))
    || (e.Start? && e.admitted.Err? && e.exchange.binding == c.binding && e.exchange.serial in c.pending
        && e.exchange.serial !in c.flags && !c.pending[e.exchange.serial].started)
    || (e.StopOperation? && exists s :: s in c.pending && c.pending[s].operation == e.operation && IsHandshake(c.pending[s].kind))
    || e.Invalidate? || e.Shut?
    || (e.Look? && TimeIsOver(c, e.now))
  }

  predicate IsHandshake(m: Method) {
    m == Initialize || m == Initialized
  }

  predicate TimeIsOver(c: Context, now: int) {
    c.fault || now >= c.expires || (c.phase != Ready && now >= c.handshake)
  }

  lemma EndsNow(s: State, e: Step, s': State)
    requires StateInv(s) && Taken(s, e, s') && Ends(s.context, e)
    ensures Ended(s'.context)
  {
    hide OfKind, Clashes, Full, Admitted, Numbered, Within, Handshake, BeginStep;
  }

  lemma EndedStays(s: State, e: Step, s': State)
    requires Taken(s, e, s') && Ended(s.context)
    ensures Ended(s'.context)
  {
    hide OfKind, Clashes, Full, Admitted, Genuine;
  }

  lemma {:induction false} StaysEnded(r: Run, j: nat, k: nat)
    requires IsRun(r) && j <= k < |r.states| && Ended(r.states[j].context)
    ensures Ended(r.states[k].context)
    decreases k
  {
    hide IsRun, Moves, StateInv, Taken, Ended, Ends;
    if j < k {
      Shape(r);
      StaysEnded(r, j, k - 1);
      RunStep(r, k - 1);
      EndedStays(r.states[k - 1], r.steps[k - 1], r.states[k]);
    }
  }

  /** After that nothing is ever begun, started or completed. */
  lemma EndedForGood(r: Run, j: nat, k: nat, serial: nat)
    requires IsRun(r) && j < k < |r.steps| && |r.states| == |r.steps| + 1 && Ends(r.states[j].context, r.steps[j])
    ensures Ended(r.states[k].context)
    ensures r.steps[k].Begin? ==> r.steps[k].out.Err?
    ensures !Finishes(r.states[k].context, r.steps[k], serial) && !Starts(r.states[k].context, r.steps[k], serial)
  {
    hide IsRun, Moves, StateInv, Ends;
    RunStep(r, j);
    RunStep(r, k);
    EndsNow(r.states[j], r.steps[j], r.states[j + 1]);
    StaysEnded(r, j + 1, k);
    StoppedNow(r.states[k], r.steps[k], r.states[k + 1], serial);
    hide Clashes, Full, Inserted, Finishes, Starts;
  }

  /** A conversation lasts ten minutes at most, its handshake half a minute, and
      neither longer than it was allowed: then nothing is begun, started or
      completed any more. */
  lemma NothingAfterExpiry(r: Run, k: nat, binding: BindingId, from: int, until: int, serial: nat)
    requires IsRun(r) && k < |r.steps| && |r.states| == |r.steps| + 1
    requires r.states[0].context == Fresh(binding, from, until)
    requires r.steps[k].Begin? || r.steps[k].Start? || r.steps[k].Finish?
    requires r.steps[k].now >= until || r.steps[k].now >= from + 600 || (r.states[k].context.phase != Ready && r.steps[k].now >= from + 30)
    ensures r.steps[k].Begin? ==> r.steps[k].out.Err?
    ensures !Finishes(r.states[k].context, r.steps[k], serial) && !Starts(r.states[k].context, r.steps[k], serial)
  {
    hide IsRun, Moves, StateInv;
    RunStep(r, k);
    TimesStay(r, k);
    hide Clashes, Full, Inserted;
  }

  lemma {:induction false} TimesStay(r: Run, k: nat)
    requires IsRun(r) && k < |r.states|
    ensures r.states[k].context.expires == r.states[0].context.expires && r.states[k].context.handshake == r.states[0].context.handshake
    decreases k
  {
    hide IsRun, Taken, StateInv, PhaseMoves;
    if k > 0 {
      Shape(r);
      TimesStay(r, k - 1);
      RunStep(r, k - 1);
    }
  }

  // ---- Who is let in -------------------------------------------------------

  /** The pending exchanges of the control kinds, or of the others. */
  function Occupying(c: Context, control: bool): set<nat> {
    set s | s in c.pending && (c.pending[s].kind in {Ping, Initialized, Cancel}) == control
  }

  /** At most two control exchanges and eight others are ever pending. */
  lemma CapacitiesHold(r: Run, k: nat)
    requires IsRun(r) && k < |r.states|
    ensures |Occupying(r.states[k].context, true)| <= 2 && |Occupying(r.states[k].context, false)| <= 8
  {
    hide IsRun;
    RunInv(r, k);
    assert Occupying(r.states[k].context, true) == OfKind(r.states[k].context, true);
    assert Occupying(r.states[k].context, false) == OfKind(r.states[k].context, false);
  }

  /** The conversation is at a point where a request of this kind belongs. */
  predicate InTurn(c: Context, m: Method) {
    && (m == Initialize ==> c.phase == New)
    && (m == Initialized ==> c.phase == AwaitingInitialized && forall s :: s in c.pending ==> c.pending[s].kind != Initialized)
    && (m in {Ping, Cancel} ==> c.phase in {Initializing, AwaitingInitialized, Ready})
    && (m in {List, Call} ==> c.phase == Ready)
  }

  /** Neither the operation nor the id of the request is pending. */
  predicate Unused(c: Context, q: Request, operation: OperationId) {
    forall s :: s in c.pending ==> c.pending[s].operation != operation && (q.id.Some? ==> c.pending[s].id != q.id)
  }

  /** There is something left to cancel under the id that a cancellation names. */
  predicate Stoppable(c: Context, q: Request) {
    exists s :: s in c.pending && s !in c.flags && c.pending[s].kind != Initialize && c.pending[s].id.Some? && c.pending[s].id == q.target
  }

  /** A request is let in exactly when it is this conversation's, its operation id
      is canonical, the time is not over, it is the request's turn, nothing pending
      has its operation or its id, a cancellation has something to cancel, and there
      is room for its kind; it becomes pending under the next serial. */
  lemma BegunExactly(c: Context, e: Step, c': Context)
    requires Inv(c) && e.Begin? && Formed(e.request) && BeginStep(c, e.request, e.operation, e.valid, e.now, c', e.out)
    ensures e.out.Ok? && e.out.value.Some? <==>
              && e.request.own && e.valid && !(Ended(c) || TimeIsOver(c, e.now))
              && InTurn(c, e.request.kind) && Unused(c, e.request, e.operation)
              && (e.request.kind == Cancel ==> Stoppable(c, e.request))
              && c.next <= 4096
              && |Occupying(c, e.request.kind in {Ping, Initialized, Cancel})| < (if e.request.kind in {Ping, Initialized, Cancel} then 2 else 8)
    ensures !(e.out.Ok? && e.out.value.Some?) ==>
              e.out == (if !e.request.own || !e.valid then Err(RequestInvalid)
                        else if Ended(c) || TimeIsOver(c, e.now) then Err(SessionInvalid)
                        else if !InTurn(c, e.request.kind) || !Unused(c, e.request, e.operation) then Err(RequestConflict)
                        else if e.request.kind == Cancel && !Stoppable(c, e.request) then Ok(None)
                        else Err(LimitExceeded))
    ensures e.out.Ok? && e.out.value.Some? ==>
              && c'.pending == c.pending[c.next := Pending(e.request.kind, e.request.id, e.operation, false)] && c'.next == c.next + 1
              && e.out.value.value.serial == c.next && e.out.value.value.binding == c.binding && e.out.value.value.kind == e.request.kind
              && (e.request.kind != Cancel ==> c'.flags == c.flags && e.out.value.value.mapped == (if e.request.id.Some? then Some(c.next) else None))
  {
    hide Numbered, Distinct, Within, Handshake;
    assert Occupying(c, true) == OfKind(c, true);
    assert Occupying(c, false) == OfKind(c, false);
    assert Clashes(c, e.request, e.operation) <==> !Unused(c, e.request, e.operation);
    forall s ensures StopTarget(c, e.request, s) <==>
                       s in c.pending && s !in c.flags && c.pending[s].kind != Initialize && c.pending[s].id.Some? && c.pending[s].id == e.request.target {}
  }

  /** A response is accepted exactly for a pending exchange of this conversation
      that is not cancelled and has none yet, in time and if its head is admitted. */
  lemma StartedExactly(c: Context, e: Step, serial: nat)
    requires Inv(c) && e.Start? && e.exchange.serial == serial
    ensures Starts(c, e, serial) <==>
              && e.exchange.binding == c.binding && serial in c.pending && serial !in c.flags && !c.pending[serial].started
              && e.admitted.Ok? && !TimeIsOver(c, e.now)
  {
    hide Numbered, Distinct, Within, Handshake;
  }

  /** An exchange completes exactly if it is pending, not cancelled and its response
      was accepted, in time; whether it completes or is refused as cancelled, it is
      pending no more. */
  lemma FinishedExactly(c: Context, e: Step, serial: nat)
    requires Inv(c) && e.Finish? && e.exchange.serial == serial
    ensures Finishes(c, e, serial) <==>
              && e.exchange.binding == c.binding && e.completion.binding == c.binding && e.completion.serial == serial
              && serial in c.pending && serial !in c.flags && c.pending[serial].started && !TimeIsOver(c, e.now)
    ensures e.exchange.binding == c.binding && e.completion.binding == c.binding && e.completion.serial == serial
            && serial in c.pending && (serial in c.flags || c.pending[serial].started)
            ==> serial !in Complete(c, e.exchange, e.completion, e.now).0.pending
  {
    hide Numbered, Distinct, Within, Handshake;
  }

  /** An exchange that is given up is pending no more, and can never complete. */
  lemma DroppedForGood(r: Run, j: nat, k: nat)
    requires IsRun(r) && j < k < |r.steps| && |r.states| == |r.steps| + 1 && r.steps[j].Drop?
    requires r.steps[j].exchange.binding == r.states[j].context.binding && r.steps[j].exchange.serial in r.states[j].context.pending
    ensures !Finishes(r.states[k].context, r.steps[k], r.steps[j].exchange.serial)
    ensures !Starts(r.states[k].context, r.steps[k], r.steps[j].exchange.serial)
  {
    hide IsRun, Moves, Finishes, Starts, Taken, Inv, BeginStep, CancelRequestStep, CancelOperationStep, StateInv, Complete;
    RunStep(r, j);
    TakenParts(r.states[j], r.steps[j], r.states[j + 1]);
    StoppedForGood(r, j + 1, k, r.steps[j].exchange.serial);
  }
}
