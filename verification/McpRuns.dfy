/** A remote conversation over whole runs. */
module McpRuns {
  import opened Prelude
  import opened McpContext

  // ---- Runs ----------------------------------------------------------------

  /** A conversation and the exchanges it has handed out, by serial. */
  datatype State = State(context: Context, made: map<nat, Exchange>)

  datatype Step =
    | Begin(request: Request, operation: OperationId, valid: bool, now: int, out: Result<Option<Exchange>>)
    | Start(exchange: Exchange, admitted: Result<()>, now: int)
    | Finish(exchange: Exchange, completion: Completion, now: int)
    | Drop(exchange: Exchange)
    | StopRequest(request: Request, now: int, stopped: Result<Option<nat>>)
    | StopOperation(operation: OperationId, now: int, told: Option<nat>)
    | Fault
    | Look(now: int)
    | Invalidate
    | Shut(now: int)

  /** Exchanges are private: an exchange of this context is one it handed out. */
  predicate Genuine(s: State, x: Exchange) {
    x.binding == s.context.binding ==> x.serial in s.made && x == s.made[x.serial]
  }

  ghost predicate Taken(s: State, e: Step, s': State) {
    var c, c' := s.context, s'.context;
    match e
    case Begin(r, operation, valid, now, out) =>
      && Formed(r) && BeginStep(c, r, operation, valid, now, c', out)
      && s'.made == if out.Ok? && out.value.Some? then s.made[out.value.value.serial := out.value.value] else s.made
    case Start(x, admitted, now) => Genuine(s, x) && s' == State(StartResponse(c, x, admitted, now).0, s.made)
    case Finish(x, completion, now) => Genuine(s, x) && s' == State(Complete(c, x, completion, now).0, s.made)
    case Drop(x) => Genuine(s, x) && s' == State(Abandon(c, x), s.made)
    case StopRequest(r, now, out) => Formed(r) && CancelRequestStep(c, r, now, c', out) && s'.made == s.made
    case StopOperation(operation, now, out) => CancelOperationStep(c, operation, now, c', out) && s'.made == s.made
    case Fault => s' == State(c.(fault := true), s.made)
    case Look(now) => s' == State(Expire(c, now), s.made)
    case Invalidate => s' == State(Invalidated(c), s.made)
    case Shut(now) => s' == State(Close(c, now), s.made)
  }

  ghost predicate StateInv(s: State) {
    && Inv(s.context)
    && (forall k :: k in s.made ==> k < s.context.next && s.made[k].serial == k)
    && (forall k :: k in s.context.pending ==> k in s.made && s.made[k].kind == s.context.pending[k].kind)
  }

  // ---- What one step may change --------------------------------------------

  function Rank(p: Phase): nat {
    match p
    case New => 0
    case Initializing => 1
    case AwaitingInitialized => 2
    case Ready => 3
    case Invalid => 4
    case Closed => 5
  }

  /** The handshake goes on by one phase, or the conversation ends for good. */
  predicate PhaseMoves(a: Phase, b: Phase) {
    b == a || (Over(b) && a != Closed) || (Rank(b) == Rank(a) + 1 && Rank(b) <= 3)
  }

  /** Old exchanges are never admitted again, never start a second response and
      never lose a cancellation. */
  predicate Moves(c: Context, c': Context) {
    && c'.binding == c.binding && c'.expires == c.expires && c'.handshake == c.handshake
    && c.next <= c'.next
    && c.flags <= c'.flags
    && (c.fault ==> c'.fault)
    && PhaseMoves(c.phase, c'.phase)
    && (forall s :: s in c'.pending && s < c.next ==>
          && s in c.pending
          && c'.pending[s] == c.pending[s].(started := c'.pending[s].started)
          && (c.pending[s].started ==> c'.pending[s].started))
  }

  lemma ExpireMoves(c: Context, now: int)
    ensures Moves(c, Expire(c, now))
  {
  }

  lemma MovesOn(c: Context, e: Context, c': Context)
    requires Moves(c, e) && Moves(e, c') && (e == c || Over(e.phase))
    ensures Moves(c, c')
  {
  }

  lemma BeginMoves(c: Context, r: Request, operation: OperationId, valid: bool, now: int, c': Context, out: Result<Option<Exchange>>)
    requires Numbered(c) && BeginStep(c, r, operation, valid, now, c', out)
    ensures Moves(c, c')
    ensures out.Err? || out.value.None? ==> c' == Expire(c, now)
    ensures out.Ok? && out.value.Some? ==>
              out.value.value.serial == c.next && c'.next == c.next + 1 && out.value.value.kind == r.kind
              && c.next in c'.pending && c'.pending[c.next].kind == r.kind
  {
    hide Clashes, Full;
    ExpireMoves(c, now);
    var e := Expire(c, now);
    if c' != e { MovesOn(c, e, c'); }
  }

  lemma StartMoves(c: Context, x: Exchange, admitted: Result<()>, now: int)
    ensures Moves(c, StartResponse(c, x, admitted, now).0) && StartResponse(c, x, admitted, now).0.next == c.next
  {
    ExpireMoves(c, now);
    var e, c' := Expire(c, now), StartResponse(c, x, admitted, now).0;
    if c' != c && c' != e { MovesOn(c, e, c'); }
  }

  lemma FinishMoves(c: Context, x: Exchange, completion: Completion, now: int)
    requires Inv(c) && Owns(Expire(c, now), x)
    ensures Moves(c, Complete(c, x, completion, now).0) && Complete(c, x, completion, now).0.next == c.next
  {
    ExpireMoves(c, now);
    ExpireInv(c, now);
    var e, c' := Expire(c, now), Complete(c, x, completion, now).0;
    if c' != c && c' != e { FinishedMoves(e, x, completion, now); MovesOn(c, e, c'); }
  }

  lemma FinishedMoves(e: Context, x: Exchange, completion: Completion, now: int)
    requires Handshake(e) && Owns(e, x)
    ensures Moves(e, e.(pending := e.pending - {x.serial}))
    ensures x.serial in e.pending ==> Moves(e, Settled(e.(pending := e.pending - {x.serial}), x.kind, completion))
  {
  }

  lemma StopRequestMoves(c: Context, r: Request, now: int, c': Context, out: Result<Option<nat>>)
    requires CancelRequestStep(c, r, now, c', out)
    ensures Moves(c, c')
  {
    ExpireMoves(c, now);
    var e := Expire(c, now);
    if c' != c && c' != e { MovesOn(c, e, c'); }
  }

  lemma StopOperationMoves(c: Context, operation: OperationId, now: int, c': Context, out: Option<nat>)
    requires CancelOperationStep(c, operation, now, c', out)
    ensures Moves(c, c')
  {
    ExpireMoves(c, now);
    var e := Expire(c, now);
    if c' != c && c' != e { MovesOn(c, e, c'); }
  }

  // ---- Every step keeps the invariant --------------------------------------

  lemma OwnsGenuine(s: State, x: Exchange, now: int)
    requires StateInv(s) && Genuine(s, x) && x.binding == s.context.binding
    ensures Owns(Expire(s.context, now), x)
  {
    hide Inv;
  }

  lemma StopRequestInv(c: Context, r: Request, now: int, c': Context, out: Result<Option<nat>>)
    requires Inv(c) && CancelRequestStep(c, r, now, c', out)
    ensures Inv(c') && c'.next == c.next && forall s :: s in c'.pending ==> s in c.pending && c'.pending[s] == c.pending[s]
  {
    hide Inv;
    ExpireInv(c, now);
    var e := Expire(c, now);
    if c' != c && c' != e {
      var s: nat :| Cancellable(e, s, r.target) && c' == CancelSerial(e, s).0 && out == Ok(CancelSerial(e, s).1);
      CancelSerialInv(e, s);
    }
  }

  lemma StopOperationInv(c: Context, operation: OperationId, now: int, c': Context, out: Option<nat>)
    requires Inv(c) && CancelOperationStep(c, operation, now, c', out)
    ensures Inv(c') && c'.next == c.next && forall s :: s in c'.pending ==> s in c.pending && c'.pending[s] == c.pending[s]
  {
    hide Inv;
    ExpireInv(c, now);
    var e := Expire(c, now);
    InvalidatedInv(e);
    if c' != e && c' != Invalidated(e) {
      var s: nat :| s in e.pending && e.pending[s].operation == operation && c' == CancelSerial(e, s).0 && e.pending[s].kind != Initialize;
      CancelSerialInv(e, s);
    }
  }

  lemma FaultInv(c: Context)
    requires Inv(c)
    ensures Inv(c.(fault := true))
  {
    KindsShrink(c, c.(fault := true));
  }

  /** Every step keeps the invariant and only moves forward. */
  lemma StepInv(s: State, e: Step, s': State)
    requires StateInv(s) && Taken(s, e, s')
    ensures StateInv(s') && Moves(s.context, s'.context)
  {
    hide Inv, Moves, BeginStep, StartResponse, Complete, Abandon, CancelRequestStep, CancelOperationStep, Close, Genuine;
    var c, c' := s.context, s'.context;
    match e
    case Begin(r, operation, valid, now, out) =>
      BeginInv(c, r, operation, valid, now, c', out);
      Numbers(c);
      BeginMoves(c, r, operation, valid, now, c', out);
      BegunMade(s, e, s');
    case Start(x, admitted, now) =>
      StartInv(c, x, admitted, now);
      StartMoves(c, x, admitted, now);
      KeptMade(s, s');
    case Finish(x, completion, now) =>
      FinishStepInv(s, x, completion, now);
      KeptMade(s, s');
    case Drop(x) =>
      AbandonInv(c, x);
      AbandonMoves(c, x);
      KeptMade(s, s');
    case StopRequest(r, now, out) =>
      StopRequestInv(c, r, now, c', out);
      StopRequestMoves(c, r, now, c', out);
    case StopOperation(operation, now, out) =>
      StopOperationInv(c, operation, now, c', out);
      StopOperationMoves(c, operation, now, c', out);
    case Fault =>
      FaultInv(c);
      FaultMoves(c);
    case Look(now) =>
      ExpireInv(c, now);
      ExpireMoves(c, now);
      KeptMade(s, s');
    case Invalidate =>
      InvalidatedInv(c);
      InvalidatedMoves(c);
      KeptMade(s, s');
    case Shut(now) =>
      CloseInv(c, now);
      CloseMoves(c, now);
      KeptMade(s, s');
  }

  lemma Numbers(c: Context)
    requires Inv(c)
    ensures Numbered(c)
  {
  }

  lemma AbandonMoves(c: Context, x: Exchange)
    ensures Moves(c, Abandon(c, x)) && Abandon(c, x).next == c.next
  {
  }

  lemma FaultMoves(c: Context)
    ensures Moves(c, c.(fault := true))
  {
  }

  lemma InvalidatedMoves(c: Context)
    ensures Moves(c, Invalidated(c)) && Invalidated(c).next == c.next
  {
  }

  lemma CloseMoves(c: Context, now: int)
    ensures Moves(c, Close(c, now)) && Close(c, now).next == c.next
  {
  }

  lemma FinishStepInv(s: State, x: Exchange, completion: Completion, now: int)
    requires StateInv(s) && Genuine(s, x)
    ensures Inv(Complete(s.context, x, completion, now).0) && Moves(s.context, Complete(s.context, x, completion, now).0)
    ensures Complete(s.context, x, completion, now).0.next == s.context.next
  {
    hide Inv, Genuine;
    var c := s.context;
    if x.binding == c.binding {
      OwnsGenuine(s, x, now);
      CompleteInv(c, x, completion, now);
      FinishMoves(c, x, completion, now);
    }
  }

  /** Exchanges handed out earlier still name what is pending. */
  lemma KeptMade(s: State, s': State)
    requires StateInv(s) && Moves(s.context, s'.context) && s'.made == s.made
    requires Inv(s'.context) && s'.context.next == s.context.next
    ensures forall k :: k in s'.made ==> k < s'.context.next && s'.made[k].serial == k
    ensures forall k :: k in s'.context.pending ==> k in s'.made && s'.made[k].kind == s'.context.pending[k].kind
  {
    hide Inv;
    Numbers(s'.context);
  }

  lemma BegunMade(s: State, e: Step, s': State)
    requires StateInv(s) && e.Begin? && Taken(s, e, s')
    ensures forall k :: k in s'.made ==> k < s'.context.next && s'.made[k].serial == k
    ensures forall k :: k in s'.context.pending ==> k in s'.made && s'.made[k].kind == s'.context.pending[k].kind
  {
    hide Inv, BeginStep, Clashes, Full;
    Numbers(s.context);
    BeginMoves(s.context, e.request, e.operation, e.valid, e.now, s'.context, e.out);
    BeginInv(s.context, e.request, e.operation, e.valid, e.now, s'.context, e.out);
    Numbers(s'.context);
  }

  // ---- Whole runs ----------------------------------------------------------

  datatype Run = Run(states: seq<State>, steps: seq<Step>)

  ghost predicate StepAt(r: Run, k: nat)
    requires k < |r.steps| && |r.states| == |r.steps| + 1
  {
    Taken(r.states[k], r.steps[k], r.states[k + 1])
  }

  ghost predicate IsRun(r: Run) {
    && |r.states| == |r.steps| + 1
    && (exists binding: BindingId, now: int, expires: int :: r.states[0] == State(Fresh(binding, now, expires), map[]))
    && forall k :: 0 <= k < |r.steps| ==> StepAt(r, k)
  }

  /** The invariant holds in every state of every run: distinct operations and
      ids, bounded capacities, one handshake, and nothing left when it is over. */
  lemma {:induction false} RunInv(r: Run, k: nat)
    requires IsRun(r) && k < |r.states|
    ensures StateInv(r.states[k])
  {
    hide Inv, Taken, Moves;
    if k == 0 {
      var binding: BindingId, now: int, expires: int :| r.states[0] == State(Fresh(binding, now, expires), map[]);
      FreshInv(binding, now, expires);
    } else {
      RunInv(r, k - 1);
      assert StepAt(r, k - 1);
      StepInv(r.states[k - 1], r.steps[k - 1], r.states[k]);
    }
  }

  lemma RunStep(r: Run, k: nat)
    requires IsRun(r) && k < |r.steps|
    ensures |r.states| == |r.steps| + 1 && StateInv(r.states[k]) && StateInv(r.states[k + 1])
    ensures Taken(r.states[k], r.steps[k], r.states[k + 1]) && Moves(r.states[k].context, r.states[k + 1].context)
  {
    hide Taken, Moves, StateInv;
    RunInv(r, k);
    assert StepAt(r, k);
    StepInv(r.states[k], r.steps[k], r.states[k + 1]);
  }

  /** Serials and phases only advance; cancellations and expiry stick. */
  lemma {:induction false} OnlyForward(r: Run, j: nat, k: nat)
    requires IsRun(r) && j <= k < |r.states|
    ensures r.states[j].context.next <= r.states[k].context.next
    ensures r.states[j].context.flags <= r.states[k].context.flags
    ensures Rank(r.states[j].context.phase) <= Rank(r.states[k].context.phase)
    ensures r.states[j].context.binding == r.states[k].context.binding
    decreases k
  {
    hide IsRun, Taken, StateInv;
    if j < k {
      Shape(r);
      RunStep(r, k - 1);
      OnlyForward(r, j, k - 1);
    }
  }

  lemma Shape(r: Run)
    requires IsRun(r)
    ensures |r.states| == |r.steps| + 1
  {
  }

  /** A serial is handed out once. */
  lemma SerialsUnique(r: Run, j: nat, k: nat)
    requires IsRun(r) && j < k < |r.steps|
    requires r.steps[j].Begin? && r.steps[j].out.Ok? && r.steps[j].out.value.Some?
    requires r.steps[k].Begin? && r.steps[k].out.Ok? && r.steps[k].out.value.Some?
    ensures r.steps[j].out.value.value.serial < r.steps[k].out.value.value.serial
  {
    hide IsRun, BeginStep, Inv, Moves;
    Begun(r, j);
    Begun(r, k);
    OnlyForward(r, j + 1, k);
  }

  lemma Begun(r: Run, k: nat)
    requires IsRun(r) && k < |r.steps|
    requires r.steps[k].Begin? && r.steps[k].out.Ok? && r.steps[k].out.value.Some?
    ensures |r.states| == |r.steps| + 1
    ensures r.steps[k].out.value.value.serial == r.states[k].context.next
    ensures r.states[k + 1].context.next == r.states[k].context.next + 1
  {
    hide IsRun, BeginStep, Inv, Moves;
    RunStep(r, k);
    var e := r.steps[k];
    Numbers(r.states[k].context);
    BeginMoves(r.states[k].context, e.request, e.operation, e.valid, e.now, r.states[k + 1].context, e.out);
  }

  /** Once pending no more, an exchange never is again. */
  lemma {:induction false} GoneForGood(r: Run, j: nat, k: nat, s: nat)
    requires IsRun(r) && j <= k < |r.states| && s < r.states[j].context.next && s !in r.states[j].context.pending
    ensures s !in r.states[k].context.pending
    decreases k
  {
    hide IsRun, Taken, StateInv, PhaseMoves;
    if j < k {
      Shape(r);
      RunStep(r, k - 1);
      GoneForGood(r, j, k - 1, s);
      OnlyForward(r, j, k - 1);
    }
  }

  /** A response, once started, stays started while its exchange is pending. */
  lemma {:induction false} StartedForGood(r: Run, j: nat, k: nat, s: nat)
    requires IsRun(r) && j <= k < |r.states| && s in r.states[j].context.pending && s < r.states[j].context.next
    requires r.states[j].context.pending[s].started && s in r.states[k].context.pending
    ensures r.states[k].context.pending[s].started
    decreases k
  {
    hide IsRun, Taken, StateInv, PhaseMoves;
    if j < k {
      Shape(r);
      RunStep(r, k - 1);
      OnlyForward(r, j, k - 1);
      if s in r.states[k - 1].context.pending { StartedForGood(r, j, k - 1, s); }
    }
  }

  /** The exchange's response was accepted for reading at this step. */
  predicate Starts(c: Context, e: Step, s: nat) {
    e.Start? && e.exchange.serial == s && StartResponse(c, e.exchange, e.admitted, e.now).1.Ok?
  }

  /** The exchange completed at this step. */
  predicate Finishes(c: Context, e: Step, s: nat) {
    e.Finish? && e.exchange.serial == s && Complete(c, e.exchange, e.completion, e.now).1.Ok?
  }

  lemma FinishParts(s: State, e: Step, s': State, k: nat)
    requires Taken(s, e, s') && Finishes(s.context, e, k)
    ensures k in s.context.pending && k !in s.context.flags && s.context.pending[k].started && k !in s'.context.pending
  {
  }

  lemma StartParts(s: State, e: Step, s': State, k: nat)
    requires Taken(s, e, s') && Starts(s.context, e, k)
    ensures k in s.context.pending && !s.context.pending[k].started
    ensures k in s'.context.pending && s'.context.pending[k].started && s'.context.next == s.context.next
  {
  }

  /** A cancelled exchange never completes. */
  lemma CancelledNeverCompletes(r: Run, j: nat, k: nat, s: nat)
    requires IsRun(r) && j <= k < |r.steps| && |r.states| == |r.steps| + 1 && s in r.states[j].context.flags
    ensures !Finishes(r.states[k].context, r.steps[k], s)
  {
    hide IsRun, Taken, Moves, StateInv, Complete;
    OnlyForward(r, j, k);
    RunStep(r, k);
    if Finishes(r.states[k].context, r.steps[k], s) { FinishParts(r.states[k], r.steps[k], r.states[k + 1], s); }
  }

  /** An exchange completes at most once, and only after its one response. */
  lemma CompletesOnce(r: Run, j: nat, k: nat, s: nat)
    requires IsRun(r) && j < k < |r.steps| && |r.states| == |r.steps| + 1 && Finishes(r.states[j].context, r.steps[j], s)
    ensures !Finishes(r.states[k].context, r.steps[k], s) && !Starts(r.states[k].context, r.steps[k], s)
  {
    hide IsRun, Taken, Moves, StateInv, Complete, StartResponse;
    RunStep(r, j);
    RunStep(r, k);
    FinishParts(r.states[j], r.steps[j], r.states[j + 1], s);
    PendingBelow(r.states[j], s);
    OnlyForward(r, j, j + 1);
    GoneForGood(r, j + 1, k, s);
    if Finishes(r.states[k].context, r.steps[k], s) { FinishParts(r.states[k], r.steps[k], r.states[k + 1], s); }
    if Starts(r.states[k].context, r.steps[k], s) { StartParts(r.states[k], r.steps[k], r.states[k + 1], s); }
  }

  lemma PendingBelow(s: State, k: nat)
    requires StateInv(s) && k in s.context.pending
    ensures k < s.context.next
  {
  }

  /** An exchange starts at most one response. */
  lemma OneResponse(r: Run, j: nat, k: nat, s: nat)
    requires IsRun(r) && j < k < |r.steps| && |r.states| == |r.steps| + 1 && Starts(r.states[j].context, r.steps[j], s)
    ensures !Starts(r.states[k].context, r.steps[k], s)
  {
    hide IsRun, Taken, Moves, StateInv, StartResponse;
    RunStep(r, j);
    RunStep(r, k);
    StartParts(r.states[j], r.steps[j], r.states[j + 1], s);
    PendingBelow(r.states[j], s);
    if Starts(r.states[k].context, r.steps[k], s) {
      StartParts(r.states[k], r.steps[k], r.states[k + 1], s);
      StartedForGood(r, j + 1, k, s);
    }
  }
}
