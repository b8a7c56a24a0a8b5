/** The host, the remote conversations of its sessions and the recorder as one
    state. A completion runs the engine's commit as the recorder's callback, with
    the conversation's own completion inside it. */
module Joint {
  import opened Prelude
  import E = Engine
  import M = McpContext
  import T = McpRuns
  import L = Ledger
  import O = Observation
  import F = Flow
  import R = FlowRuns
  import V = Evolution
  import C = Consumers
  import Ev = Events

  datatype Op = Op(session: E.SessionId, request: E.RequestId)

  /** A guard's hold on a remote exchange: `held` until it is handed in or given
      up, `decoding` once its response is being read, `completion` what reading
      the whole response gave. */
  datatype Tenure = Tenure(exchange: M.Exchange, held: bool, decoding: bool, completion: Option<M.Completion>)

  /** An operation's guard: its flow, what it has observed, and its exchange. */
  datatype Guard = Guard(flow: Ev.FlowId, streams: seq<O.StreamState>, remote: Option<Tenure>)

  /** A session's remote binding: the conversation, and the flag that stops its
      users. */
  datatype Remote = Remote(owner: E.SessionId, talk: T.State, cancelled: bool)

  datatype World = World(host: E.Host, recording: R.State, remotes: map<M.BindingId, Remote>, guards: map<Op, Guard>)

  // ---- Recording -----------------------------------------------------------

  /** The flow's form of observed events; sizes and classes are left open. */
  predicate Renders(emitted: seq<O.Emitted>, emissions: seq<F.Emission>) {
    && |emissions| == |emitted|
    && forall i :: 0 <= i < |emitted| ==> emissions[i].direction == emitted[i].direction && emissions[i].view == emitted[i].view
  }

  /** What the recorder and the caller say of one batch: how the commit answers,
      whether the clock is readable, and the outcome. */
  datatype Report = Report(emissions: seq<F.Emission>, clock: bool, verdict: Result<()>, out: L.Outcome)

  /** Observing a batch: the streams advance together with its acceptance. */
  ghost predicate Observes(flow: Ev.FlowId, a: seq<O.StreamState>, s: R.State, emitted: seq<O.Emitted>, p: Report,
                           b: seq<O.StreamState>, s': R.State)
    requires L.Inv(s.ledger) && |a| == O.SLOTS
  {
    if O.Replay(a, emitted).None? then b == a && s' == s && p.out == L.Outcome(Err(ObservationUnavailable), 0)
    else
      && Renders(emitted, p.emissions)
      && R.Emits(s, flow, p.emissions, p.clock, p.verdict, p.out, s')
      && b == if p.out.result.Ok? then O.Replay(a, emitted).value else a
  }

  // ---- Remote exchanges ----------------------------------------------------

  function With(r: Remote, c: M.Context): Remote {
    r.(talk := r.talk.(context := c))
  }

  /** The check before completion: an expired or stopped binding is invalidated. */
  function Looked(r: Remote, t: Tenure, now: int): (Remote, Result<()>) {
    var c := r.talk.context;
    if r.cancelled || now >= c.expires then (With(r, M.Invalidated(c)).(cancelled := true), Err(SessionInvalid))
    else
      var e := M.Expire(c, now);
      if M.Over(e.phase) then (With(r, e).(cancelled := true), Err(SessionInvalid))
      else if !t.held then (With(r, e), Err(RequestConflict))
      else (With(r, e), M.CheckVerdict(e, t.exchange))
  }

  datatype Handed = Handed(remote: Remote, tenure: Tenure, answer: Result<()>)

  /** Inside the commit: hand the exchange in to its conversation. */
  function HandIn(r: Remote, t: Tenure, now: int): Handed {
    if r.cancelled || r.talk.context.expires <= now then Handed(r, t, Err(ErrorCode.OutcomeUnknown))
    else if !t.held then Handed(r, t, Err(RequestConflict))
    else if t.completion.None? then Handed(r, t.(held := false), Err(RequestConflict))
    else
      var (c, answer) := M.Complete(r.talk.context, t.exchange, t.completion.value, now);
      Handed(With(r, c), t.(held := false, completion := None), Hidden(answer))
  }

  /** A lost session is reported as an unknown outcome. */
  function Hidden(answer: Result<()>): Result<()> {
    if answer == Err(SessionInvalid) then Err(ErrorCode.OutcomeUnknown) else answer
  }

  /** Giving an exchange up; a conversation that this ends stops its users. */
  function GivenUp(r: Remote, t: Tenure, now: int): Remote {
    if !t.held then r
    else
      var c := M.Expire(M.Abandon(r.talk.context, t.exchange), now);
      With(r, c).(cancelled := r.cancelled || M.Over(c.phase))
  }

  // ---- Steps ---------------------------------------------------------------

  datatype Step =
    | Host(inner: E.Step)
    | Recording(recorded: R.Step)
    | Guarding(op: Op, origin: Ev.Origin, required: bool)
    | Observing(op: Op, emitted: seq<O.Emitted>, report: Report)
    | Talk(binding: M.BindingId, said: T.Step)
    | Sever(binding: M.BindingId)
    | Admit(op: Op, binding: M.BindingId, created: Option<int>, request: M.Request, valid: bool, begun: Result<Option<M.Exchange>>)
    | Respond(op: Op, admitted: Result<()>)
    | ReadOut(op: Op, success: bool, native: Option<int>)
    | Prepare(op: Op)
    | Commit(op: Op, report: Report)
    | Local(op: Op, report: Report)
    | GiveUp(op: Op)
    | Fail(op: Op, reason: ErrorCode)
    | Conclude(op: Op, report: Report)

  predicate Guarded(w: World, op: Op) {
    op in w.guards && |w.guards[op].streams| == O.SLOTS
  }

  predicate HasRemote(w: World, op: Op) {
    Guarded(w, op) && w.guards[op].remote.Some? && w.guards[op].remote.value.exchange.binding in w.remotes
  }

  function TenureOf(w: World, op: Op): Tenure
    requires HasRemote(w, op)
  {
    w.guards[op].remote.value
  }

  function RemoteOf(w: World, op: Op): Remote
    requires HasRemote(w, op)
  {
    w.remotes[TenureOf(w, op).exchange.binding]
  }

  /** Whether another's hand can make this conversation step. */
  predicate FromOutside(said: T.Step) {
    said.StopRequest? || said.StopOperation? || said.Fault? || said.Look? || said.Invalidate? || said.Shut?
  }

  /** Engine steps that involve neither a conversation nor the record. */
  predicate Plain(e: E.Step) {
    !e.Prepare? && !e.Commit? && !e.Local? && !e.Failing? && !e.Remote?
  }

  /** What the program order guarantees: an operation with a remote exchange is
      completed after its whole response was read, locally completed operations
      have none, and a guard settles a failure after giving its exchange up. */
  predicate Enabled(w: World, e: Step) {
    match e
    case Host(inner) => Plain(inner) && E.Enabled(w.host, inner)
    case Recording(step) => step.Emit? ==> forall op :: op in w.guards ==> w.guards[op].flow != step.flow
    case Guarding(op, _, _) => E.Running(w.host, op.session, op.request) && op !in w.guards
    case Observing(op, _, p) => Guarded(w, op) && p.verdict.Ok?
    case Talk(b, said) => b in w.remotes && FromOutside(said)
    case Sever(b) => b in w.remotes
    case Admit(op, b, created, request, _, _) =>
      && Guarded(w, op) && w.guards[op].remote.None? && E.Running(w.host, op.session, op.request) && M.Formed(request)
      && (created.None? ==> b in w.remotes && w.remotes[b].owner == op.session)
      && (created.Some? ==> b !in w.remotes && created.value > w.host.now)
    case Respond(op, _) => HasRemote(w, op) && TenureOf(w, op).held
    case ReadOut(op, _, _) => HasRemote(w, op) && TenureOf(w, op).held && TenureOf(w, op).decoding
    case Prepare(op) => Finishing(w, op)
    case Commit(op, _) =>
      Finishing(w, op) && (HasRemote(w, op) && TenureOf(w, op).held ==> TenureOf(w, op).completion.Some?)
    case Local(op, _) =>
      Finishing(w, op) && w.guards[op].remote.None? && w.host.sessions[op.session].items[op.request].exchange.None?
    case GiveUp(op) => HasRemote(w, op)
    case Fail(op, _) =>
      && Guarded(w, op) && E.OnItem(w.host, op.session, op.request)
      && w.host.sessions[op.session].items[op.request].exchange.None?
      && (w.guards[op].remote.Some? ==> !w.guards[op].remote.value.held)
    case Conclude(op, p) => Guarded(w, op) && p.verdict.Ok? && !E.Running(w.host, op.session, op.request)
  }

  predicate Finishing(w: World, op: Op) {
    Guarded(w, op) && (w.guards[op].remote.Some? ==> HasRemote(w, op)) && E.Running(w.host, op.session, op.request)
  }

  // ---- Admission -----------------------------------------------------------

  /** The binding that a new exchange is begun on: an existing one, or a new one
      that is only published if the exchange begins. */
  function Begun(w: World, owner: E.SessionId, b: M.BindingId, created: Option<int>): Remote
    requires b in w.remotes || created.Some?
  {
    if created.Some? then Remote(owner, T.State(M.Fresh(b, w.host.now, created.value), map[]), false) else w.remotes[b]
  }

  function BegunAnswer(r: Remote, now: int, begun: Result<Option<M.Exchange>>): Result<()> {
    if r.cancelled || r.talk.context.expires <= now then Err(SessionInvalid)
    else if begun.Err? then Err(begun.error)
    else if begun.value.None? then Err(RequestConflict)
    else Ok(())
  }

  /** Whether the engine's own conditions let the conversation be asked. */
  predicate Reached(n: E.Next) {
    n.result.Ok?
  }

  ghost predicate Admits(w: World, e: Step, w': World)
    requires e.Admit? && Enabled(w, e)
  {
    var s, r, now := e.op.session, e.op.request, w.host.now;
    var before := Begun(w, s, e.binding, e.created);
    var answer := BegunAnswer(before, now, e.begun);
    && w'.host == E.PrepareRemote(w.host, s, r, e.created.Some?, answer).host
    && w'.recording == w.recording
    && if !Reached(E.PrepareRemote(w.host, s, r, e.created.Some?, Ok(()))) || before.cancelled || before.talk.context.expires <= now
       then w'.remotes == w.remotes && w'.guards == w.guards
       else exists talk: T.State :: NewTalk(w, e, w', before, talk)
  }

  /** The conversation has taken the request; what it answers is `e.begun`. */
  ghost predicate NewTalk(w: World, e: Step, w': World, before: Remote, talk: T.State)
    requires e.Admit? && Enabled(w, e)
  {
    && T.Taken(before.talk, T.Begin(e.request, e.op.request, e.valid, w.host.now, e.begun), talk)
    && if e.begun.Ok? && e.begun.value.Some? then
         && w'.remotes == w.remotes[e.binding := before.(talk := talk)]
         && w'.guards == w.guards[e.op := w.guards[e.op].(remote := Some(Tenure(e.begun.value.value, true, false, None)))]
       else
         && w'.guards == w.guards
         && w'.remotes == if e.created.Some? then w.remotes else w.remotes[e.binding := before.(talk := talk)]
  }

  // ---- Completion ----------------------------------------------------------

  /** What handing in answers, if there is anything to hand in. */
  function HandedIn(w: World, op: Op): Option<Handed> {
    if HasRemote(w, op) then Some(HandIn(RemoteOf(w, op), TenureOf(w, op), w.host.now)) else None
  }

  function AnswerOf(h: Option<Handed>): Result<()> {
    if h.Some? then h.value.answer else Ok(())
  }

  /** The commit gets as far as the conversation. */
  predicate Asked(w: World, op: Op)
    requires E.OnItem(w.host, op.session, op.request)
  {
    Reached(E.CommitCompletion(w.host, op.session, op.request, true, Ok(())))
  }

  /** The closing batch of a complete operation. */
  function ClosingBatch(w: World, op: Op): seq<O.Emitted>
    requires Guarded(w, op)
  {
    O.Finishing(w.guards[op].streams, true)
  }

  function WithHanded(w: World, op: Op, h: Handed): (map<M.BindingId, Remote>, Option<Tenure>)
    requires HasRemote(w, op)
  {
    (w.remotes[TenureOf(w, op).exchange.binding := h.remote], Some(h.tenure))
  }

  /** The recorder runs the whole commit, at most once; what it answers decides
      whether the closing batch is recorded. */
  ghost predicate Commits(w: World, e: Step, w': World)
    requires e.Commit? && Enabled(w, e) && L.Inv(w.recording.ledger)
  {
    var s, r := e.op.session, e.op.request;
    var g := w.guards[e.op];
    var answer := AnswerOf(HandedIn(w, e.op));
    var called := e.report.out.calls == 1;
    && e.op in w'.guards
    && e.report.verdict == E.CommitCompletion(w.host, s, r, true, answer).result
    && Observes(g.flow, g.streams, w.recording, ClosingBatch(w, e.op), e.report, w'.guards[e.op].streams, w'.recording)
    && w'.host == E.CommitCompletion(w.host, s, r, called, answer).host
    && var (remotes, tenure) := if called && Asked(w, e.op) && HasRemote(w, e.op) then WithHanded(w, e.op, HandedIn(w, e.op).value)
                                else (w.remotes, g.remote);
       && w'.remotes == remotes
       && w'.guards == w.guards[e.op := g.(streams := w'.guards[e.op].streams, remote := tenure)]
  }

  ghost predicate CompletesLocally(w: World, e: Step, w': World)
    requires e.Local? && Enabled(w, e) && L.Inv(w.recording.ledger)
  {
    var s, r := e.op.session, e.op.request;
    var g := w.guards[e.op];
    && e.op in w'.guards
    && e.report.verdict == E.CompleteLocal(w.host, s, r, true).result
    && Observes(g.flow, g.streams, w.recording, ClosingBatch(w, e.op), e.report, w'.guards[e.op].streams, w'.recording)
    && w'.host == E.CompleteLocal(w.host, s, r, e.report.out.calls == 1).host
    && w'.remotes == w.remotes
    && w'.guards == w.guards[e.op := g.(streams := w'.guards[e.op].streams)]
  }

  /** The check that precedes the commit. */
  ghost predicate Prepares(w: World, e: Step, w': World)
    requires e.Prepare? && Enabled(w, e)
  {
    var s, r := e.op.session, e.op.request;
    var looked := if HasRemote(w, e.op) then Looked(RemoteOf(w, e.op), TenureOf(w, e.op), w.host.now).1 else Ok(());
    && w'.host == E.PrepareCompletion(w.host, s, r, looked).host
    && w'.recording == w.recording && w'.guards == w.guards
    && w'.remotes == if HasRemote(w, e.op) && Reached(E.PrepareCompletion(w.host, s, r, Ok(())))
                     then w.remotes[TenureOf(w, e.op).exchange.binding := Looked(RemoteOf(w, e.op), TenureOf(w, e.op), w.host.now).0]
                     else w.remotes
  }

  // ---- The other steps -----------------------------------------------------

  /** Only the record and one guard's streams change. */
  ghost predicate OnlyObserves(w: World, op: Op, emitted: seq<O.Emitted>, p: Report, w': World)
    requires Guarded(w, op) && L.Inv(w.recording.ledger)
  {
    && op in w'.guards
    && Observes(w.guards[op].flow, w.guards[op].streams, w.recording, emitted, p, w'.guards[op].streams, w'.recording)
    && w' == w.(recording := w'.recording, guards := w.guards[op := w.guards[op].(streams := w'.guards[op].streams)])
  }

  ghost predicate Responds(w: World, e: Step, w': World)
    requires e.Respond? && Enabled(w, e)
  {
    var t, r := TenureOf(w, e.op), RemoteOf(w, e.op);
    var (c, answer) := M.StartResponse(r.talk.context, t.exchange, e.admitted, w.host.now);
    w' == w.(remotes := w.remotes[t.exchange.binding := With(r, c)],
             guards := w.guards[e.op := w.guards[e.op].(remote := Some(t.(decoding := t.decoding || answer.Ok?)))])
  }

  function ReadWhole(w: World, e: Step): World
    requires e.ReadOut? && Enabled(w, e)
  {
    var t := TenureOf(w, e.op);
    var completion := M.Completion(t.exchange.binding, t.exchange.serial, e.success, e.native);
    w.(guards := w.guards[e.op := w.guards[e.op].(remote := Some(t.(completion := Some(completion))))])
  }

  function GaveUp(w: World, e: Step): World
    requires e.GiveUp? && Enabled(w, e)
  {
    var t := TenureOf(w, e.op);
    w.(remotes := w.remotes[t.exchange.binding := GivenUp(RemoteOf(w, e.op), t, w.host.now)],
       guards := w.guards[e.op := w.guards[e.op].(remote := Some(t.(held := false, completion := None)))])
  }

  ghost predicate Taken(epoch: C.Epoch, w: World, e: Step, w': World)
    requires L.Inv(w.recording.ledger)
  {
    Enabled(w, e) &&
    match e
    case Host(inner) => w' == w.(host := E.Apply(w.host, inner).host)
    case Recording(step) => w' == w.(recording := w'.recording) && R.Taken(epoch, w.recording, step, w'.recording)
    case Guarding(op, origin, required) =>
      && R.Taken(epoch, w.recording, R.Open(origin, required), w'.recording)
      && w' == w.(recording := w'.recording, guards := w.guards[op := Guard(origin.flow, O.FRESH, None)])
    case Observing(op, emitted, p) => OnlyObserves(w, op, emitted, p, w')
    case Talk(b, said) =>
      && b in w'.remotes && T.Taken(w.remotes[b].talk, said, w'.remotes[b].talk)
      && w' == w.(remotes := w.remotes[b := w.remotes[b].(talk := w'.remotes[b].talk)])
    case Sever(b) => w' == w.(remotes := w.remotes[b := With(w.remotes[b], M.Invalidated(w.remotes[b].talk.context)).(cancelled := true)])
    case Admit(_, _, _, _, _, _) => Admits(w, e, w')
    case Respond(_, _) => Responds(w, e, w')
    case ReadOut(_, _, _) => w' == ReadWhole(w, e)
    case Prepare(_) => Prepares(w, e, w')
    case Commit(_, _) => Commits(w, e, w')
    case Local(_, _) => CompletesLocally(w, e, w')
    case GiveUp(_) => w' == GaveUp(w, e)
    case Fail(op, reason) => w' == w.(host := E.Settle(w.host, op.session, op.request, reason).host)
    case Conclude(op, p) => OnlyObserves(w, op, O.Finishing(w.guards[op].streams, false), p, w')
  }

  ghost predicate Takes(epoch: C.Epoch, w: World, e: Step, w': World) {
    L.Inv(w.recording.ledger) && Taken(epoch, w, e, w')
  }

  // ---- The three parts -----------------------------------------------------

  /** What the engine sees of a step. */
  function HostStep(w: World, e: Step): E.Step
    requires Enabled(w, e)
  {
    match e
    case Host(inner) => inner
    case Admit(op, b, created, _, _, begun) =>
      E.Remote(op.session, op.request, created.Some?, BegunAnswer(Begun(w, op.session, b, created), w.host.now, begun))
    case Prepare(op) =>
      E.Prepare(op.session, op.request, if HasRemote(w, op) then Looked(RemoteOf(w, op), TenureOf(w, op), w.host.now).1 else Ok(()))
    case Commit(op, p) => E.Commit(op.session, op.request, p.out.calls == 1, AnswerOf(HandedIn(w, op)))
    case Local(op, p) => E.Local(op.session, op.request, p.out.calls == 1)
    case Fail(op, reason) => E.Failing(op.session, op.request, reason)
    case _ => E.Tick(w.host.now)
  }

  /** What the flows and the recorder see of a step. */
  ghost function RecordingStep(w: World, e: Step): R.Step
    requires Enabled(w, e)
  {
    match e
    case Recording(step) => step
    case Guarding(_, origin, required) => R.Open(origin, required)
    case Observing(op, emitted, p) => BatchStep(w, op, emitted, p)
    case Commit(op, p) => BatchStep(w, op, ClosingBatch(w, op), p)
    case Local(op, p) => BatchStep(w, op, ClosingBatch(w, op), p)
    case Conclude(op, p) => BatchStep(w, op, O.Finishing(w.guards[op].streams, false), p)
    case _ => Nothing(w)
  }

  ghost function Nothing(w: World): R.Step {
    R.Consume(V.SetAvailable(w.recording.ledger.available))
  }

  ghost function BatchStep(w: World, op: Op, emitted: seq<O.Emitted>, p: Report): R.Step
    requires Guarded(w, op)
  {
    if O.Replay(w.guards[op].streams, emitted).None? then Nothing(w)
    else R.Emit(w.guards[op].flow, p.emissions, p.clock, p.verdict, p.out)
  }
}
