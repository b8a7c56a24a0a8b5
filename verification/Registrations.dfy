/** What registering a request, opening a session and dispatching promise the
    caller, over whole runs and on the fields of the host. */
module Registrations {
  import opened Prelude
  import opened Engine
  import opened EngineInvariant
  import opened EngineRuns

  // ---- One request for each id ---------------------------------------------

  predicate Registers(e: Step) {
    e.Register? || e.RegisterLogin? || e.RegisterStream?
  }

  /** The kind of registration `e` has its id in the session's map of that kind. */
  predicate Holding(c: Session, e: Step) {
    || (e.Register? && e.request in c.items)
    || (e.RegisterLogin? && e.request in c.issuances)
    || (e.RegisterStream? && e.request in c.streams)
  }

  function BodyHeld(c: Session, e: Step): Opaque
    requires Holding(c, e)
  {
    if e.Register? then c.items[e.request].request
    else if e.RegisterLogin? then c.issuances[e.request].request
    else c.streams[e.request].request
  }

  function SizeHeld(c: Session, e: Step): nat
    requires Holding(c, e)
  {
    if e.Register? then c.items[e.request].size
    else if e.RegisterLogin? then c.issuances[e.request].size
    else c.streams[e.request].size
  }

  predicate KnownAtAll(c: Session, r: RequestId) {
    r in c.items || r in c.issuances || r in c.streams
  }

  /** A registration that succeeds leaves its own request under its id: newly, if
      nothing was known by the id, and as it was, if the same request was. */
  lemma RegisteredIsOwn(h: Host, e: Step)
    requires Enabled(h, e) && Registers(e) && Apply(h, e).result.Ok?
    ensures var h' := Apply(h, e).host;
            && e.session in h'.sessions && Holding(h'.sessions[e.session], e)
            && BodyHeld(h'.sessions[e.session], e) == e.body
            && (KnownAtAll(h.sessions[e.session], e.request) ==> h' == h && Holding(h.sessions[e.session], e))
            && (!KnownAtAll(h.sessions[e.session], e.request) ==>
                  && SizeHeld(h'.sessions[e.session], e) == e.size
                  && h'.bytes == h.bytes + e.size && h'.sessions[e.session].bytes == h.sessions[e.session].bytes + e.size)
  {
    hide Authorized, Room;
  }

  /** An id that is taken, by another request or for another kind of operation, is
      refused as a conflict, and a refusal changes nothing. */
  lemma ConflictRefused(h: Host, e: Step)
    requires Enabled(h, e) && Registers(e)
    ensures Apply(h, e).result.Err? ==> Apply(h, e).host == h
    ensures var c := h.sessions[e.session];
            KnownAtAll(c, e.request) && (!Holding(c, e) || BodyHeld(c, e) != e.body) && OneNamespace(c) ==>
              || Apply(h, e).result == Err(RequestConflict)
              || (e.RegisterStream? && Apply(h, e).result == Err(SessionInvalid))
  {
    hide Authorized, Room;
  }

  /** The session has room for another operation of the given size. */
  predicate HasRoom(h: Host, c: Session, size: nat) {
    && |c.items| + |c.issuances| + |c.streams| < 4096
    && c.bytes + size <= 8 * 1024 * 1024 && h.bytes + size <= 64 * 1024 * 1024
  }

  /** A new id is registered exactly when there is room, the request's own fields
      are within their limits and, for a stream, the session is live and a slot granted. */
  lemma NewRegisteredExactly(h: Host, e: Step)
    requires Enabled(h, e) && Registers(e) && !KnownAtAll(h.sessions[e.session], e.request)
    ensures Apply(h, e).result.Ok? <==>
              && HasRoom(h, h.sessions[e.session], e.size)
              && (e.Register? ==> e.fits)
              && (e.RegisterStream? ==> e.granted.Ok? && Live(h, e.session))
    ensures Apply(h, e).result.Err? ==>
              Apply(h, e).result.error == (if e.RegisterStream? && !Live(h, e.session) then SessionInvalid
                                           else if e.RegisterStream? && e.granted.Err? then e.granted.error
                                           else LimitExceeded)
  {
  }

  /** The same request under the same id is found again in any live session. */
  lemma RepeatFound(h: Host, e: Step)
    requires Enabled(h, e) && Registers(e) && OneNamespace(h.sessions[e.session])
    requires Holding(h.sessions[e.session], e) && BodyHeld(h.sessions[e.session], e) == e.body
    requires e.RegisterStream? ==> Live(h, e.session)
    ensures Apply(h, e).result.Ok? && Apply(h, e).host == h
  {
    hide Room;
  }

  /** Over any run: while a session lives, one id stands for one request. Two
      registrations of an id that both succeed are of the same kind and have the
      same body. */
  lemma OneRequestEach(r: Run, j: nat, k: nat)
    requires IsRun(r) && j < k < |r.steps| && |r.states| == |r.steps| + 1 && StepAt(r, j) && StepAt(r, k)
    requires Registers(r.steps[j]) && Registers(r.steps[k])
    requires r.steps[j].session == r.steps[k].session && r.steps[j].request == r.steps[k].request
    requires Apply(r.states[j], r.steps[j]).result.Ok? && Apply(r.states[k], r.steps[k]).result.Ok?
    ensures r.steps[k].body == r.steps[j].body
    ensures (r.steps[j].Register? <==> r.steps[k].Register?) && (r.steps[j].RegisterLogin? <==> r.steps[k].RegisterLogin?)
  {
    hide IsRun, Apply, Inv, SessionGrows, SessionInv, Custody, Honest, Holding, BodyHeld;
    var a, b := r.steps[j], r.steps[k];
    RegisteredIsOwn(r.states[j], a);
    RegisteredIsOwn(r.states[k], b);
    BodyStays(r, j + 1, k + 1, a);
    RunInv(r, k + 1);
    SessionParts(r.states[k + 1], b.session);
    OneHolding(r.states[k + 1].sessions[b.session], a, b);
  }

  lemma OneHolding(c: Session, a: Step, b: Step)
    requires SessionInv(c) && Registers(a) && Registers(b) && a.request == b.request && Holding(c, a) && Holding(c, b)
    ensures BodyHeld(c, a) == BodyHeld(c, b)
    ensures (a.Register? <==> b.Register?) && (a.RegisterLogin? <==> b.RegisterLogin?)
  {
  }

  /** What is registered stays registered. */
  lemma BodyStays(r: Run, j: nat, k: nat, e: Step)
    requires IsRun(r) && j <= k < |r.states| == |r.steps| + 1 && Registers(e)
    requires e.session in r.states[j].sessions && e.session in r.states[k].sessions && Holding(r.states[j].sessions[e.session], e)
    ensures Holding(r.states[k].sessions[e.session], e)
    ensures BodyHeld(r.states[k].sessions[e.session], e) == BodyHeld(r.states[j].sessions[e.session], e)
  {
    hide IsRun;
    SidesAreFinal(r, j, k, e.session);
    if e.Register? { OutcomesAreFinal(r, j, k, e.session, e.request); }
  }

  // ---- Live sessions -------------------------------------------------------

  /** The broker is open, and the session neither revoked, cancelled nor expired. */
  predicate Live(h: Host, s: SessionId) {
    && !h.closed && s in h.sessions
    && !h.sessions[s].revoked && !h.sessions[s].cancelled && h.now < h.sessions[s].expires
  }

  /** A session was created once, for at most an hour, and expires when that is over. */
  lemma {:induction false} SessionCreated(r: Run, k: nat, s: SessionId) returns (j: nat)
    requires IsRun(r) && k < |r.states| && s in r.states[k].sessions
    ensures |r.states| == |r.steps| + 1 && j < k && r.steps[j].Create? && r.steps[j].session == s && !r.states[j].closed
    ensures 0 < r.steps[j].lifetime <= 3600 && r.steps[j].valid
    ensures r.states[k].sessions[s].expires == r.states[j].now + r.steps[j].lifetime
    decreases k
  {
    hide IsRun, Enabled, SidesGrow, OpSteps, BindingSteps;
    Length(r);
    RunShape(r, k - 1);
    if s in r.states[k - 1].sessions {
      j := SessionCreated(r, k - 1, s);
      SessionStep(r, k - 1, s);
    } else {
      j := k - 1;
      CreatedFor(r.states[j], r.steps[j], s);
    }
  }

  lemma CreatedFor(h: Host, e: Step, s: SessionId)
    requires Enabled(h, e) && HostGrows(h, Apply(h, e).host, e) && s !in h.sessions && s in Apply(h, e).host.sessions
    ensures e.Create? && e.session == s && !h.closed && 0 < e.lifetime <= 3600 && e.valid
    ensures Apply(h, e).host.sessions[s].expires == h.now + e.lifetime
  {
    hide SessionGrows;
  }

  /** Whatever is dispatched, completed or published for a session happens while
      the broker is open and before its lifetime, at most an hour, is over; and it
      is the session's own step. */
  lemma CommitsWhileLive(r: Run, k: nat, ev: Event) returns (j: nat)
    requires IsRun(r) && k < |r.steps| && |r.states| == |r.steps| + 1 && StepAt(r, k) && ev in EventsAt(r, k) && Commits(ev)
    ensures Live(r.states[k], ev.session)
    ensures j < k && r.steps[j].Create? && r.steps[j].session == ev.session
    ensures 0 < r.steps[j].lifetime <= 3600 && r.states[k].now < r.states[j].now + r.steps[j].lifetime
    ensures StepSession(r.steps[k]) == Some(ev.session)
  {
    hide IsRun;
    CommitsAuthorized(r.states[k], r.steps[k]);
    j := SessionCreated(r, k, ev.session);
    OwnEvents(r.states[k], r.steps[k], ev);
  }

  function StepSession(e: Step): Option<SessionId> {
    if e.Tick? || e.Retire? then None else Some(e.session)
  }

  lemma OwnEvents(h: Host, e: Step, ev: Event)
    requires Enabled(h, e) && ev in Apply(h, e).events && Commits(ev)
    ensures StepSession(e) == Some(ev.session)
  {
    if e.Dispatch? || e.Local? || e.Commit? || e.Publish? || e.Remote? {
      hide Authorized, Usable;
    } else {
      NoEvents(h, e);
    }
  }

  /** An operation is dispatched exactly when it is ready, not cancelled and its
      session live; a refusal changes nothing. */
  lemma DispatchedExactly(h: Host, s: SessionId, q: RequestId)
    requires Enabled(h, Dispatch(s, q))
    ensures var n, o := Apply(h, Dispatch(s, q)), h.sessions[s].items[q];
            && (n.result.Ok? <==> Live(h, s) && o.state == Ready && !o.cancelled)
            && (n.result.Ok? <==> Dispatched(s, q) in n.events)
            && (n.result.Ok? ==> n.host == With(h, s, WithItem(h.sessions[s], q, o.(state := Dispatching, dispatched := true))))
            && (n.result.Err? ==> n.host == h && n.events == [])
            && (n.result.Err? ==> n.result.error == if Live(h, s) then RequestConflict else SessionInvalid)
  {
  }

  /** At most 64 sessions at a time, and one more exactly while there are fewer. */
  lemma SessionsBounded(r: Run, k: nat)
    requires IsRun(r) && k < |r.states|
    ensures |r.states[k].sessions| <= 64
    ensures k < |r.steps| && r.steps[k].Create? ==>
              var e, h, h' := r.steps[k], r.states[k], r.states[k + 1];
              if !h.closed && 0 < e.lifetime <= 3600 && e.valid && |h.sessions| < 64
              then h'.sessions.Keys == h.sessions.Keys + {e.session} && Live(h', e.session)
              else h' == h
  {
    hide IsRun, SessionInv;
    Length(r);
    RunInv(r, k);
    if k < |r.steps| { RunShape(r, k); }
  }
}
