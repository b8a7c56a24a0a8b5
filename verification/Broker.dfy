/** The broker as an object: its methods change the registry, the operation
    maps, the budgets and the bindings in place, one critical section each. */
module Broker {
  import opened Prelude
  import opened Engine

  /** A session after revocation has finished: nothing of it can proceed. */
  function RevokedSession(c: Session): Session {
    c.(revoked := true, cancelled := true, items := CancelledItems(c.items), issuances := CancelledLogins(c.issuances),
       contexts := ClearedContexts(c.contexts), streams := EndedStreams(c.streams))
  }

  function CancelledItems(m: map<RequestId, Operation>): map<RequestId, Operation> {
    map r | r in m :: CancelledOp(m[r])
  }

  function CancelledLogin(i: Issuance): Issuance {
    if Terminal(i.state) then i else i.(state := Cancelled, cancelled := true)
  }

  function CancelledLogins(m: map<RequestId, Issuance>): map<RequestId, Issuance> {
    map r | r in m :: CancelledLogin(m[r])
  }

  function ClearedContexts(m: map<ContextId, Binding>): map<ContextId, Binding> {
    map b | b in m :: Cleared(m[b], Revoked)
  }

  function EndedStreams(m: map<RequestId, Attachment>): map<RequestId, Attachment> {
    map r | r in m :: m[r].(ended := true)
  }

  class Broker {
    var closed: bool
    var bytes: nat
    var now: int
    var sessions: map<SessionId, Session>

    function Model(): Host
      reads this
    {
      Host(closed, bytes, now, sessions)
    }

    constructor (now: int)
      ensures Model() == Host(false, 0, now, map[])
    {
      closed, bytes, this.now, sessions := false, 0, now, map[];
    }

    predicate Check(s: SessionId)
      reads this
    {
      Authorized(Model(), s)
    }

    /** `id` is the random identity of the new session. */
    method Create(id: SessionId, lifetime: int, valid: bool) returns (r: Result<()>)
      requires id !in sessions
      modifies this
      ensures Model() == CreateSession(old(Model()), id, lifetime, valid).host
      ensures r == CreateSession(old(Model()), id, lifetime, valid).result
    {
      if closed { return Err(SessionInvalid); }
      if lifetime <= 0 || lifetime > MAX_LIFETIME || !valid { return Err(RequestInvalid); }
      if |sessions| >= MAX_SESSIONS { return Err(LimitExceeded); }
      sessions := sessions[id := Session(now + lifetime, false, false, map[], map[], map[], 0, map[], 0)];
      return Ok(());
    }

    method CloseAdmission()
      modifies this`closed
      ensures closed
    {
      closed := true;
    }

    /** Retire one session, then walk everything it owns. */
    method Revoke(s: SessionId)
      requires s in sessions
      modifies this`sessions
      ensures sessions == old(sessions)[s := RevokedSession(old(sessions[s]))]
    {
      ghost var was := sessions[s];
      sessions := sessions[s := sessions[s].(revoked := true)];
      sessions := sessions[s := sessions[s].(cancelled := true)];
      var c := sessions[s];
      var items := CancelItems(c.items);
      var logins := CancelLogins(c.issuances);
      var contexts := ClearContexts(c.contexts);
      var streams := EndStreams(c.streams);
      sessions := sessions[s := c.(items := items, issuances := logins, contexts := contexts, streams := streams)];
    }

    static method CancelItems(m: map<RequestId, Operation>) returns (out: map<RequestId, Operation>)
      ensures out == CancelledItems(m)
    {
      out := m;
      var pending := m.Keys;
      while pending != {}
        invariant pending <= m.Keys && out.Keys == m.Keys
        invariant forall r :: r in m ==> out[r] == if r in pending then m[r] else CancelledOp(m[r])
      {
        var r :| r in pending;
        var o := out[r];
        if !Terminal(o.state) {
          var next := if o.state == Dispatching then Uncertain else Cancelled;
          out := out[r := o.(state := next, cancelled := true)];
        }
        pending := pending - {r};
      }
    }

    static method CancelLogins(m: map<RequestId, Issuance>) returns (out: map<RequestId, Issuance>)
      ensures out == CancelledLogins(m)
    {
      out := m;
      var pending := m.Keys;
      while pending != {}
        invariant pending <= m.Keys && out.Keys == m.Keys
        invariant forall r :: r in m ==> out[r] == if r in pending then m[r] else CancelledLogin(m[r])
      {
        var r :| r in pending;
        if !Terminal(out[r].state) { out := out[r := out[r].(state := Cancelled, cancelled := true)]; }
        pending := pending - {r};
      }
    }

    static method ClearContexts(m: map<ContextId, Binding>) returns (out: map<ContextId, Binding>)
      ensures out == ClearedContexts(m)
    {
      out := m;
      var pending := m.Keys;
      while pending != {}
        invariant pending <= m.Keys && out.Keys == m.Keys
        invariant forall b :: b in m ==> out[b] == if b in pending then m[b] else Cleared(m[b], Revoked)
      {
        var b :| b in pending;
        out := out[b := out[b].(status := Revoked, cancelled := true, custody := None)];
        pending := pending - {b};
      }
    }

    static method EndStreams(m: map<RequestId, Attachment>) returns (out: map<RequestId, Attachment>)
      ensures out == EndedStreams(m)
    {
      out := m;
      var pending := m.Keys;
      while pending != {}
        invariant pending <= m.Keys && out.Keys == m.Keys
        invariant forall r :: r in m ==> out[r] == if r in pending then m[r] else m[r].(ended := true)
      {
        var r :| r in pending;
        out := out[r := out[r].(ended := true)];
        pending := pending - {r};
      }
    }

    /** Stop admission, wake every live session, then revoke each of them. */
    method Close()
      modifies this`closed, this`sessions
      ensures closed && sessions.Keys == old(sessions).Keys
      ensures forall s :: s in sessions ==> sessions[s] == RevokedSession(old(sessions[s]))
    {
      closed := true;
      var live := sessions.Keys;
      var waking := live;
      while waking != {}
        invariant closed && waking <= live && sessions.Keys == live
        invariant forall s :: s in live ==> sessions[s] == if s in waking then old(sessions[s]) else old(sessions[s]).(cancelled := true)
      {
        var s :| s in waking;
        sessions := sessions[s := sessions[s].(cancelled := true)];
        waking := waking - {s};
      }
      var pending := live;
      while pending != {}
        invariant closed && pending <= live && sessions.Keys == live
        invariant forall s :: s in live ==>
                    sessions[s] == if s in pending then old(sessions[s]).(cancelled := true) else RevokedSession(old(sessions[s]))
      {
        var s :| s in pending;
        Revoke(s);
        pending := pending - {s};
      }
    }

    /** Reserve a request id and its budget; an equal request is found again. */
    method TrackOperation(s: SessionId, r: RequestId, body: Opaque, size: nat, fits: bool) returns (result: Result<bool>)
      requires s in sessions
      modifies this`bytes, this`sessions
      ensures Model() == Track(old(Model()), s, r, body, size, fits).host
      ensures result.Err? <==> Track(old(Model()), s, r, body, size, fits).result.Err?
      ensures result.Err? ==> result.error == Track(old(Model()), s, r, body, size, fits).result.error
      ensures result.Ok? ==> (result.value <==> r in old(sessions[s].items))
    {
      var c := sessions[s];
      if r in c.issuances || r in c.streams { return Err(RequestConflict); }
      if r in c.items {
        if c.items[r].request != body { return Err(RequestConflict); }
        return Ok(true);
      }
      if !fits { return Err(LimitExceeded); }
      if |c.items| + |c.issuances| + |c.streams| >= MAX_OPERATIONS || c.bytes + size > SESSION_BYTES { return Err(LimitExceeded); }
      if bytes + size > HOST_BYTES { return Err(LimitExceeded); }
      bytes := bytes + size;
      c := c.(bytes := c.bytes + size);
      c := c.(items := c.items[r := Operation(body, size, Received, false, false, false, None)]);
      sessions := sessions[s := c];
      return Ok(false);
    }

    /** Put back a changed operation. */
    method SetItem(s: SessionId, r: RequestId, o: Operation)
      requires s in sessions
      modifies this`sessions
      ensures sessions == old(sessions)[s := WithItem(old(sessions[s]), r, o)]
    {
      sessions := sessions[s := sessions[s].(items := sessions[s].items[r := o])];
    }

    /** Cancel one operation; dispatched work is left to its guard. */
    method CancelOperation(s: SessionId, r: RequestId)
      requires s in sessions && r in sessions[s].items
      modifies this`sessions
      ensures Model() == Cancel(old(Model()), s, r).host
    {
      var o := sessions[s].items[r];
      if !Terminal(o.state) {
        o := o.(state := if o.state == Dispatching then Uncertain else Cancelled);
        o := o.(cancelled := true);
      }
      SetItem(s, r, o);
    }

    /** Move an operation on, unless it is cancelled or over. */
    method Transition(s: SessionId, r: RequestId, next: OpState) returns (result: Result<()>)
      requires s in sessions && r in sessions[s].items
      modifies this`sessions
      ensures Model() == Advance(old(Model()), s, r, next).host && result == Advance(old(Model()), s, r, next).result
    {
      var o := sessions[s].items[r];
      if Terminal(o.state) { return Err(RequestConflict); }
      SetItem(s, r, o.(state := next));
      return Ok(());
    }

    /** Commit to the dispatch, under authority. */
    method DispatchOperation(s: SessionId, r: RequestId) returns (result: Result<()>)
      requires s in sessions && r in sessions[s].items
      modifies this`sessions
      ensures Model() == CancelRefused(BeginDispatch(old(Model()), s, r), s, r).host
      ensures result == BeginDispatch(old(Model()), s, r).result
    {
      var o := sessions[s].items[r];
      if !Check(s) {
        CancelOperation(s, r);
        return Err(SessionInvalid);
      }
      if o.state != Ready || o.cancelled { return Err(RequestConflict); }
      o := o.(state := Dispatching);
      SetItem(s, r, o.(dispatched := true));
      return Ok(());
    }

    /** The closing commit, run by the recorder while `recorded`. */
    method Complete(s: SessionId, r: RequestId, recorded: bool, remote: Result<()>) returns (result: Result<()>)
      requires s in sessions && r in sessions[s].items
      modifies this`sessions
      ensures Model() == CommitCompletion(old(Model()), s, r, recorded, remote).host
      ensures result == CommitCompletion(old(Model()), s, r, recorded, remote).result
    {
      var c := sessions[s];
      var o := c.items[r];
      result := Verdict(s, r, recorded, remote);
      if result.Err? {
        SetItem(s, r, WithoutStage(o));
        return;
      }
      if o.exchange.Some? {
        var x := o.exchange.value;
        var b := c.contexts[x.context];
        b := b.(custody := x.staged);
        b := b.(status := x.status);
        c := c.(contexts := c.contexts[x.context := b]);
      }
      o := o.(state := Completed);
      o := o.(closed := true, exchange := None);
      sessions := sessions[s := c.(items := c.items[r := o])];
    }

    method Verdict(s: SessionId, r: RequestId, recorded: bool, remote: Result<()>) returns (result: Result<()>)
      requires s in sessions && r in sessions[s].items
      ensures result == CommitCompletion(Model(), s, r, recorded, remote).result
    {
      var c := sessions[s];
      var o := c.items[r];
      if !recorded { return Err(ObservationUnavailable); }
      if !Check(s) || o.cancelled || o.state != Dispatching { return Err(ErrorCode.OutcomeUnknown); }
      if o.exchange.Some? {
        var x := o.exchange.value;
        if x.context !in c.contexts || !Usable(c.contexts[x.context], now) || x.staged.None? { return Err(ErrorCode.OutcomeUnknown); }
      }
      if remote.Err? { return Err(remote.error); }
      return Ok(());
    }

    /** A guard fails: its exchange is dropped and its binding revoked, and then
        its operation is settled. */
    method FailGuard(s: SessionId, r: RequestId, reason: ErrorCode)
      requires s in sessions && r in sessions[s].items
      modifies this`sessions
      ensures Model() == Fail(old(Model()), s, r, reason).host
    {
      var o := sessions[s].items[r];
      if o.closed { return; }
      DropExchange(s, r);
      var failed := FailedGuard(sessions[s].items[r], reason);
      SetItem(s, r, failed);
    }

    method DropExchange(s: SessionId, r: RequestId)
      requires s in sessions && r in sessions[s].items
      modifies this`sessions
      ensures Model() == Relinquish(old(Model()), s, r).host
    {
      var c := sessions[s];
      var o := c.items[r];
      if o.closed || o.exchange.None? { return; }
      var b := o.exchange.value.context;
      var contexts := c.contexts;
      if b in contexts { contexts := contexts[b := Cleared(contexts[b], Revoked)]; }
      sessions := sessions[s := c.(items := c.items[r := o.(exchange := None)], contexts := contexts)];
    }

    static method FailedGuard(o: Operation, reason: ErrorCode) returns (failed: Operation)
      ensures failed == FailedOp(o, reason)
    {
      failed := o;
      var state := if o.dispatched then Uncertain else if reason == PolicyDenied then Denied else Failed;
      if !Terminal(o.state) { failed := failed.(state := state); }
      failed := failed.(cancelled := true);
      failed := failed.(closed := true);
    }

    /** A guard is dropped before it finished. */
    method DropUnfinished(s: SessionId, r: RequestId)
      requires s in sessions && r in sessions[s].items
      modifies this`sessions
      ensures Model() == DropGuard(old(Model()), s, r).host
    {
      var o := sessions[s].items[r];
      if !o.closed {
        CancelOperation(s, r);
        FailGuard(s, r, if o.dispatched then ErrorCode.OutcomeUnknown else RequestConflict);
      }
    }
  }
}
