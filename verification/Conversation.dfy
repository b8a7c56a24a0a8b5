/** The remote conversation as an object that its owner drives. */
module Conversation {
  import opened Prelude
  import M = McpContext

  class Conversation {
    const binding: M.BindingId
    const expires: int
    const handshake: int
    var phase: M.Phase
    var fault: bool
    var native: Option<int>
    var next: nat
    var pending: map<nat, M.Pending>
    var flags: set<nat>

    function Model(): M.Context
      reads this
    {
      M.Context(binding, expires, handshake, phase, fault, native, next, pending, flags)
    }

    predicate Valid()
      reads this
    {
      M.Inv(Model())
    }

    constructor Start(binding: M.BindingId, now: int, expires: int)
      ensures Valid() && Model() == M.Fresh(binding, now, expires)
    {
      this.binding := binding;
      this.expires := Min(expires, now + M.LIFETIME);
      this.handshake := Min(expires, now + M.HANDSHAKE);
      phase, fault, native, next, pending, flags := M.New, false, None, 1, map[], {};
      new;
      M.FreshInv(binding, now, expires);
    }

    /** A conversation for a binding that has not expired. */
    static method New(binding: M.BindingId, now: int, expires: int) returns (r: Result<Conversation>)
      ensures r.Ok? <==> expires > now
      ensures r.Err? ==> r.error == SessionInvalid
      ensures r.Ok? ==> fresh(r.value) && r.value.Valid() && r.value.Model() == M.Fresh(binding, now, expires)
    {
      if expires <= now { return Err(SessionInvalid); }
      var conversation := new Conversation.Start(binding, now, expires);
      return Ok(conversation);
    }

    /** End the conversation, leaving nothing pending. */
    method Invalidate()
      requires Valid()
      modifies this
      ensures Valid() && Model() == M.Invalidated(old(Model()))
    {
      M.InvalidatedInv(Model());
      if phase != M.Closed { phase := M.Invalid; }
      fault := true;
      native := None;
      pending := map[];
    }

    /** End the conversation when its time is over. */
    method Expire(now: int)
      requires Valid()
      modifies this
      ensures Valid() && Model() == M.Expire(old(Model()), now)
    {
      hide M.Inv;
      if phase != M.Invalid && phase != M.Closed && (fault || now >= expires || (phase != M.Ready && now >= handshake)) {
        Invalidate();
      }
    }

    /** Admit one exchange. `valid` says that the operation id is canonical. */
    method Begin(request: M.Request, operation: M.OperationId, valid: bool, now: int) returns (r: Result<Option<M.Exchange>>)
      requires Valid() && M.Formed(request)
      modifies this
      ensures Valid()
      ensures M.BeginStep(old(Model()), request, operation, valid, now, Model(), r)
    {
      hide M.Inv, M.Clashes, M.Full, M.Admitted;
      Expire(now);
      ghost var e := Model();
      if !request.own || !valid { return Err(RequestInvalid); }
      if phase == M.Invalid || phase == M.Closed { return Err(SessionInvalid); }
      if !M.Admitted(Model(), request.kind) || M.Clashes(Model(), request, operation) { return Err(RequestConflict); }
      var target: Option<nat> := None;
      if request.kind == M.Cancel {
        if !exists s :: s in pending && M.StopTarget(Model(), request, s) { return Ok(None); }
        var s :| s in pending && M.StopTarget(Model(), request, s);
        target := Some(s);
      }
      if M.Full(Model(), request.kind) { return Err(LimitExceeded); }
      M.InsertedInv(e, request, operation, target);
      var serial := next;
      next := next + 1;
      if target.Some? { flags := flags + {target.value}; }
      var stopped := if target.Some? then Some(pending[target.value].operation) else None;
      var mapped := if target.Some? then target else if request.id.Some? then Some(serial) else None;
      if request.kind == M.Initialize { phase := M.Initializing; }
      pending := pending[serial := M.Pending(request.kind, request.id, operation, false)];
      assert Model() == M.Inserted(e, request, operation, target);
      return Ok(Some(M.Exchange(binding, serial, request.kind, mapped, stopped)));
    }

    /** Recheck an exchange. */
    method Check(x: M.Exchange, now: int) returns (r: Result<()>)
      requires Valid()
      modifies this
      ensures Valid() && (Model(), r) == M.Check(old(Model()), x, now)
    {
      hide M.Inv;
      if x.binding != binding { return Err(RequestConflict); }
      Expire(now);
      if phase == M.Invalid || phase == M.Closed { return Err(SessionInvalid); }
      if x.serial !in pending || x.serial in flags { return Err(RequestConflict); }
      return Ok(());
    }

    /** Accept a response for reading, once per exchange. */
    method StartResponse(x: M.Exchange, admitted: Result<()>, now: int) returns (r: Result<()>)
      requires Valid()
      modifies this
      ensures Valid() && (Model(), r) == M.StartResponse(old(Model()), x, admitted, now)
    {
      hide M.Inv;
      M.StartInv(Model(), x, admitted, now);
      r := Check(x, now);
      if r.Err? { return; }
      if pending[x.serial].started { return Err(RequestConflict); }
      if admitted.Err? {
        Invalidate();
        return admitted;
      }
      pending := pending[x.serial := pending[x.serial].(started := true)];
      return Ok(());
    }

    /** Commit an exchange whose response was read to its end. */
    method Complete(x: M.Exchange, completion: M.Completion, now: int) returns (r: Result<()>)
      requires Valid() && M.Owns(M.Expire(Model(), now), x)
      modifies this
      ensures Valid() && (Model(), r) == M.Complete(old(Model()), x, completion, now)
    {
      hide M.Inv;
      M.CompleteInv(Model(), x, completion, now);
      if x.binding != binding || completion.binding != binding || x.serial != completion.serial { return Err(RequestConflict); }
      r := Check(x, now);
      if r.Err? {
        pending := pending - {x.serial};
        return;
      }
      if !pending[x.serial].started { return Err(RequestConflict); }
      pending := pending - {x.serial};
      if x.kind == M.Initialize {
        if completion.success {
          native := completion.native;
          phase := M.AwaitingInitialized;
        } else {
          phase := if phase == M.Closed then M.Closed else M.Invalid;
          fault, native, pending := true, None, map[];
        }
      } else if x.kind == M.Initialized {
        phase := M.Ready;
      }
      return Ok(());
    }

    /** Give up an exchange. */
    method Abandon(x: M.Exchange)
      requires Valid()
      modifies this
      ensures Valid() && Model() == M.Abandon(old(Model()), x)
    {
      hide M.Inv;
      M.AbandonInv(Model(), x);
      if x.binding != binding || x.serial !in pending { return; }
      var kind := pending[x.serial].kind;
      pending, flags := pending - {x.serial}, flags + {x.serial};
      if kind == M.Initialize || kind == M.Initialized {
        phase := if phase == M.Closed then M.Closed else M.Invalid;
        fault, native, pending := true, None, map[];
      }
    }

    /** Mark a pending exchange cancelled; its serial, if the peer must be told. */
    method CancelSerial(s: nat) returns (told: Option<nat>)
      requires Valid() && s in pending && pending[s].kind != M.Initialize
      modifies this`flags
      ensures Valid() && (Model(), told) == M.CancelSerial(old(Model()), s)
    {
      hide M.Inv;
      M.CancelSerialInv(Model(), s);
      if pending[s].id.None? || s in flags { return None; }
      flags := flags + {s};
      return Some(s);
    }

    /** Stop the exchange that a cancellation names, if it is still pending. */
    method CancelRequest(request: M.Request, now: int) returns (r: Result<Option<nat>>)
      requires Valid()
      modifies this
      ensures Valid() && M.CancelRequestStep(old(Model()), request, now, Model(), r)
    {
      hide M.Inv;
      if request.kind != M.Cancel || !request.own { return Err(RequestInvalid); }
      Expire(now);
      if !exists s :: s in pending && M.Cancellable(Model(), s, request.target) { return Ok(None); }
      var s :| s in pending && M.Cancellable(Model(), s, request.target);
      var told := CancelSerial(s);
      return Ok(told);
    }

    /** Stop the exchange of a local operation; a handshake ends the conversation. */
    method CancelOperation(operation: M.OperationId, now: int) returns (told: Option<nat>)
      requires Valid()
      modifies this
      ensures Valid() && M.CancelOperationStep(old(Model()), operation, now, Model(), told)
    {
      hide M.Inv;
      Expire(now);
      if !exists s :: s in pending && pending[s].operation == operation { return None; }
      var s :| s in pending && pending[s].operation == operation;
      if pending[s].kind == M.Initialize || pending[s].kind == M.Initialized {
        Invalidate();
        return None;
      }
      told := CancelSerial(s);
    }

    /** Close for good; the native session, to be told once. */
    method Close(now: int) returns (native': Option<int>)
      requires Valid()
      modifies this
      ensures Valid() && Model() == M.Close(old(Model()), now)
      ensures native' == M.Expire(old(Model()), now).native
    {
      hide M.Inv;
      M.CloseInv(Model(), now);
      Expire(now);
      native' := native;
      Invalidate();
      phase := M.Closed;
    }
  }
}
