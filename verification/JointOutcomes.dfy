/** A conversation that is cut off completes nothing any more, for any operation. */
module JointOutcomes {
  import opened Prelude
  import opened Joint
  import opened JointInvariant
  import opened JointRuns
  import E = Engine
  import M = McpContext
  import T = McpRuns
  import L = Ledger
  import C = Consumers

  /** A binding that was severed stays, over and empty. */
  lemma SeveredForGood(r: Run, i: nat, k: nat, b: M.BindingId)
    requires IsRun(r) && i < k < |r.states| && i < |r.steps| && r.steps[i] == Sever(b)
    ensures |r.states| == |r.steps| + 1 && b in r.states[k].remotes
    ensures r.states[k].remotes[b].talk.context.phase in {M.Invalid, M.Closed}
    ensures r.states[k].remotes[b].talk.context.pending == map[] && r.states[k].remotes[b].talk.context.native.None?
  {
    hide *;
    RunStep(r, i);
    Severed(r.epoch, r.states[i], r.steps[i], r.states[i + 1], b);
    BindingsStay(r, i + 1, k, b);
    RunInv(r, k);
    OverStays(r.states[i + 1].remotes[b], r.states[k], b);
  }

  lemma Severed(epoch: C.Epoch, w: World, e: Step, w': World, b: M.BindingId)
    requires Takes(epoch, w, e, w') && e == Sever(b)
    ensures b in w'.remotes && M.Over(w'.remotes[b].talk.context.phase)
  {
    hide L.Inv;
  }

  lemma OverStays(before: Remote, w: World, b: M.BindingId)
    requires M.Over(before.talk.context.phase) && WorldInv(w) && b in w.remotes && Onward(before, w.remotes[b])
    ensures w.remotes[b].talk.context.phase in {M.Invalid, M.Closed}
    ensures w.remotes[b].talk.context.pending == map[] && w.remotes[b].talk.context.native.None?
  {
    hide *;
    LedgerFits(w);
    OverOnward(b, before, w.remotes[b]);
  }

  lemma OverOnward(b: M.BindingId, before: Remote, r: Remote)
    requires M.Over(before.talk.context.phase) && RemoteInv(b, r) && Onward(before, r)
    ensures r.talk.context.phase in {M.Invalid, M.Closed}
    ensures r.talk.context.pending == map[] && r.talk.context.native.None?
  {
    hide M.Numbered, M.Distinct, M.Within, M.Handshake;
  }

  /** So no operation whose exchange is on it is ever completed after that. */
  lemma NothingOnSevered(r: Run, i: nat, k: nat, op: Op)
    requires IsRun(r) && i < k < |r.steps| && |r.states| == |r.steps| + 1
    requires HasRemote(r.states[k], op) && r.steps[i] == Sever(TenureOf(r.states[k], op).exchange.binding)
    requires E.OnItem(r.states[k].host, op.session, op.request) && !IsCompleted(r.states[k], op)
    ensures !IsCompleted(r.states[k + 1], op)
  {
    hide *;
    SeveredForGood(r, i, k, TenureOf(r.states[k], op).exchange.binding);
    RunStep(r, k);
    CompletesExactly(r.epoch, r.states[k], r.steps[k], r.states[k + 1], op);
    NotPublished(r.states[k], r.steps[k], r.states[k + 1], op, TenureOf(r.states[k], op).exchange.binding);
  }

  lemma NotPublished(w: World, e: Step, w': World, op: Op, b: M.BindingId)
    requires L.Inv(w.recording.ledger) && HasRemote(w, op) && E.OnItem(w.host, op.session, op.request)
    requires b == TenureOf(w, op).exchange.binding && b in w.remotes && w.remotes[b].talk.context.phase in {M.Invalid, M.Closed}
    ensures !Completes(w, e, w', op)
  {
    hide L.Inv, Closed, PublishedPrivate;
  }

  // ---- One exchange --------------------------------------------------------

  /** The conversation can still be used at `now`. */
  predicate Usable(r: Remote, now: int) {
    var c := r.talk.context;
    && !r.cancelled && !c.fault && now < c.expires && (c.phase != M.Ready ==> now < c.handshake)
    && c.phase !in {M.Invalid, M.Closed}
  }

  /** The check before completion passes exactly while the conversation can be used
      and the exchange is held, pending and not cancelled; where its time is over
      the check ends the conversation and stops its users. */
  lemma LookedExactly(r: Remote, t: Tenure, now: int)
    ensures Looked(r, t, now).1.Ok? <==>
              && Usable(r, now) && t.held
              && t.exchange.serial in r.talk.context.pending && t.exchange.serial !in r.talk.context.flags
    ensures Usable(r, now) ==> Looked(r, t, now).0 == r
    ensures !Usable(r, now) ==> Looked(r, t, now).0.cancelled && Looked(r, t, now).0.talk.context.phase in {M.Invalid, M.Closed}
  {
  }

  /** An exchange is taken exactly if it is held, read to its end, pending, not
      cancelled and its response accepted, while the conversation can be used; then
      it is held and pending no more. One that is not held or not read out leaves the
      conversation alone, and a lost session is never reported as such. */
  lemma HandedInExactly(b: M.BindingId, r: Remote, t: Tenure, now: int)
    requires RemoteInv(b, r) && TenureInv(r, t)
    ensures HandIn(r, t, now).answer.Ok? <==>
              && Usable(r, now) && t.held && t.completion.Some?
              && t.exchange.serial in r.talk.context.pending && t.exchange.serial !in r.talk.context.flags
    ensures HandIn(r, t, now).answer.Ok? ==>
              !HandIn(r, t, now).tenure.held && t.exchange.serial !in HandIn(r, t, now).remote.talk.context.pending
    ensures !t.held || t.completion.None? ==>
              && HandIn(r, t, now).remote == r
              && HandIn(r, t, now).answer == Err(if r.cancelled || now >= r.talk.context.expires then ErrorCode.OutcomeUnknown else RequestConflict)
    ensures HandIn(r, t, now).answer != Err(SessionInvalid)
  {
    hide M.Numbered, M.Distinct, M.Within, M.Handshake;
  }

  /** An exchange that is given up is pending no more, and a handshake that is given
      up ends the conversation and stops its users. */
  lemma GivenUpExactly(b: M.BindingId, r: Remote, t: Tenure, now: int)
    requires RemoteInv(b, r) && TenureInv(r, t) && t.held && t.exchange.serial in r.talk.context.pending
    ensures t.exchange.serial !in GivenUp(r, t, now).talk.context.pending
    ensures r.talk.context.pending[t.exchange.serial].kind in {M.Initialize, M.Initialized} ==>
              GivenUp(r, t, now).cancelled && GivenUp(r, t, now).talk.context.phase in {M.Invalid, M.Closed}
  {
    hide M.Numbered, M.Distinct, M.Within, M.Handshake;
  }

  /** A conversation appears only with its first exchange begun, held by the guard
      that asked for it, for a session that had authority then, which owns it. */
  lemma AppearsWithExchange(epoch: C.Epoch, w: World, e: Step, w': World, b: M.BindingId)
    requires WorldInv(w) && Takes(epoch, w, e, w') && b !in w.remotes && b in w'.remotes
    ensures e.Admit? && e.binding == b && w'.remotes[b].owner == e.op.session && !w'.remotes[b].cancelled
    ensures E.Authorized(w.host, e.op.session)
    ensures e.begun.Ok? && e.begun.value.Some? && e.begun.value.value.serial in w'.remotes[b].talk.context.pending
    ensures e.op in w'.guards && w'.guards[e.op].remote == Some(Tenure(e.begun.value.value, true, false, None))
  {
    hide L.Inv, T.Taken, Observes, HandIn, Looked, E.Authorized, WorldInv;
    assert e.Admit?;
    var talk: T.State :| NewTalk(w, e, w', Begun(w, e.op.session, e.binding, e.created), talk);
    BeginsPending(Begun(w, e.op.session, e.binding, e.created).talk, e, w.host.now, talk);
  }

  lemma BeginsPending(s: T.State, e: Step, now: int, s': T.State)
    requires e.Admit? && e.begun.Ok? && e.begun.value.Some?
    requires T.Taken(s, T.Begin(e.request, e.op.request, e.valid, now, e.begun), s')
    ensures e.begun.value.value.serial in s'.context.pending
  {
    hide M.Clashes, M.Full, M.Admitted;
  }
}
