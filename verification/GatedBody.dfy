/** A response body that is released only behind its own sanitized observation. */
module GatedBody {
  import opened Prelude
  import opened Events
  import opened Scanning
  import opened Placeholders
  import opened Observation

  /** What polling one asynchronous check yields. */
  datatype Check = Waiting | Refused(reason: ErrorCode) | Granted

  /** What polling the upstream body yields. */
  datatype Upstream = NotYet | Data(bytes: Bytes) | Trailers | Broken(error: ErrorCode) | Ended

  /** One turn of the polling loop, as its surroundings decide it: whether the
      operation was cancelled, what each check yields, what the flow answers to
      each chunk, to the completion and to a failure's closing batch. */
  datatype Turn = Turn(cancelled: bool, delivery: Check, completion: Check,
                       answers: nat -> Result<()>, completed: Result<()>, closed: Result<()>)

  datatype Polled = Pending | Frame(bytes: Bytes) | OtherFrame | Failed(reason: ErrorCode) | Finished

  const TURNS: nat := 16

  /** The bytes that one upstream poll brings, */
  function Arrived(u: Upstream): Bytes {
    if u.Data? then u.bytes else []
  }

  /** and the first `n` polls together. */
  function Yielded(upstream: nat -> Upstream, n: nat): Bytes {
    if n == 0 then [] else Yielded(upstream, n - 1) + Arrived(upstream(n - 1))
  }

  /** The `n`th poll is the first to find the body's end. */
  predicate EndsAt(upstream: nat -> Upstream, n: nat) {
    n > 0 && upstream(n - 1) == Ended && forall k: nat :: k < n - 1 ==> upstream(k) != Ended
  }

  /** What a caller of the body can tell: what was delivered, whether it is over,
      and how often the upstream body was polled. */
  datatype Seen = Seen(delivered: Bytes, finished: bool, polls: nat)

  function FrameBytes(p: Polled): Bytes {
    if p.Frame? then p.bytes else []
  }

  /** One call: what it returns is what it delivers; the end of a body that was
      still open means that everything up to the upstream's end was delivered. */
  predicate PollStep(upstream: nat -> Upstream, a: Seen, p: Polled, b: Seen) {
    && b.delivered == a.delivered + FrameBytes(p)
    && a.polls <= b.polls
    && (a.finished ==> p == Finished && b == a)
    && (b.finished <==> a.finished || p.Finished? || p.Failed?)
    && (p.Finished? && !a.finished ==> b.delivered == Yielded(upstream, b.polls) && EndsAt(upstream, b.polls))
  }

  /** Where the body is: past the upstream's end, past the last release, and with
      which checks still to pass. */
  datatype Position = Position(eof: bool, ended: bool, deliveryCheck: bool, completionCheck: bool, polls: nat)

  /** A turn past the upstream's end: what is left is released first; only then,
      and only when the completion's check has passed and the completion itself
      succeeds, does the body end. */
  predicate EndsAs(turn: Turn, checked: bool, released: bool, p: Polled) {
    if !released && (p.Frame? || p.Failed?) then p.Frame? ==> p.bytes != []
    else if checked && turn.completion.Waiting? then p == Pending
    else if checked && turn.completion.Refused? then p == Failed(turn.completion.reason)
    else p == if turn.completed.Err? then Failed(turn.completed.error) else Finished
  }

  /** A turn before it: one upstream poll. A body recorded elsewhere is passed on
      as it is; otherwise data may be held back, and nothing but data may pass. */
  predicate AdvancesAs(u: Upstream, recordedElsewhere: bool, p: Option<Polled>) {
    match u
    case NotYet => p == Some(Pending)
    case Ended => p == None
    case Broken(error) => p == Some(Failed(error))
    case Trailers => p == Some(if recordedElsewhere then OtherFrame else Failed(InspectionUnavailable))
    case Data(bytes) =>
      if recordedElsewhere then p == Some(Frame(bytes))
      else p == None || p.value.Failed? || (p.value.Frame? && p.value.bytes != [])
  }

  /** A cancelled turn fails; a turn before the delivery's check has passed waits or
      fails with it; no other turn does anything else. */
  predicate TurnsAs(upstream: nat -> Upstream, turn: Turn, recordedElsewhere: bool, at: Position, p: Option<Polled>) {
    if turn.cancelled then p == Some(Failed(OutcomeUnknown))
    else if at.deliveryCheck && turn.delivery.Waiting? then p == Some(Pending)
    else if at.deliveryCheck && turn.delivery.Refused? then p == Some(Failed(turn.delivery.reason))
    else if at.eof then p.Some? && EndsAs(turn, at.completionCheck, recordedElsewhere || at.ended, p.value)
    else AdvancesAs(upstream(at.polls), recordedElsewhere, p)
  }

  predicate LetsDeliver(turn: Turn) {
    !turn.cancelled && turn.delivery.Granted?
  }

  /** Turn `k` is one of the sixteen, not cancelled, and the delivery's check, if
      there was one, has passed by then. */
  predicate LetThrough(turns: nat -> Turn, checked: bool, k: int) {
    && 0 <= k < TURNS && !turns(k).cancelled
    && (checked ==> exists j :: 0 <= j <= k && LetsDeliver(turns(j)))
  }

  predicate LetFinish(turn: Turn, checked: bool) {
    (checked ==> turn.completion.Granted?) && turn.completed.Ok?
  }

  /** Both inbound views hold the sanitized form of `tokens`, at least. */
  ghost predicate Covers(start: seq<Emitted>, log: seq<Emitted>, tokens: seq<Token>) {
    forall v :: Contents(start, Slot(Inbound, v)) + Emit(tokens) <= Contents(log, Slot(Inbound, v))
  }

  /** Both inbound views hold exactly the sanitized form of `tokens`. */
  ghost predicate Exactly(start: seq<Emitted>, log: seq<Emitted>, tokens: seq<Token>) {
    forall v :: Contents(log, Slot(Inbound, v)) == Contents(start, Slot(Inbound, v)) + Emit(tokens)
  }

  /** What every continuation of `received` decides before `pending`. */
  ghost predicate SoFar(received: Bytes, tokens: seq<Token>, pending: Bytes) {
    DecidedSoFar(Recognizer(), received, tokens, pending)
  }

  lemma NothingRecognized()
    ensures SoFar([], [], [])
  {
    hide Recognized;
    RecognizerBounded();
    NothingDecided(Recognizer());
  }

  lemma MoreRecognized(received: Bytes, tokens: seq<Token>, pending: Bytes, chunk: Bytes, end: bool)
    requires SoFar(received, tokens, pending)
    ensures var d := Decided(Recognizer(), MAX_ENCODED, pending + chunk, end);
            && (!end ==> SoFar(received + chunk, tokens + d.0, d.1))
            && (end ==> d.1 == [] && Scan(Recognizer(), received + chunk) == tokens + d.0)
  {
    hide Recognized, DecidedSoFar;
    RecognizerBounded();
    DecidedMore(Recognizer(), MAX_ENCODED, received, tokens, pending, chunk, end);
  }

  class GatedBody {
    const observed: Observed
    const observer: PlaceholderRedactor
    const recordedElsewhere: bool
    const upstream: nat -> Upstream
    var unobserved: Bytes
    var eof: bool
    var ended: bool
    var finished: bool
    var deliveryCheck: bool
    var completionCheck: bool
    var polls: nat
    ghost var start: seq<Emitted>
    ghost var received: Bytes
    ghost var delivered: Bytes
    ghost var decided: seq<Token>

    /** Everything delivered was observed, sanitized, in both views. */
    ghost predicate Gated()
      reads this, observed
    {
      && observed.Valid()
      && (!recordedElsewhere ==>
            delivered == Source(decided) && Covers(start, observed.log, decided))
    }

    /** While the body is open, every received byte is delivered or retained. */
    ghost predicate Open()
      reads this, observed, observer
    {
      && received == delivered + unobserved
      && unobserved == observer.pending && |unobserved| < MAX_ENCODED
      && observer.done == ended
      && (ended ==> unobserved == [] && Scan(Recognizer(), received) == decided)
      && (!ended ==> SoFar(received, decided, unobserved))
      && Exactly(start, observed.log, decided)
    }

    ghost predicate Valid()
      reads this, observed, observer
    {
      && Gated() && (!recordedElsewhere && !finished ==> Open()) && (ended ==> eof)
      && received == Yielded(upstream, polls)
      && (recordedElsewhere && !finished ==> delivered == received)
      && (!finished ==> if eof then EndsAt(upstream, polls) else forall k: nat :: k < polls ==> upstream(k) != Ended)
    }

    ghost function View(): Seen
      reads this
    {
      Seen(delivered, finished, polls)
    }

    /** Everything received was delivered, and both views hold exactly the
        one-shot redaction of it. */
    ghost predicate Whole()
      reads this, observed
    {
      && delivered == received
      && forall v :: Contents(observed.log, Slot(Inbound, v)) == Contents(start, Slot(Inbound, v)) + Emit(Scan(Recognizer(), received))
    }

    constructor (observed: Observed, recordedElsewhere: bool, upstream: nat -> Upstream, deliveryCheck: bool, completionCheck: bool)
      requires observed.Valid()
      ensures Valid() && this.observed == observed && this.recordedElsewhere == recordedElsewhere && this.upstream == upstream
      ensures !eof && View() == Seen([], false, 0) && start == observed.log
    {
      this.observed, this.recordedElsewhere, this.upstream := observed, recordedElsewhere, upstream;
      polls := 0;
      this.deliveryCheck, this.completionCheck := deliveryCheck, completionCheck;
      observer := new PlaceholderRedactor();
      unobserved, eof, ended, finished := [], false, false, false;
      start, received, delivered, decided := observed.log, [], [], [];
      new;
      EmitNone();
      NothingRecognized();
      forall v ensures Contents(start, Slot(Inbound, v)) + [] == Contents(start, Slot(Inbound, v)) {}
    }

    /** Observe some received bytes and release the decided prefix; `None` when
        nothing is decided. On an error nothing is released. */
    method Observe(bytes: Bytes, end: bool, answers: nat -> Result<()>) returns (r: Result<Option<Bytes>>)
      requires Gated() && Open() && !recordedElsewhere && !finished && !ended
      modifies this`unobserved, this`received, this`delivered, this`decided, this`ended, observer, observed
      ensures Gated()
      ensures received == old(received) + bytes
      ensures r.Ok? ==> Open() && ended == end
      ensures r.Ok? ==> delivered == old(delivered) + (if r.value.Some? then r.value.value else [])
      ensures r.Ok? && r.value.Some? ==> r.value.value != []
      ensures r.Err? ==> delivered == old(delivered)
      ensures r.Err? || end ==> ended == end || ended == old(ended)
    {
      hide Scan, Decided, Source, Emit, Contents, SoFar, Recognized, Replay, Covers, Exactly, Fed;
      received, unobserved := received + bytes, unobserved + bytes;
      ghost var d := Decided(Recognizer(), MAX_ENCODED, observer.pending + bytes, end);
      MoreRecognized(old(received), decided, observer.pending, bytes, end);
      var fed := observer.Feed(bytes, end);
      if fed.Err? { return Err(fed.error); }
      var (safe, consumed) := fed.value;
      if consumed > |unobserved| { return Err(ObservationUnavailable); }
      ghost var before := observed.log;
      var recorded := observed.ContentViews(Inbound, [Agent, Upstream], safe, answers);
      GateHolds(start, decided, before, observed.log, d.0, safe, recorded.Ok?);
      if recorded.Err? { return Err(recorded.error); }
      var released := unobserved[..consumed];
      ReleasedPart(unobserved, d.0, d.1, consumed);
      SourceJoin(decided, d.0);
      JoinAssociates(delivered, released, unobserved[consumed..]);
      JoinAssociates(old(delivered), old(unobserved), bytes);
      delivered, decided, unobserved, ended := delivered + released, decided + d.0, unobserved[consumed..], end;
      return Ok(if consumed != 0 then Some(released) else None);
    }

    /** Close the observation as failed, whatever the flow answers. */
    method Fail(closed: Result<()>)
      requires Gated() && !finished
      modifies this`finished, observed
      ensures Gated() && finished
      ensures observed.log == old(observed.log) + (if closed.Ok? then Finishing(old(observed.states), false) else [])
    {
      hide Contents, Emit, Source, Finishing, Replay;
      var _ := observed.Finish(false, closed);
      finished := true;
    }

    /** Close the observation as complete, together with the operation. */
    method Complete(completed: Result<()>) returns (r: Result<()>)
      requires Valid() && !finished && eof && (!recordedElsewhere ==> ended)
      modifies this`finished, observed
      ensures Valid() && r == completed && finished == r.Ok?
      ensures r.Ok? && !recordedElsewhere ==> Whole()
      ensures observed.log == old(observed.log) + (if completed.Ok? then Finishing(old(observed.states), true) else [])
    {
      hide Contents, Emit, Source, Finishing, Replay, Scan, SoFar;
      r := observed.Finish(true, completed);
      finished := r.Ok?;
    }

    /** The upstream body has ended: release the rest, then complete. */
    method AtEnd(turn: Turn) returns (p: Option<Polled>)
      requires Valid() && !finished && eof
      modifies this, observer, observed
      ensures Valid() && p.Some? && PollStep(upstream, old(View()), p.value, View())
      ensures p == Some(Finished) && !recordedElsewhere ==> Whole()
      ensures EndsAs(turn, old(completionCheck), old(recordedElsewhere || ended), p.value)
      ensures deliveryCheck == old(deliveryCheck) && (!finished ==> completionCheck == old(completionCheck))
    {
      hide Contents, Emit, Source, Replay, Scan, SoFar, Covers, Exactly, EndsAt, Yielded, Finishing;
      assert delivered + [] == delivered && received + [] == received;
      if !recordedElsewhere && !ended {
        var r := Observe([], true, turn.answers);
        if r.Err? {
          Fail(turn.closed);
          return Some(Failed(r.error));
        }
        if r.value.Some? { return Some(Frame(r.value.value)); }
      }
      if completionCheck {
        match turn.completion {
          case Waiting => return Some(Pending);
          case Refused(reason) => Fail(turn.closed); return Some(Failed(reason));
          case Granted => completionCheck := false;
        }
      }
      var done := Complete(turn.completed);
      if done.Err? {
        Fail(turn.closed);
        return Some(Failed(done.error));
      }
      return Some(Finished);
    }

    /** Take what the upstream body yields. */
    method Advance(turn: Turn) returns (p: Option<Polled>)
      requires Valid() && !finished && !eof
      modifies this, observer, observed
      ensures Valid() && PollStep(upstream, old(View()), if p.Some? then p.value else Pending, View())
      ensures AdvancesAs(upstream(old(polls)), recordedElsewhere, p)
      ensures deliveryCheck == old(deliveryCheck) && completionCheck == old(completionCheck)
    {
      hide Contents, Emit, Source, Replay, Scan, SoFar, Covers, Exactly, Yielded;
      assert delivered + [] == delivered && received + [] == received;
      NextPoll(upstream, polls);
      var polled := Poll();
      match polled {
        case NotYet => return Some(Pending);
        case Data(bytes) =>
          if recordedElsewhere {
            received, delivered := received + bytes, delivered + bytes;
            return Some(Frame(bytes));
          }
          var r := Observe(bytes, false, turn.answers);
          if r.Err? {
            Fail(turn.closed);
            return Some(Failed(r.error));
          }
          return if r.value.Some? then Some(Frame(r.value.value)) else None;
        case Trailers =>
          if recordedElsewhere { return Some(OtherFrame); }
          Fail(turn.closed);
          return Some(Failed(InspectionUnavailable));
        case Broken(error) =>
          Fail(turn.closed);
          return Some(Failed(error));
        case Ended =>
          eof := true;
          return None;
      }
    }

    /** Poll the upstream body once. */
    method Poll() returns (u: Upstream)
      modifies this`polls
      ensures polls == old(polls) + 1 && u == upstream(old(polls))
    {
      u := upstream(polls);
      polls := polls + 1;
    }

    /** Poll for the next frame, at most sixteen turns. */
    method PollFrame(turns: nat -> Turn) returns (p: Polled)
      requires Valid()
      modifies this, observer, observed
      ensures Valid() && PollStep(upstream, old(View()), p, View())
      ensures p.Finished? && !old(finished) && !recordedElsewhere ==> Whole()
      ensures !old(finished) && turns(0).cancelled ==> p == Failed(OutcomeUnknown)
      ensures !old(finished) && (p.Frame? || p.OtherFrame? || p.Finished?) ==>
                exists k :: LetThrough(turns, old(deliveryCheck), k) && (p.Finished? ==> LetFinish(turns(k), old(completionCheck)))
    {
      hide Valid, Whole, Yielded, EndsAt, PollStep;
      PollsNothing(upstream, View());
      if finished { return Finished; }
      for k := 0 to TURNS
        invariant Valid() && PollStep(upstream, old(View()), Pending, View()) && !finished
        invariant k > 0 ==> !turns(0).cancelled
        invariant completionCheck == old(completionCheck)
        invariant deliveryCheck <==> old(deliveryCheck) && forall j :: 0 <= j < k ==> !LetsDeliver(turns(j))
      {
        ghost var before := View();
        var p := TakeTurn(turns(k));
        StepsJoin(upstream, old(View()), before, if p.Some? then p.value else Pending, View());
        if p.Some? {
          assert p.value.Frame? || p.value.OtherFrame? || p.value.Finished? ==> LetThrough(turns, old(deliveryCheck), k);
          return p.value;
        }
      }
      return Pending;
    }

    /** One turn of the polling loop; `None` goes on to the next turn. */
    method TakeTurn(turn: Turn) returns (p: Option<Polled>)
      requires Valid() && !finished
      modifies this, observer, observed
      ensures Valid() && PollStep(upstream, old(View()), if p.Some? then p.value else Pending, View())
      ensures p == Some(Finished) && !recordedElsewhere ==> Whole()
      ensures TurnsAs(upstream, turn, recordedElsewhere, old(Position(eof, ended, deliveryCheck, completionCheck, polls)), p)
      ensures deliveryCheck <==> old(deliveryCheck) && (turn.cancelled || !turn.delivery.Granted?)
      ensures !finished ==> completionCheck == old(completionCheck)
    {
      hide Contents, Emit, Source, Replay, Scan, SoFar, Covers, Exactly, Yielded, EndsAt;
      assert delivered + [] == delivered;
      if turn.cancelled {
        Fail(turn.closed);
        return Some(Failed(OutcomeUnknown));
      }
      if deliveryCheck {
        match turn.delivery {
          case Waiting => return Some(Pending);
          case Refused(reason) => Fail(turn.closed); return Some(Failed(reason));
          case Granted => deliveryCheck := false;
        }
      }
      if eof {
        p := AtEnd(turn);
      } else {
        p := Advance(turn);
      }
    }
  }

  lemma NextPoll(upstream: nat -> Upstream, n: nat)
    ensures Yielded(upstream, n + 1) == Yielded(upstream, n) + Arrived(upstream(n))
  {
  }

  // ---- Whole bodies --------------------------------------------------------

  /** The bytes of the frames that successive polls return. */
  function Frames(polled: seq<Polled>): Bytes {
    if polled == [] then [] else Frames(polled[..|polled| - 1]) + FrameBytes(polled[|polled| - 1])
  }

  predicate IsPolling(upstream: nat -> Upstream, seen: seq<Seen>, polled: seq<Polled>) {
    && |seen| == |polled| + 1
    && seen[0] == Seen([], false, 0)
    && forall k :: 0 <= k < |polled| ==> PollStep(upstream, seen[k], polled[k], seen[k + 1])
  }

  lemma {:induction false} FramesDelivered(upstream: nat -> Upstream, seen: seq<Seen>, polled: seq<Polled>, k: nat)
    requires IsPolling(upstream, seen, polled) && k <= |polled|
    ensures seen[k].delivered == Frames(polled[..k])
    ensures seen[k].finished ==> exists j :: 0 <= j < k && (polled[j].Finished? || polled[j].Failed?)
    decreases k
  {
    hide PollStep;
    if k > 0 {
      FramesDelivered(upstream, seen, polled, k - 1);
      assert PollStep(upstream, seen[k - 1], polled[k - 1], seen[k]);
      assert polled[..k][..k - 1] == polled[..k - 1];
      StepParts(upstream, seen[k - 1], polled[k - 1], seen[k]);
    }
  }

  lemma StepParts(upstream: nat -> Upstream, a: Seen, p: Polled, b: Seen)
    requires PollStep(upstream, a, p, b)
    ensures b.delivered == a.delivered + FrameBytes(p)
    ensures b.finished <==> a.finished || p.Finished? || p.Failed?
  {
  }

  /** Over every run of polls that ends well, the frames handed out are together
      exactly the bytes that the upstream body yielded before its end. */
  lemma FramesAreTheBody(upstream: nat -> Upstream, seen: seq<Seen>, polled: seq<Polled>)
    requires IsPolling(upstream, seen, polled) && polled != [] && polled[|polled| - 1].Finished?
    requires forall k :: 0 <= k < |polled| - 1 ==> !polled[k].Finished? && !polled[k].Failed?
    ensures exists n: nat :: EndsAt(upstream, n) && Frames(polled) == Yielded(upstream, n)
  {
    hide EndsAt, Yielded;
    var n := |polled| - 1;
    FramesDelivered(upstream, seen, polled, n);
    FramesDelivered(upstream, seen, polled, n + 1);
    assert polled[..n + 1] == polled;
    assert PollStep(upstream, seen[n], polled[n], seen[n + 1]);
  }

  lemma PollsNothing(upstream: nat -> Upstream, a: Seen)
    ensures if a.finished then PollStep(upstream, a, Finished, a) else PollStep(upstream, a, Pending, a)
  {
    assert a.delivered + [] == a.delivered;
  }

  /** A turn that yields nothing, and what follows it, are one call. */
  lemma StepsJoin(upstream: nat -> Upstream, a: Seen, b: Seen, p: Polled, c: Seen)
    requires PollStep(upstream, a, Pending, b) && !b.finished && PollStep(upstream, b, p, c)
    ensures PollStep(upstream, a, p, c)
  {
    assert a.delivered + [] == a.delivered;
  }

  lemma ReleasedPart(unobserved: Bytes, tokens: seq<Token>, rest: Bytes, consumed: nat)
    requires unobserved == Source(tokens) + rest && consumed == |Source(tokens)|
    ensures consumed <= |unobserved| && unobserved[..consumed] == Source(tokens) && unobserved[consumed..] == rest
    ensures unobserved[..consumed] + unobserved[consumed..] == unobserved
  {
  }

  /** Observing the sanitized text in both views keeps the gate. */
  lemma GateHolds(start: seq<Emitted>, decided: seq<Token>, before: seq<Emitted>, after: seq<Emitted>, more: seq<Token>, safe: Bytes, whole: bool)
    requires safe == Emit(more)
    requires Exactly(start, before, decided)
    requires forall v :: v in [Agent, Upstream] ==> Extends(before, after, Slot(Inbound, v), safe, whole)
    ensures Covers(start, after, decided)
    ensures whole ==> Exactly(start, after, decided + more) && Covers(start, after, decided + more)
  {
    hide Contents, Emit;
    EmitJoin(decided, more);
    forall v
      ensures Contents(start, Slot(Inbound, v)) + Emit(decided) <= Contents(after, Slot(Inbound, v))
      ensures whole ==> Contents(after, Slot(Inbound, v)) == Contents(start, Slot(Inbound, v)) + Emit(decided + more)
    {
      assert [Agent, Upstream][0] == Agent && [Agent, Upstream][1] == Upstream;
      assert v == Agent || v == Upstream;
      assert Extends(before, after, Slot(Inbound, v), safe, whole);
      JoinAssociates(Contents(start, Slot(Inbound, v)), Emit(decided), safe);
      assert safe[..|safe|] == safe;
    }
  }
}
