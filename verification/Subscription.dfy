/** A subscriber's handle on the recorder. Closing admission is irreversible
    and needs no recorder; it neither retracts nor releases anything. */
module Subscription {
  import opened Prelude
  import opened Events
  import opened Ledger
  import opened Consumers
  import opened Recorder

  class Subscription {
    const recorder: Recorder
    const id: nat
    var closed: bool

    constructor Over(recorder: Recorder, id: nat)
      ensures this.recorder == recorder && this.id == id && !closed
    {
      this.recorder, this.id, closed := recorder, id, false;
    }

    /** Enroll; `id` is the random identity of the new subscription. */
    static method Subscribe(recorder: Recorder, scope: Scope, limits: Limits, id: nat) returns (r: Result<Subscription>)
      requires recorder.Valid()
      modifies recorder.subscribers
      ensures recorder.Valid()
      ensures SubscribeStep(old(recorder.Model()), scope, limits, id, if r.Ok? then Ok(()) else Err(r.error), recorder.Model())
      ensures r.Ok? ==> fresh(r.value) && r.value.recorder == recorder && r.value.id == id && !r.value.closed
    {
      var enrolled := recorder.Enroll(scope, limits, id);
      if enrolled.Err? { return Err(enrolled.error); }
      var subscription := new Subscription.Over(recorder, id);
      return Ok(subscription);
    }

    /** A closed handle reads nothing. */
    method Read(cursor: Option<SubscriptionCursor>, limit: nat, maxBytes: nat) returns (r: Result<Batch>)
      requires recorder.Valid()
      modifies recorder.subscribers
      ensures recorder.Valid()
      ensures closed ==> r == Err(ObservationUnavailable) && recorder.Model() == old(recorder.Model())
      ensures !closed ==> SubscriptionReadStep(old(recorder.Model()), recorder.epoch, id, cursor, limit, maxBytes, r, recorder.Model())
    {
      if closed { return Err(ObservationUnavailable); }
      r := recorder.SubscriptionRead(id, cursor, limit, maxBytes);
    }

    /** A closed handle acknowledges nothing. */
    method Acknowledge(cursor: SubscriptionCursor) returns (r: Result<()>)
      requires recorder.Valid()
      modifies recorder`owner, recorder`records, recorder`bytes, recorder`sessionBytes, recorder.subscribers
      ensures recorder.Valid()
      ensures closed ==> r == Err(ObservationUnavailable) && recorder.Model() == old(recorder.Model())
      ensures !closed ==> SubscriptionAckStep(old(recorder.Model()), recorder.epoch, id, cursor, r, recorder.Model())
    {
      if closed { return Err(ObservationUnavailable); }
      r := recorder.SubscriptionAcknowledge(id, cursor);
    }

    method CloseAdmission()
      modifies this
      ensures closed
    {
      closed := true;
    }

    /** Give up everything this handle enrolled, and nothing else. */
    method Close()
      requires recorder.Valid()
      modifies this, recorder`owner, recorder`records, recorder`bytes, recorder`sessionBytes, recorder.subscribers
      ensures recorder.Valid() && closed
      ensures CloseStep(old(recorder.Model()), id, recorder.Model())
    {
      CloseAdmission();
      recorder.CloseSubscription(id);
    }
  }
}
