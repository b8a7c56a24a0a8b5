/** Sanitized observation events, and the content grants that select them. */
module Events {
  import opened Prelude

  /** Identities are only ever validated and compared: a nonnegative number
      stands for a canonical 16-byte id, a negative one for any other string. */
  type SessionId = int

  predicate WellFormed(id: SessionId) {
    id >= 0
  }

  /** Flow ids are random; a flow's events carry its id and its session's. */
  type FlowId = nat

  datatype Origin = Origin(session: SessionId, flow: FlowId)

  datatype Direction = Outbound | Inbound

  datatype View = Agent | Upstream

  datatype ContentClass = Metadata | Content

  /** `fields` is the summed length of the variable fields and `encoded` the
      length of the encoded record. */
  datatype Event = Event(session: SessionId, flow: FlowId, view: View, category: ContentClass,
                         fields: nat, encoded: Positive, stream: nat, sequence: nat)

  datatype Scope = Scope(sessions: seq<SessionId>, views: seq<View>, classes: seq<ContentClass>) {
    predicate Permits(e: Event) {
      e.session in sessions && e.view in views && e.category in classes
    }
  }

  datatype Limits = Limits(maxEvents: nat, maxBytes: nat)

  /** How many of `events` the scope selects. */
  function Selected(scope: Scope, events: seq<Event>): nat {
    if events == [] then 0
    else Selected(scope, events[..|events| - 1]) + (if scope.Permits(events[|events| - 1]) then 1 else 0)
  }

  /** The encoded size of the events that the scope selects. */
  function SelectedBytes(scope: Scope, events: seq<Event>): nat {
    if events == [] then 0
    else SelectedBytes(scope, events[..|events| - 1])
         + (if scope.Permits(events[|events| - 1]) then events[|events| - 1].encoded else 0)
  }

  lemma {:induction false} SelectedMonotone(scope: Scope, events: seq<Event>, k: nat)
    requires k <= |events|
    ensures Selected(scope, events[..k]) <= Selected(scope, events) <= |events|
    ensures Selected(scope, events[..k]) <= k
    decreases |events|
  {
    var n := |events|;
    if k < n {
      assert events[..n - 1][..k] == events[..k];
      SelectedMonotone(scope, events[..n - 1], k);
    } else {
      assert events[..k] == events;
      if n > 0 { SelectedMonotone(scope, events[..n - 1], n - 1); }
    }
  }
}
