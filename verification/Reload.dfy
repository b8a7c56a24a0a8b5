/** Replacing the broker on a configuration reload. Publication and shutdown
    share one lock; preparation of a candidate happens outside it. */
module Reload {
  import opened Prelude

  type Opaque = int

  /** One loaded configuration: its revision, and the settings that a reload may
      not change. */
  datatype Configuration = Configuration(revision: nat, fixed: Opaque)

  /** A published broker and whether its admission is still open. */
  datatype Generation = Generation(configuration: Configuration, open: bool)

  /** Every broker ever published, in order; the last one is current. `gate`
      says that a reload is running, `retiring` that the previous generation is
      still being cleaned up. */
  datatype State = State(generations: seq<Generation>, gate: bool, retiring: bool)

  function Current(s: State): Generation
    requires s.generations != []
  {
    s.generations[|s.generations| - 1]
  }

  function Closed(s: State): State
    requires s.generations != []
  {
    s.(generations := s.generations[|s.generations| - 1 := Current(s).(open := false)])
  }

  // ---- Steps ---------------------------------------------------------------

  datatype Step = Begin | Publish(candidate: Result<Configuration>) | Retired | Shutdown

  predicate Enabled(s: State, e: Step) {
    && s.generations != []
    && (e.Publish? ==> s.gate)
  }

  function Replaceable(s: State, c: Configuration): bool
    requires s.generations != []
  {
    Current(s).open && c.revision > Current(s).configuration.revision && c.fixed == Current(s).configuration.fixed
  }

  /** A reload begins: one at a time, on an open broker, with nothing retiring. */
  function BeginReload(s: State): (State, Result<()>)
    requires s.generations != []
  {
    if s.gate then (s, Err(LimitExceeded))
    else if !Current(s).open then (s, Err(SessionInvalid))
    else if s.retiring then (s, Err(LimitExceeded))
    else (s.(gate := true), Ok(()))
  }

  /** The prepared candidate is published, or the reload fails and changes nothing. */
  function PublishCandidate(s: State, candidate: Result<Configuration>): (State, Result<()>)
    requires s.generations != []
  {
    var over := s.(gate := false);
    if candidate.Err? then (over, Err(candidate.error))
    else if !Current(s).open then (over, Err(SessionInvalid))
    else if !Replaceable(s, candidate.value) then (over, Err(RequestInvalid))
    else (Closed(over).(generations := Closed(over).generations + [Generation(candidate.value, true)], retiring := true), Ok(()))
  }

  function Apply(s: State, e: Step): State
    requires Enabled(s, e)
  {
    match e
    case Begin => BeginReload(s).0
    case Publish(candidate) => PublishCandidate(s, candidate).0
    case Retired => s.(retiring := false)
    case Shutdown => Closed(s)
  }

  // ---- The invariant and whole runs ----------------------------------------

  /** At most the newest generation is open, and revisions strictly increase. */
  ghost predicate Inv(s: State) {
    && s.generations != []
    && (forall i :: 0 <= i < |s.generations| - 1 ==> !s.generations[i].open)
    && (forall i, j :: 0 <= i < j < |s.generations| ==>
          s.generations[i].configuration.revision < s.generations[j].configuration.revision)
    && (forall i, j :: 0 <= i < j < |s.generations| ==>
          s.generations[i].configuration.fixed == s.generations[j].configuration.fixed)
  }

  ghost predicate IsRun(states: seq<State>, steps: seq<Step>) {
    && |states| == |steps| + 1
    && |states[0].generations| == 1
    && forall k :: 0 <= k < |steps| ==> Enabled(states[k], steps[k]) && states[k + 1] == Apply(states[k], steps[k])
  }

  lemma StepInv(s: State, e: Step)
    requires Inv(s) && Enabled(s, e)
    ensures Inv(Apply(s, e))
  {
  }

  /** The invariant holds in every state of every run. */
  lemma {:induction false} RunInv(states: seq<State>, steps: seq<Step>, k: nat)
    requires IsRun(states, steps) && k < |states|
    ensures Inv(states[k])
  {
    hide Inv, Apply;
    if k == 0 {
      SingleInv(states[0]);
    } else {
      RunInv(states, steps, k - 1);
      StepInv(states[k - 1], steps[k - 1]);
    }
  }

  lemma SingleInv(s: State)
    requires |s.generations| == 1
    ensures Inv(s)
  {
  }

  /** In every state of every run at most one published broker is open. */
  lemma AtMostOneOpen(states: seq<State>, steps: seq<Step>, k: nat, i: nat, j: nat)
    requires IsRun(states, steps) && k < |states|
    requires i < |states[k].generations| && j < |states[k].generations|
    requires states[k].generations[i].open && states[k].generations[j].open
    ensures i == j == |states[k].generations| - 1
  {
    RunInv(states, steps, k);
  }

  /** Generations are only ever appended, and a closed broker never reopens. */
  lemma {:induction false} NeverReopens(states: seq<State>, steps: seq<Step>, j: nat, k: nat, i: nat)
    requires IsRun(states, steps) && j <= k < |states| && i < |states[j].generations|
    ensures i < |states[k].generations| && states[k].generations[i].configuration == states[j].generations[i].configuration
    ensures states[k].generations[i].open ==> states[j].generations[i].open
    decreases k
  {
    hide Inv;
    if j < k { NeverReopens(states, steps, j, k - 1, i); }
  }

  /** After a shutdown no broker is open and none is ever published again. */
  lemma {:induction false} ShutdownIsFinal(states: seq<State>, steps: seq<Step>, j: nat, k: nat)
    requires IsRun(states, steps) && j < k < |states| && steps[j] == Shutdown
    ensures |states[k].generations| == |states[j].generations|
    ensures forall i :: 0 <= i < |states[k].generations| ==> !states[k].generations[i].open
    decreases k
  {
    RunInv(states, steps, k - 1);
    if j < k - 1 { ShutdownIsFinal(states, steps, j, k - 1); }
  }

  // ---- One reload at a time ------------------------------------------------

  /** A reload begins exactly when none is running, the current broker is open and
      the last one's cleanup is over; a refusal changes nothing. */
  lemma BegunExactly(s: State)
    requires s.generations != []
    ensures BeginReload(s).1.Ok? <==> !s.gate && s.generations[|s.generations| - 1].open && !s.retiring
    ensures BeginReload(s).0 == if BeginReload(s).1.Ok? then s.(gate := true) else s
    ensures BeginReload(s).1.Err? ==>
              BeginReload(s).1.error == if !s.gate && !s.generations[|s.generations| - 1].open then SessionInvalid else LimitExceeded
  {
  }

  /** A reload publishes exactly an open broker's successor: a loaded candidate of a
      higher revision and the same fixed settings. Then the old broker is closed and
      the new one open; otherwise no broker changes. */
  lemma PublishedExactly(s: State, candidate: Result<Configuration>)
    requires s.generations != []
    ensures var now, next := s.generations[|s.generations| - 1], PublishCandidate(s, candidate);
            && (next.1.Ok? <==>
                  && now.open && candidate.Ok? && candidate.value.revision > now.configuration.revision
                  && candidate.value.fixed == now.configuration.fixed)
            && !next.0.gate
            && next.0.generations == (if next.1.Ok?
                 then s.generations[..|s.generations| - 1] + [Generation(now.configuration, false), Generation(candidate.value, true)]
                 else s.generations)
            && next.0.retiring == (next.1.Ok? || s.retiring)
            && (next.1.Err? ==> next.1.error == (if candidate.Err? then candidate.error else if !now.open then SessionInvalid else RequestInvalid))
  {
  }

  /** A reload that began at a step. */
  predicate Begins(states: seq<State>, steps: seq<Step>, k: nat)
    requires k < |steps| && |states| == |steps| + 1
  {
    steps[k].Begin? && states[k].generations != [] && BeginReload(states[k]).1.Ok?
  }

  lemma {:induction false} GateStays(states: seq<State>, steps: seq<Step>, i: nat, k: nat)
    requires IsRun(states, steps) && i <= k < |states| && states[i].gate
    requires forall j :: i <= j < k ==> !steps[j].Publish?
    ensures states[k].gate
    decreases k
  {
    if i < k { GateStays(states, steps, i, k - 1); }
  }

  lemma {:induction false} RetiringStays(states: seq<State>, steps: seq<Step>, i: nat, k: nat)
    requires IsRun(states, steps) && i <= k < |states| && states[i].retiring
    requires forall j :: i <= j < k ==> !steps[j].Retired?
    ensures states[k].retiring
    decreases k
  {
    if i < k { RetiringStays(states, steps, i, k - 1); }
  }

  /** Between two reloads the first one came to its end; */
  lemma OneReloadAtATime(states: seq<State>, steps: seq<Step>, i: nat, k: nat)
    requires IsRun(states, steps) && i < k < |steps| && Begins(states, steps, i) && Begins(states, steps, k)
    ensures exists j :: i < j < k && steps[j].Publish?
  {
    if forall j :: i < j < k ==> !steps[j].Publish? { GateStays(states, steps, i + 1, k); }
  }

  /** and between the publication of a broker and the next reload the cleanup of the
      broker before it was over. */
  lemma CleanedUpBetween(states: seq<State>, steps: seq<Step>, j: nat, k: nat)
    requires IsRun(states, steps) && j < k < |steps| && Begins(states, steps, k)
    requires |states[j + 1].generations| > |states[j].generations|
    ensures exists m :: j < m < k && steps[m].Retired?
  {
    if forall m :: j < m < k ==> !steps[m].Retired? { RetiringStays(states, steps, j + 1, k); }
  }

  // ---- The control object --------------------------------------------------

  class Control {
    var generations: seq<Generation>
    var gate: bool
    var retiring: bool

    ghost function Model(): State
      reads this
    {
      State(generations, gate, retiring)
    }

    constructor (configuration: Configuration)
      ensures Model() == State([Generation(configuration, true)], false, false)
      ensures Inv(Model())
    {
      generations, gate, retiring := [Generation(configuration, true)], false, false;
    }

    /** Start a reload, one at a time. */
    method TryReload() returns (r: Result<()>)
      requires Inv(Model())
      modifies this`gate
      ensures Inv(Model()) && (Model(), r) == BeginReload(old(Model()))
    {
      var current := generations[|generations| - 1];
      if gate { return Err(LimitExceeded); }
      if !current.open { return Err(SessionInvalid); }
      if retiring { return Err(LimitExceeded); }
      gate := true;
      return Ok(());
    }

    /** Close the current broker and publish the candidate in one section. */
    method FinishReload(candidate: Result<Configuration>) returns (r: Result<()>)
      requires Inv(Model()) && gate
      modifies this
      ensures Inv(Model()) && (Model(), r) == PublishCandidate(old(Model()), candidate)
    {
      StepInv(Model(), Publish(candidate));
      gate := false;
      if candidate.Err? { return Err(candidate.error); }
      var last := |generations| - 1;
      if !generations[last].open { return Err(SessionInvalid); }
      if candidate.value.revision <= generations[last].configuration.revision
         || candidate.value.fixed != generations[last].configuration.fixed {
        return Err(RequestInvalid);
      }
      generations := generations[last := generations[last].(open := false)];
      generations := generations + [Generation(candidate.value, true)];
      retiring := true;
      return Ok(());
    }

    /** Shut down. */
    method CloseAll()
      requires Inv(Model())
      modifies this`generations
      ensures Inv(Model()) && Model() == Closed(old(Model()))
      ensures forall i :: 0 <= i < |generations| ==> !generations[i].open
    {
      var last := |generations| - 1;
      generations := generations[last := generations[last].(open := false)];
    }
  }
}
