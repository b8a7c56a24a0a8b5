/** The brokers of all generations under one control: publishing a generation
    closes the admission of the one before it in the same section. */
module Generations {
  import opened Prelude
  import opened Reload
  import E = Engine
  import X = EngineRuns

  /** The control's state, and the host of every broker it ever published. */
  datatype World = World(control: State, hosts: seq<E.Host>)

  datatype Move = Control(step: Step, now: int) | Inside(generation: nat, inner: E.Step)

  /** Whether a control step publishes a broker. */
  predicate Publishes(s: State, e: Step)
    requires Enabled(s, e)
  {
    |Apply(s, e).generations| > |s.generations|
  }

  function Retired(hosts: seq<E.Host>): seq<E.Host>
    requires hosts != []
  {
    hosts[|hosts| - 1 := E.CloseAdmission(hosts[|hosts| - 1]).host]
  }

  /** Only the control closes a current broker; one that is being retired may be
      closed again. */
  predicate Allowed(w: World, m: Move) {
    && |w.hosts| == |w.control.generations|
    && match m
       case Control(step, _) => Enabled(w.control, step)
       case Inside(g, inner) =>
         g < |w.hosts| && E.Enabled(w.hosts[g], inner) && (inner.Retire? ==> !w.control.generations[g].open)
  }

  function Moved(w: World, m: Move): World
    requires Allowed(w, m)
  {
    match m
    case Control(step, now) =>
      World(Apply(w.control, step),
            if Publishes(w.control, step) then Retired(w.hosts) + [E.Host(false, 0, now, map[])]
            else if step.Shutdown? then Retired(w.hosts)
            else w.hosts)
    case Inside(g, inner) => w.(hosts := w.hosts[g := E.Apply(w.hosts[g], inner).host])
  }

  /** The events of a move, in the broker where it happens. */
  function EventsOf(w: World, m: Move): seq<E.Event>
    requires Allowed(w, m)
  {
    if m.Inside? then E.Apply(w.hosts[m.generation], m.inner).events else []
  }

  /** A broker is closed in the control's eyes exactly when its host is. */
  ghost predicate WorldInv(w: World) {
    && Inv(w.control)
    && |w.hosts| == |w.control.generations|
    && forall i :: 0 <= i < |w.hosts| ==> (w.control.generations[i].open <==> !w.hosts[i].closed)
  }

  lemma MoveInv(w: World, m: Move)
    requires WorldInv(w) && Allowed(w, m)
    ensures WorldInv(Moved(w, m))
    ensures |w.hosts| <= |Moved(w, m).hosts|
    ensures forall i :: 0 <= i < |w.hosts| && w.hosts[i].closed ==> Moved(w, m).hosts[i].closed
  {
    hide E.Apply, E.Enabled, Apply, Enabled, Inv;
    match m
    case Control(step, _) =>
      StepInv(w.control, step);
      ControlOpens(w.control, step);
    case Inside(g, inner) => StaysOpen(w.hosts[g], inner);
  }

  /** Which brokers are open after a control step. */
  lemma ControlOpens(s: State, e: Step)
    requires Inv(s) && Enabled(s, e)
    ensures var t, n := Apply(s, e), |s.generations|;
            && n > 0 && n <= |t.generations| <= n + 1
            && (forall i :: 0 <= i < n - 1 ==> t.generations[i].open == s.generations[i].open)
            && t.generations[n - 1].open == (if Publishes(s, e) || e.Shutdown? then false else s.generations[n - 1].open)
            && (|t.generations| == n + 1 ==> t.generations[n].open)
  {
  }

  /** Nothing but retirement closes a host, and nothing opens it. */
  lemma StaysOpen(h: E.Host, e: E.Step)
    requires E.Enabled(h, e)
    ensures E.Apply(h, e).host.closed == (h.closed || e.Retire?)
  {
    hide E.Room, E.Authorized, E.Usable, E.Holds, E.FailedOp, E.Checked, E.Terminal;
  }

  // ---- Whole runs ----------------------------------------------------------

  ghost predicate IsLife(worlds: seq<World>, moves: seq<Move>) {
    && |worlds| == |moves| + 1
    && WorldInv(worlds[0])
    && forall k :: 0 <= k < |moves| ==> MoveAt(worlds, moves, k)
  }

  ghost predicate MoveAt(worlds: seq<World>, moves: seq<Move>, k: nat)
    requires k < |moves| && |worlds| == |moves| + 1
  {
    Allowed(worlds[k], moves[k]) && worlds[k + 1] == Moved(worlds[k], moves[k])
  }

  lemma {:induction false} LifeInv(worlds: seq<World>, moves: seq<Move>, j: nat, k: nat)
    requires IsLife(worlds, moves) && j <= k < |worlds|
    ensures WorldInv(worlds[j]) && WorldInv(worlds[k])
    ensures |worlds[j].hosts| <= |worlds[k].hosts|
    ensures forall i :: 0 <= i < |worlds[j].hosts| && worlds[j].hosts[i].closed ==> worlds[k].hosts[i].closed
    decreases k
  {
    hide WorldInv, Allowed, Moved;
    if k > 0 {
      assert MoveAt(worlds, moves, k - 1);
      LifeInv(worlds, moves, if j < k then j else k - 1, k - 1);
      MoveInv(worlds[k - 1], moves[k - 1]);
    }
  }

  /** Whatever is committed anywhere is committed in the newest broker, while the
      control has it open. */
  lemma OnlyNewestCommits(worlds: seq<World>, moves: seq<Move>, k: nat, ev: E.Event)
    requires IsLife(worlds, moves) && k < |moves| && Allowed(worlds[k], moves[k])
    requires ev in EventsOf(worlds[k], moves[k]) && X.Commits(ev)
    ensures moves[k].Inside? && moves[k].generation == |worlds[k].hosts| - 1
    ensures worlds[k].control.generations[moves[k].generation].open
  {
    hide E.Apply, E.Enabled, IsLife;
    LifeLength(worlds, moves);
    LifeInv(worlds, moves, k, k);
    X.CommitsAuthorized(worlds[k].hosts[moves[k].generation], moves[k].inner);
  }

  /** After a reload has published its broker, nothing of an older generation is
      ever committed, */
  lemma NothingOldCommits(worlds: seq<World>, moves: seq<Move>, i: nat, k: nat, ev: E.Event)
    requires IsLife(worlds, moves) && i < k < |moves| && Allowed(worlds[i], moves[i]) && Allowed(worlds[k], moves[k])
    requires moves[i].Control? && Publishes(worlds[i].control, moves[i].step)
    requires ev in EventsOf(worlds[k], moves[k]) && X.Commits(ev)
    ensures moves[k].Inside? && moves[k].generation >= |worlds[i].hosts|
  {
    hide E.Apply, E.Enabled, Enabled, WorldInv, IsLife;
    LifeShape(worlds, moves, i);
    LifeInv(worlds, moves, i + 1, k);
    OnlyNewestCommits(worlds, moves, k, ev);
  }

  /** and after a shutdown nothing at all. */
  lemma NothingAfterShutdown(worlds: seq<World>, moves: seq<Move>, i: nat, k: nat, ev: E.Event)
    requires IsLife(worlds, moves) && i < k < |moves| && Allowed(worlds[k], moves[k])
    requires moves[i].Control? && moves[i].step.Shutdown?
    requires ev in EventsOf(worlds[k], moves[k])
    ensures !X.Commits(ev)
  {
    hide E.Apply, E.Enabled, IsLife, EventsOf, Apply, Enabled;
    LifeLength(worlds, moves);
    ShutForever(worlds, moves, i, k);
    if X.Commits(ev) { OnlyNewestCommits(worlds, moves, k, ev); }
  }

  lemma LifeShape(worlds: seq<World>, moves: seq<Move>, i: nat)
    requires IsLife(worlds, moves) && i < |moves| && Allowed(worlds[i], moves[i])
    requires moves[i].Control? && Publishes(worlds[i].control, moves[i].step)
    ensures |worlds| == |moves| + 1 && |worlds[i + 1].hosts| == |worlds[i].hosts| + 1
  {
    assert MoveAt(worlds, moves, i);
  }

  lemma {:induction false} ShutForever(worlds: seq<World>, moves: seq<Move>, i: nat, k: nat)
    requires IsLife(worlds, moves) && i < k < |worlds| && moves[i].Control? && moves[i].step.Shutdown?
    ensures forall g :: 0 <= g < |worlds[k].control.generations| ==> !worlds[k].control.generations[g].open
    decreases k
  {
    hide E.Apply, E.Enabled, IsLife;
    LifeLength(worlds, moves);
    LifeInv(worlds, moves, i, k);
    LifeMove(worlds, moves, k - 1);
    LifeInv(worlds, moves, k - 1, k);
    if i < k - 1 {
      ShutForever(worlds, moves, i, k - 1);
      if moves[k - 1].Control? { ShutStays(worlds[k - 1].control, moves[k - 1].step); }
    }
  }

  lemma LifeLength(worlds: seq<World>, moves: seq<Move>)
    requires IsLife(worlds, moves)
    ensures |worlds| == |moves| + 1
  {
  }

  lemma LifeMove(worlds: seq<World>, moves: seq<Move>, k: nat)
    requires IsLife(worlds, moves) && k < |moves|
    ensures |worlds| == |moves| + 1 && Allowed(worlds[k], moves[k]) && worlds[k + 1] == Moved(worlds[k], moves[k])
  {
    assert MoveAt(worlds, moves, k);
  }

  lemma ShutStays(s: State, e: Step)
    requires Enabled(s, e) && forall g :: 0 <= g < |s.generations| ==> !s.generations[g].open
    ensures forall g :: 0 <= g < |Apply(s, e).generations| ==> !Apply(s, e).generations[g].open
  {
  }
}
