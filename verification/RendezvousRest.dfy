/** What is left in the placed table once every trigger has ended, told from the
    steps of the run alone. */
module RendezvousRest {
  import opened Wrappers
  import Desk = MergeDesk
  import opened Rendezvous

  /** A trigger of t reads the dispatch and finds it failed or cancelled. */
  ghost predicate ReadsDead(w: World, s: Step, t: TaskId) {
    s.ReadDispatch? && s.i < |w.triggers| && w.triggers[s.i].task == t && IsDead(w, t)
  }

  ghost predicate PastTheStop(w: World, t: TaskId) {
    exists i :: 0 <= i < |w.triggers| && w.triggers[i].task == t && w.triggers[i].at.Unhalted?
  }

  /** A trigger of t finds the stop released once t has landed, or t lands while one is
      already past the stop. */
  ghost predicate Passes(w: World, s: Step, t: TaskId) {
    || (s.CheckStop? && s.i < |w.triggers| && w.triggers[s.i].task == t && !w.stopped && t in w.landed)
    || (s == Land(t) && PastTheStop(w, t))
  }

  ghost predicate EverReadsDead(w: World, steps: seq<Step>, t: TaskId)
    requires CanRun(w, steps)
    decreases |steps|
  {
    steps != [] && (ReadsDead(w, steps[0], t) || EverReadsDead(Next(w, steps[0]), steps[1..], t))
  }

  ghost predicate EverPasses(w: World, steps: seq<Step>, t: TaskId)
    requires CanRun(w, steps)
    decreases |steps|
  {
    steps != [] && (Passes(w, steps[0], t) || EverPasses(Next(w, steps[0]), steps[1..], t))
  }

  // ---- Dead dispatches ----

  /** Triggers come from an archive that landed or a dispatch that is done. */
  ghost predicate Rooted(w: World, t: TaskId) {
    (exists i :: 0 <= i < |w.triggers| && w.triggers[i].task == t) ==> t in w.landed || IsDone(w, t)
  }

  lemma StepKeepsRooted(w: World, s: Step, t: TaskId)
    requires Enabled(w, s) && Rooted(w, t) && w.placed <= w.landed
    ensures Rooted(Next(w, s), t)
  {
    var w' := Next(w, s);
    forall i | 0 <= i < |w'.triggers| && w'.triggers[i].task == t ensures t in w'.landed || IsDone(w', t) {
      if i < |w.triggers| {
        assert w.triggers[i].task == t;
      }
    }
  }

  /** No trigger has seen t dead, and t is where it landed unless it was done. */
  ghost predicate Unseen(w: World, t: TaskId) {
    && (forall i :: 0 <= i < |w.triggers| && w.triggers[i].task == t ==> !w.triggers[i].at.SawDead?)
    && (t in w.landed ==> t in w.placed || IsDone(w, t))
  }

  /** A trigger has seen t dead and will drop it, or it is gone. */
  ghost predicate Doomed(w: World, t: TaskId) {
    && t in w.landed && IsDead(w, t)
    && (t !in w.placed || exists i :: 0 <= i < |w.triggers| && w.triggers[i].task == t && w.triggers[i].at.SawDead?)
  }

  lemma StepStaysUnseen(w: World, s: Step, t: TaskId)
    requires Sightings(w) && Enabled(w, s) && Unseen(w, t) && !ReadsDead(w, s, t)
    ensures Unseen(Next(w, s), t)
  {
    if Mover(s).Some? {
      assert Sighting(w, w.triggers[s.i]);
      MoverSighting(w, s, s.i);
    }
  }

  lemma StepStaysDoomed(w: World, s: Step, t: TaskId)
    requires Enabled(w, s) && Doomed(w, t)
    ensures Doomed(Next(w, s), t)
  {
    var w' := Next(w, s);
    if t in w.placed && t in w'.placed {
      var i :| 0 <= i < |w.triggers| && w.triggers[i].task == t && w.triggers[i].at.SawDead?;
      assert w'.triggers[i] == w.triggers[i];
    }
  }

  lemma ReadingDooms(w: World, s: Step, t: TaskId)
    requires Enabled(w, s) && Rooted(w, t) && ReadsDead(w, s, t)
    ensures Doomed(Next(w, s), t)
  {
    assert w.triggers[s.i].task == t;
    assert Next(w, s).triggers[s.i].at.SawDead?;
  }

  lemma {:induction false} RunDooms(w: World, steps: seq<Step>, t: TaskId)
    requires Inv(w) && CanRun(w, steps) && Rooted(w, t)
    ensures Doomed(w, t) || EverReadsDead(w, steps, t) ==> Doomed(Run(w, steps), t)
    ensures Unseen(w, t) && !EverReadsDead(w, steps, t) ==> Unseen(Run(w, steps), t)
    decreases |steps|
  {
    if steps != [] {
      var s := steps[0];
      StepKeeps(w, s);
      StepKeepsRooted(w, s, t);
      if Doomed(w, t) { StepStaysDoomed(w, s, t); }
      if ReadsDead(w, s, t) { ReadingDooms(w, s, t); }
      if Unseen(w, t) && !ReadsDead(w, s, t) { StepStaysUnseen(w, s, t); }
      hide Inv, Next, Enabled, Rooted, Doomed, Unseen, ReadsDead;
      RunDooms(Next(w, s), steps[1..], t);
    }
  }

  // ---- Done dispatches ----

  /** No trigger of a landed t is past the stop, and t is still placed unless dead. */
  ghost predicate Unpassed(w: World, t: TaskId) {
    t in w.landed ==> !PastTheStop(w, t) && (t in w.placed || IsDead(w, t))
  }

  /** A trigger past the stop will take t, or it is gone. */
  ghost predicate Bound(w: World, t: TaskId) {
    t in w.landed && (t !in w.placed || PastTheStop(w, t))
  }

  lemma WasPastBefore(w: World, s: Step, t: TaskId)
    requires Enabled(w, s) && PastTheStop(Next(w, s), t)
    ensures PastTheStop(w, t) || (s.CheckStop? && w.triggers[s.i].task == t && !w.stopped)
  {
    var gs := Next(w, s).triggers;
    var i :| 0 <= i < |gs| && gs[i].task == t && gs[i].at.Unhalted?;
    if !(s.CheckStop? && s.i == i) {
      assert i < |w.triggers| && w.triggers[i] == gs[i];
    }
  }

  lemma StaysUntilTaken(w: World, s: Step, t: TaskId)
    requires Sightings(w) && Enabled(w, s) && !PastTheStop(w, t) && (t in w.placed || IsDead(w, t))
    ensures t in Next(w, s).placed || IsDead(Next(w, s), t)
  {
    if s.DropDead? {
      assert Sighting(w, w.triggers[s.i]);
    } else if s.Take? {
      assert w.triggers[s.i].at.Unhalted?;
    }
  }

  lemma StepStaysUnpassed(w: World, s: Step, t: TaskId)
    requires Sightings(w) && Enabled(w, s) && Unpassed(w, t) && !Passes(w, s, t)
    ensures Unpassed(Next(w, s), t)
  {
    if s == Land(t) {
      assert t in Next(w, s).placed;
    } else if t in w.landed {
      StaysUntilTaken(w, s, t);
    } else {
      assert t !in Next(w, s).landed;
    }
    if PastTheStop(Next(w, s), t) {
      WasPastBefore(w, s, t);
    }
    hide Sightings, IsDead, PastTheStop;
  }

  lemma StepStaysBound(w: World, s: Step, t: TaskId)
    requires Enabled(w, s) && (Bound(w, t) || Passes(w, s, t))
    ensures Bound(Next(w, s), t)
  {
    var w' := Next(w, s);
    if s.CheckStop? && Passes(w, s, t) {
      assert w'.triggers[s.i].task == t && w'.triggers[s.i].at.Unhalted?;
    } else if t in w'.placed {
      var i :| 0 <= i < |w.triggers| && w.triggers[i].task == t && w.triggers[i].at.Unhalted?;
      assert w'.triggers[i] == w.triggers[i];
    }
  }

  lemma {:induction false} RunPasses(w: World, steps: seq<Step>, t: TaskId)
    requires Inv(w) && CanRun(w, steps)
    ensures Bound(w, t) || EverPasses(w, steps, t) ==> Bound(Run(w, steps), t)
    ensures Unpassed(w, t) && !EverPasses(w, steps, t) ==> Unpassed(Run(w, steps), t)
    decreases |steps|
  {
    if steps != [] {
      var s := steps[0];
      StepKeeps(w, s);
      if Bound(w, t) || Passes(w, s, t) { StepStaysBound(w, s, t); }
      if Unpassed(w, t) && !Passes(w, s, t) { StepStaysUnpassed(w, s, t); }
      hide Inv, Next, Enabled, Bound, Unpassed, Passes;
      RunPasses(Next(w, s), steps[1..], t);
    }
  }

  // ---- At rest ----

  /** Main result: once every trigger has ended, an archive is still placed if and only
      if it is outside the pipeline, its dispatch is in flight, its dispatch is done
      and no trigger of it found the stop released once it had landed or was past
      the stop already when it landed, or its dispatch is dead and no trigger of it
      read that. What is not placed is settled. */
  lemma ArchiveStaysExactlyWhen(steps: seq<Step>, t: TaskId)
    requires CanRun(OPENING, steps) && AtRest(Run(OPENING, steps)) && t in Run(OPENING, steps).landed
    ensures var end := Run(OPENING, steps);
            && (Logged(end.log, t) <==> t !in end.placed)
            && t in end.dispatches
            && (t in end.placed <==>
                  || t !in end.baselined || end.dispatches[t].InFlight?
                  || (if IsDone(end, t) then !EverPasses(OPENING, steps, t) else !EverReadsDead(OPENING, steps, t)))
  {
    RunKeeps(OPENING, steps);
    RunDooms(OPENING, steps, t);
    RunPasses(OPENING, steps, t);
    assert Rooted(OPENING, t) && Unseen(OPENING, t) && Unpassed(OPENING, t);
    hide *;
    RestTells(Run(OPENING, steps), t, EverPasses(OPENING, steps, t), EverReadsDead(OPENING, steps, t));
  }

  lemma RestTells(w: World, t: TaskId, passed: bool, dead: bool)
    requires Inv(w) && AtRest(w) && t in w.landed
    requires if passed then Bound(w, t) else Unpassed(w, t)
    requires if dead then Doomed(w, t) else Unseen(w, t)
    ensures (Logged(w.log, t) <==> t !in w.placed) && t in w.dispatches
    ensures t in w.placed <==>
              t !in w.baselined || w.dispatches[t].InFlight? || (if IsDone(w, t) then !passed else !dead)
  {
    RestingArchives(w, t);
    hide Logged, Sightings, LogIsRightful, NoLostWakeUp;
  }

  // ---- The stop ----

  /** No trigger is past the stop. */
  ghost predicate NobodyPast(w: World) {
    forall i :: 0 <= i < |w.triggers| ==> !w.triggers[i].at.Unhalted? && !Holds(w.triggers[i])
  }

  predicate Releases(s: Step) {
    s.SetStop? && !s.on
  }

  lemma StepIsHeldBack(w: World, s: Step)
    requires Enabled(w, s) && w.stopped && NobodyPast(w) && !Releases(s)
    ensures var w' := Next(w, s); w'.stopped && NobodyPast(w') && w'.merged == w.merged
  {
  }

  lemma {:induction false} RunIsHeldBack(w: World, steps: seq<Step>)
    requires CanRun(w, steps) && w.stopped && NobodyPast(w)
    requires forall k :: 0 <= k < |steps| ==> !Releases(steps[k])
    ensures Run(w, steps).merged == w.merged
    decreases |steps|
  {
    hide Next, Enabled, NobodyPast;
    if steps != [] {
      StepIsHeldBack(w, steps[0]);
      RunIsHeldBack(Next(w, steps[0]), steps[1..]);
    }
  }

  /** Main result: from an emergency stop on, until it is released, nothing more is merged
      but what was past its check already. */
  lemma StopHoldsBack(w: World, steps: seq<Step>)
    requires NobodyPast(w) && CanRun(Next(w, SetStop(true)), steps)
    requires forall k :: 0 <= k < |steps| ==> !Releases(steps[k])
    ensures Run(Next(w, SetStop(true)), steps).merged == w.merged
  {
    RunIsHeldBack(Next(w, SetStop(true)), steps);
  }

  // ---- A dispatch that fails once its archive has landed ----

  lemma Start(s: Step)
    requires Enabled(OPENING, s)
    ensures CanRun(OPENING, [s]) && Run(OPENING, [s]) == Next(OPENING, s)
  {
    assert [s][1..] == [];
  }

  function Landed(t: TaskId, at: Place, state: Desk.DispatchState): World {
    OPENING.(dispatches := map[t := state], baselined := {t}, placed := {t}, landed := {t},
             triggers := [Trigger(t, at)], early := if at.Ended? then {t} else {})
  }

  lemma LandedInFlight(t: TaskId) returns (steps: seq<Step>)
    ensures CanRun(OPENING, steps) && Run(OPENING, steps) == Landed(t, Unmerged, Desk.InFlight)
  {
    Start(Dispatched(t, true));
    steps := [Dispatched(t, true)];
    Extend(OPENING, steps, Land(t));
    steps := steps + [Land(t)];
    Extend(OPENING, steps, CheckMerged(0));
    steps := steps + [CheckMerged(0)];
    hide CanRun, Run;
    assert Run(OPENING, steps).triggers == [Trigger(t, Unmerged)];
  }

  /** The landing trigger comes first, then the dispatch fails, and that triggers
      nothing: the change set stays placed. */
  lemma FailedAfterItsTrigger(t: TaskId) returns (steps: seq<Step>)
    ensures CanRun(OPENING, steps)
    ensures var end := Run(OPENING, steps);
            AtRest(end) && IsDead(end, t) && t in end.baselined && t in end.placed && end.log == []
  {
    steps := LandedInFlight(t);
    Extend(OPENING, steps, ReadDispatch(0));
    steps := steps + [ReadDispatch(0)];
    Extend(OPENING, steps, WriteBack(t, Desk.Failed));
    steps := steps + [WriteBack(t, Desk.Failed)];
  }

  /** The same failure while the landing trigger is under way: superseded. */
  lemma FailedDuringItsTrigger(t: TaskId) returns (steps: seq<Step>)
    ensures CanRun(OPENING, steps)
    ensures var end := Run(OPENING, steps);
            AtRest(end) && IsDead(end, t) && t !in end.placed && end.log == [Settlement(t, Superseded)]
  {
    steps := LandedInFlight(t);
    Extend(OPENING, steps, WriteBack(t, Desk.Failed));
    steps := steps + [WriteBack(t, Desk.Failed)];
    Extend(OPENING, steps, ReadDispatch(0));
    steps := steps + [ReadDispatch(0)];
    Extend(OPENING, steps, DropDead(0));
    steps := steps + [DropDead(0)];
  }
}
