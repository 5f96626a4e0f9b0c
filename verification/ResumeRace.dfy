/** The freeze of one project and its queue, one access at a time: a trigger reads
    the freeze and appends to the queue in two accesses, without the merge lock, and
    a resume may lift the freeze and drain the queue in between. The process may die
    at any moment; the freeze and the queue survive it. */
module ResumeRace {
  type TaskId = string

  datatype Place = Entering | SawFrozen | SawThawed | Settled

  datatype Trigger = Trigger(task: TaskId, at: Place)

  /** A resume has seen the freeze, has lifted it, drains the queue, or replays an
      entry it has popped. */
  datatype Phase = Checked | Committing | Draining | Replaying(task: TaskId) | Over

  /** `arrived` and `log` are history: the tasks whose change set some trigger has taken
      out of the placed table, and those settled since. */
  datatype World = World(frozen: bool, queue: seq<TaskId>, triggers: seq<Trigger>, resumes: seq<Phase>,
                         arrived: set<TaskId>, log: seq<TaskId>)

  /** `works` says whether the write (or the pop) of the step works. */
  datatype Step =
    | Arrive(task: TaskId)
    | ReadFreeze(i: nat)
    | Append(i: nat, works: bool)
    | Merge(i: nat)
    | Conflict(i: nat, works: bool)
    | BeginResume
    | Unfreeze(r: nat, works: bool)
    | Commit(r: nat, works: bool)
    | Pop(r: nat, works: bool)
    | Replay(r: nat, conflicts: bool, works: bool)
    | Crash

  predicate IsAt(w: World, i: nat, at: Place) {
    i < |w.triggers| && w.triggers[i].at == at
  }

  predicate IsIn(w: World, r: nat, phase: Phase) {
    r < |w.resumes| && w.resumes[r] == phase
  }

  /** A change set is taken out of the placed table once. */
  predicate Enabled(w: World, s: Step) {
    match s
    case Arrive(t) => t !in w.arrived
    case ReadFreeze(i) => IsAt(w, i, Entering)
    case Append(i, _) => IsAt(w, i, SawFrozen)
    case Merge(i) => IsAt(w, i, SawThawed)
    case Conflict(i, _) => IsAt(w, i, SawThawed)
    case BeginResume => w.frozen
    case Unfreeze(r, _) => IsIn(w, r, Checked)
    case Commit(r, _) => IsIn(w, r, Committing)
    case Pop(r, _) => IsIn(w, r, Draining)
    case Replay(r, _, _) => r < |w.resumes| && w.resumes[r].Replaying?
    case Crash => true
  }

  function Move(w: World, i: nat, at: Place): World
    requires i < |w.triggers|
  {
    w.(triggers := w.triggers[i := Trigger(w.triggers[i].task, at)])
  }

  function Go(w: World, r: nat, phase: Phase): World
    requires r < |w.resumes|
  {
    w.(resumes := w.resumes[r := phase])
  }

  function Log(w: World, t: TaskId): World {
    w.(log := w.log + [t])
  }

  /** A task already queued is not appended again; one that cannot be is parked. */
  function Next(w: World, s: Step): World
    requires Enabled(w, s)
  {
    match s
    case Arrive(t) => w.(triggers := w.triggers + [Trigger(t, Entering)], arrived := w.arrived + {t})
    case ReadFreeze(i) => Move(w, i, if w.frozen then SawFrozen else SawThawed)
    case Append(i, works) =>
      var t := w.triggers[i].task;
      if !works then Log(Move(w, i, Settled), t)
      else Move(w, i, Settled).(queue := if t !in w.queue then w.queue + [t] else w.queue)
    case Merge(i) => Log(Move(w, i, Settled), w.triggers[i].task)
    case Conflict(i, works) => Log(Move(w, i, Settled).(frozen := w.frozen || works), w.triggers[i].task)
    case BeginResume => w.(resumes := w.resumes + [Checked])
    case Unfreeze(r, works) => if works then Go(w, r, Committing).(frozen := false) else Go(w, r, Over)
    case Commit(r, works) => Go(w, r, if works then Draining else Over)
    case Pop(r, works) =>
      if works && w.queue != [] then Go(w, r, Replaying(w.queue[0])).(queue := w.queue[1..])
      else Go(w, r, Over)
    case Replay(r, conflicts, works) =>
      Log(if conflicts then Go(w, r, Over).(frozen := w.frozen || works) else Go(w, r, Draining), w.resumes[r].task)
    case Crash => w.(triggers := [], resumes := [])
  }

  predicate CanRun(w: World, steps: seq<Step>)
    decreases |steps|
  {
    steps == [] || (Enabled(w, steps[0]) && CanRun(Next(w, steps[0]), steps[1..]))
  }

  function Run(w: World, steps: seq<Step>): World
    requires CanRun(w, steps)
    decreases |steps|
  {
    if steps == [] then w else Run(Next(w, steps[0]), steps[1..])
  }

  // ---- Who holds a change set ----

  function One(yes: bool): nat {
    if yes then 1 else 0
  }

  predicate Carries(g: Trigger, t: TaskId) {
    g.task == t && !g.at.Settled?
  }

  predicate Replays(r: Phase, t: TaskId) {
    r == Replaying(t)
  }

  function Occurs(q: seq<TaskId>, t: TaskId): nat {
    if q == [] then 0 else Occurs(q[..|q| - 1], t) + One(q[|q| - 1] == t)
  }

  function InTriggers(gs: seq<Trigger>, t: TaskId): nat {
    if gs == [] then 0 else InTriggers(gs[..|gs| - 1], t) + One(Carries(gs[|gs| - 1], t))
  }

  function InResumes(rs: seq<Phase>, t: TaskId): nat {
    if rs == [] then 0 else InResumes(rs[..|rs| - 1], t) + One(Replays(rs[|rs| - 1], t))
  }

  function InHands(w: World, t: TaskId): nat {
    InTriggers(w.triggers, t) + InResumes(w.resumes, t)
  }

  /** In how many places the change set of t is, once it is out of the placed table. */
  function Places(w: World, t: TaskId): nat {
    InHands(w, t) + Occurs(w.queue, t) + Occurs(w.log, t)
  }

  lemma {:induction false} TriggerChanges(gs: seq<Trigger>, i: nat, g: Trigger, t: TaskId)
    requires i < |gs|
    ensures InTriggers(gs[i := g], t) + One(Carries(gs[i], t)) == InTriggers(gs, t) + One(Carries(g, t))
    ensures Carries(gs[i], t) ==> InTriggers(gs, t) >= 1
  {
    var n := |gs| - 1;
    if i < n {
      TriggerChanges(gs[..n], i, g, t);
      assert gs[i := g][..n] == gs[..n][i := g];
    } else {
      assert gs[i := g][..n] == gs[..n];
    }
  }

  lemma {:induction false} ResumeChanges(rs: seq<Phase>, r: nat, phase: Phase, t: TaskId)
    requires r < |rs|
    ensures InResumes(rs[r := phase], t) + One(Replays(rs[r], t)) == InResumes(rs, t) + One(Replays(phase, t))
  {
    var n := |rs| - 1;
    if r < n {
      ResumeChanges(rs[..n], r, phase, t);
      assert rs[r := phase][..n] == rs[..n][r := phase];
    } else {
      assert rs[r := phase][..n] == rs[..n];
    }
  }

  /** What is anywhere has arrived, and is in one place. */
  predicate Inv(w: World, t: TaskId) {
    Places(w, t) <= One(t in w.arrived)
  }

  /** What a step brings in, and what a crash takes away. */
  function Gain(s: Step, t: TaskId): nat {
    One(s == Arrive(t))
  }

  function Loss(w: World, s: Step, t: TaskId): nat {
    if s.Crash? then InHands(w, t) else 0
  }

  lemma OneMore(q: seq<TaskId>, x: TaskId, t: TaskId)
    ensures Occurs(q + [x], t) == Occurs(q, t) + One(x == t)
  {
    assert (q + [x])[..|q|] == q;
  }

  lemma {:induction false} OneLess(q: seq<TaskId>, t: TaskId)
    requires q != []
    ensures Occurs(q, t) == One(q[0] == t) + Occurs(q[1..], t)
  {
    var n := |q| - 1;
    if n > 0 {
      OneLess(q[..n], t);
      assert q[..n][1..] == q[1..][..n - 1];
    }
  }

  lemma {:induction false} MemberOccurs(q: seq<TaskId>, t: TaskId)
    requires t in q
    ensures Occurs(q, t) >= 1
  {
    var n := |q| - 1;
    if t in q[..n] {
      MemberOccurs(q[..n], t);
    } else {
      assert q == q[..n] + [q[n]];
    }
  }

  /** Trigger i moves on, and its change set with it, to the queue or the log if there. */
  lemma TriggerMoves(w: World, s: Step, t: TaskId)
    requires Enabled(w, s) && (s.Append? || s.ReadFreeze? || s.Merge? || s.Conflict?)
    ensures var w' := Next(w, s);
            InHands(w', t) + One(!s.ReadFreeze? && w.triggers[s.i].task == t) == InHands(w, t)
  {
    TriggerChanges(w.triggers, s.i, Next(w, s).triggers[s.i], t);
    hide InTriggers, InResumes;
  }

  lemma TriggerStepConserves(w: World, s: Step, t: TaskId)
    requires Inv(w, t) && Enabled(w, s) && (s.Append? || s.ReadFreeze? || s.Merge? || s.Conflict?)
    ensures Places(Next(w, s), t) == Places(w, t)
  {
    hide InHands, Occurs, Carries;
    var u := w.triggers[s.i].task;
    TriggerMoves(w, s, t);
    OneMore(w.queue, u, t);
    OneMore(w.log, u, t);
    if u in w.queue {
      MemberOccurs(w.queue, u);
    }
  }

  lemma ResumeMoves(w: World, s: Step, t: TaskId)
    requires Enabled(w, s) && (s.Unfreeze? || s.Commit? || s.Pop? || s.Replay?)
    ensures var w' := Next(w, s);
            InHands(w', t) + One(s.Replay? && w.resumes[s.r] == Replaying(t))
            == InHands(w, t) + One(s.Pop? && s.works && w.queue != [] && w.queue[0] == t)
  {
    ResumeChanges(w.resumes, s.r, Next(w, s).resumes[s.r], t);
    hide InTriggers, InResumes;
  }

  lemma ResumeStepConserves(w: World, s: Step, t: TaskId)
    requires Enabled(w, s) && (s.Unfreeze? || s.Commit? || s.Pop? || s.Replay?)
    ensures Places(Next(w, s), t) == Places(w, t)
  {
    hide InHands, Occurs;
    ResumeMoves(w, s, t);
    if s.Replay? {
      OneMore(w.log, w.resumes[s.r].task, t);
    } else if w.queue != [] {
      OneLess(w.queue, t);
    }
  }

  lemma NewcomerConserves(w: World, s: Step, t: TaskId)
    requires Enabled(w, s) && (s.Arrive? || s.BeginResume?)
    ensures Places(Next(w, s), t) == Places(w, t) + Gain(s, t)
  {
    if s.Arrive? {
      assert (w.triggers + [Trigger(s.task, Entering)])[..|w.triggers|] == w.triggers;
    } else {
      assert (w.resumes + [Checked])[..|w.resumes|] == w.resumes;
    }
  }

  lemma CrashLoses(w: World, t: TaskId)
    ensures Places(Next(w, Crash), t) + InHands(w, t) == Places(w, t)
  {
    assert InHands(Next(w, Crash), t) == 0;
    hide InHands, Occurs;
  }

  lemma StepConserves(w: World, s: Step, t: TaskId)
    requires Inv(w, t) && Enabled(w, s)
    ensures Places(Next(w, s), t) + Loss(w, s, t) == Places(w, t) + Gain(s, t)
    ensures Inv(Next(w, s), t)
  {
    hide Places, InHands, Next, Enabled;
    ArrivesOnce(w, s, t);
    match s
    case Arrive(_) => NewcomerConserves(w, s, t);
    case BeginResume => NewcomerConserves(w, s, t);
    case Crash => CrashLoses(w, t);
    case Unfreeze(_, _) => ResumeStepConserves(w, s, t);
    case Commit(_, _) => ResumeStepConserves(w, s, t);
    case Pop(_, _) => ResumeStepConserves(w, s, t);
    case Replay(_, _, _) => ResumeStepConserves(w, s, t);
    case _ => TriggerStepConserves(w, s, t);
  }

  function Arrivals(steps: seq<Step>, t: TaskId): nat {
    if steps == [] then 0 else Gain(steps[0], t) + Arrivals(steps[1..], t)
  }

  /** How often a crash found t in the hands of a trigger or a resume. */
  function Losses(w: World, steps: seq<Step>, t: TaskId): nat
    requires CanRun(w, steps)
    decreases |steps|
  {
    if steps == [] then 0 else Loss(w, steps[0], t) + Losses(Next(w, steps[0]), steps[1..], t)
  }

  lemma {:induction false} RunConserves(w: World, steps: seq<Step>, t: TaskId)
    requires Inv(w, t) && CanRun(w, steps)
    ensures Places(Run(w, steps), t) + Losses(w, steps, t) == Places(w, t) + Arrivals(steps, t)
    ensures Inv(Run(w, steps), t)
    ensures Arrivals(steps, t) <= One(t !in w.arrived)
    decreases |steps|
  {
    hide Places, Next, Enabled, Loss, Inv;
    if steps != [] {
      ArrivesOnce(w, steps[0], t);
      StepConserves(w, steps[0], t);
      RunConserves(Next(w, steps[0]), steps[1..], t);
    }
  }

  lemma ArrivesOnce(w: World, s: Step, t: TaskId)
    requires Enabled(w, s)
    ensures t in Next(w, s).arrived <==> t in w.arrived || s == Arrive(t)
    ensures t in w.arrived ==> s != Arrive(t)
  {
  }

  function Opening(frozen: bool): World {
    World(frozen, [], [], [], {}, [])
  }

  /** Main result: in every interleaving of the accesses of triggers and resumes, a
      change set that was taken from the placed table is in exactly one place, a
      trigger's or a resume's hands, the queue or the log, so it is settled at most
      once; and it is lost if and only if a crash found it in someone's hands. */
  lemma EachIsInOnePlace(frozen: bool, steps: seq<Step>, t: TaskId)
    requires CanRun(Opening(frozen), steps)
    ensures var w := Opening(frozen);
            && Arrivals(steps, t) <= 1
            && Places(Run(w, steps), t) == Arrivals(steps, t) - Losses(w, steps, t)
  {
    RunConserves(Opening(frozen), steps, t);
    hide Run, CanRun, Losses, Arrivals;
  }

  // ---- A queue behind no freeze ----

  predicate AnyActive(resumes: seq<Phase>) {
    exists r :: 0 <= r < |resumes| && !resumes[r].Over?
  }

  /** Nobody but resume r is active. */
  predicate IsLast(resumes: seq<Phase>, r: nat) {
    forall q :: 0 <= q < |resumes| && q != r ==> resumes[q].Over?
  }

  /** Entries wait, nothing holds the project back, and nobody drains the queue; no
      resume will, since it takes a freeze to begin one. */
  predicate IsStranded(w: World) {
    !w.frozen && w.queue != [] && !AnyActive(w.resumes)
  }

  /** A trigger appends after the freeze was lifted and the queue drained, or the last
      resume gives up, or dies, with entries left and no freeze in place. */
  predicate Strands(w: World, s: Step) {
    !w.frozen
    && match s
       case Append(_, works) => works && w.queue == [] && !AnyActive(w.resumes)
       case Unfreeze(r, works) => !works && w.queue != [] && IsLast(w.resumes, r)
       case Commit(r, works) => !works && w.queue != [] && IsLast(w.resumes, r)
       case Pop(r, works) => !works && w.queue != [] && IsLast(w.resumes, r)
       case Replay(r, conflicts, works) => conflicts && !works && w.queue != [] && IsLast(w.resumes, r)
       case Crash => w.queue != [] && AnyActive(w.resumes)
       case _ => false
  }

  /** A trigger freezes the project again. */
  predicate Freezes(s: Step) {
    s.Conflict? && s.works
  }

  lemma GoingOver(resumes: seq<Phase>, r: nat, phase: Phase)
    requires r < |resumes|
    ensures AnyActive(resumes[r := phase]) <==> !phase.Over? || !IsLast(resumes, r)
    ensures !resumes[r].Over? ==> AnyActive(resumes)
  {
    var after := resumes[r := phase];
    assert after[r] == phase;
    assert forall q :: 0 <= q < |resumes| && q != r ==> after[q] == resumes[q];
  }

  lemma StepStrandsExactlyWhen(w: World, s: Step)
    requires Enabled(w, s)
    ensures IsStranded(Next(w, s)) <==> Strands(w, s) || (IsStranded(w) && !Freezes(s))
  {
    match s
    case Unfreeze(r, works) => GoingOver(w.resumes, r, if works then Committing else Over);
    case Commit(r, works) => GoingOver(w.resumes, r, if works then Draining else Over);
    case Pop(r, works) => GoingOver(w.resumes, r, if works && w.queue != [] then Replaying(w.queue[0]) else Over);
    case Replay(r, conflicts, _) => GoingOver(w.resumes, r, if conflicts then Over else Draining);
    case BeginResume => assert (w.resumes + [Checked])[|w.resumes|] == Checked;
    case _ =>
  }

  ghost predicate NoneFreezes(steps: seq<Step>) {
    forall k :: 0 <= k < |steps| ==> !Freezes(steps[k])
  }

  /** Some step strands the queue, and no trigger freezes the project after it. */
  ghost predicate EverStrands(w: World, steps: seq<Step>)
    requires CanRun(w, steps)
    decreases |steps|
  {
    steps != []
    && ((Strands(w, steps[0]) && NoneFreezes(steps[1..])) || EverStrands(Next(w, steps[0]), steps[1..]))
  }

  /** Main result: along every interleaving of any number of triggers and resumes, the
      queue ends behind no freeze if and only if some step stranded it, or it was so
      at the start, and no conflict froze the project again since. */
  lemma {:induction false} QueueEndsStrandedExactlyWhen(w: World, steps: seq<Step>)
    requires CanRun(w, steps)
    ensures IsStranded(Run(w, steps)) <==> EverStrands(w, steps) || (IsStranded(w) && NoneFreezes(steps))
    decreases |steps|
  {
    hide Enabled, Next, Strands, Freezes, IsStranded;
    if steps != [] {
      StepStrandsExactlyWhen(w, steps[0]);
      QueueEndsStrandedExactlyWhen(Next(w, steps[0]), steps[1..]);
      assert NoneFreezes(steps) <==> !Freezes(steps[0]) && NoneFreezes(steps[1..]) by {
        assert steps == [steps[0]] + steps[1..];
      }
    }
  }

  /** Every write works, the freeze a trigger read is still in place when it appends,
      and no resume dies with entries left. */
  ghost predicate IsSmooth(w: World, steps: seq<Step>)
    requires CanRun(w, steps)
    decreases |steps|
  {
    steps == []
    || ((match steps[0]
         case Append(_, _) => w.frozen
         case Unfreeze(_, works) => works
         case Commit(_, works) => works
         case Pop(_, works) => works
         case Replay(_, _, works) => works
         case Crash => !AnyActive(w.resumes) || w.queue == []
         case _ => true)
        && IsSmooth(Next(w, steps[0]), steps[1..]))
  }

  /** So with working writes, reading the freeze and appending in one access would be
      enough. */
  lemma {:induction false} SmoothRunsStrandNothing(w: World, steps: seq<Step>)
    requires CanRun(w, steps) && IsSmooth(w, steps) && !IsStranded(w)
    ensures !IsStranded(Run(w, steps))
    decreases |steps|
  {
    if steps != [] {
      StepStrandsExactlyWhen(w, steps[0]);
      hide Next, Enabled, IsStranded;
      SmoothRunsStrandNothing(Next(w, steps[0]), steps[1..]);
    }
  }

  /** The world after the first k steps of the race. */
  function Raced(t: TaskId, k: nat): World {
    World(k < 4, if k < 7 then [] else [t],
          if k == 0 then [] else [Trigger(t, if k == 1 then Entering else if k < 7 then SawFrozen else Settled)],
          if k < 3 then []
          else [if k == 3 then Checked else if k == 4 then Committing else if k == 5 then Draining else Over],
          if k == 0 then {} else {t}, [])
  }

  function RaceStep(t: TaskId, k: nat): Step {
    if k == 0 then Arrive(t) else if k == 1 then ReadFreeze(0) else if k == 2 then BeginResume
    else if k == 3 then Unfreeze(0, true) else if k == 4 then Commit(0, true) else if k == 5 then Pop(0, true)
    else Append(0, true)
  }

  function RaceFrom(t: TaskId, k: nat): seq<Step>
    requires k <= 7
    decreases 7 - k
  {
    if k == 7 then [] else [RaceStep(t, k)] + RaceFrom(t, k + 1)
  }

  lemma RaceGoesOn(t: TaskId, k: nat)
    requires k < 7
    ensures Enabled(Raced(t, k), RaceStep(t, k)) && Next(Raced(t, k), RaceStep(t, k)) == Raced(t, k + 1)
  {
  }

  lemma {:induction false} RaceRuns(t: TaskId, k: nat)
    requires k <= 7
    ensures CanRun(Raced(t, k), RaceFrom(t, k)) && Run(Raced(t, k), RaceFrom(t, k)) == Raced(t, 7)
    decreases 7 - k
  {
    hide Next, Enabled, Raced, RaceStep;
    if k < 7 {
      RaceGoesOn(t, k);
      RaceRuns(t, k + 1);
      assert RaceFrom(t, k)[1..] == RaceFrom(t, k + 1);
    }
  }

  /** And as it is, no write has to fail: a trigger reads the freeze, a resume lifts it
      and finds the queue empty, and then the trigger appends. */
  lemma AppendedTooLate(t: TaskId)
    ensures var steps := RaceFrom(t, 0);
            && Raced(t, 0) == World(true, [], [], [], {}, []) && CanRun(Raced(t, 0), steps)
            && IsStranded(Run(Raced(t, 0), steps)) && Run(Raced(t, 0), steps).queue == [t]
  {
    RaceRuns(t, 0);
    hide CanRun, Run, RaceFrom;
  }

  // ---- A resume that dies ----

  lemma {:induction false} Extend(w: World, steps: seq<Step>, s: Step)
    requires CanRun(w, steps) && Enabled(Run(w, steps), s)
    ensures CanRun(w, steps + [s]) && Run(w, steps + [s]) == Next(Run(w, steps), s)
    decreases |steps|
  {
    hide Next, Enabled;
    if steps == [] {
      assert [s][1..] == [];
    } else {
      Extend(Next(w, steps[0]), steps[1..], s);
      assert (steps + [s])[1..] == steps[1..] + [s];
    }
  }

  /** A change set is deferred and a resume lifts the freeze. */
  lemma DeferredAndUnfrozen(t: TaskId) returns (steps: seq<Step>)
    ensures CanRun(Opening(true), steps)
    ensures Run(Opening(true), steps) == World(false, [t], [Trigger(t, Settled)], [Committing], {t}, [])
  {
    var w := Opening(true);
    steps := [];
    assert CanRun(w, steps) && Run(w, steps) == w;
    hide CanRun, Run;
    Extend(w, steps, Arrive(t));
    steps := steps + [Arrive(t)];
    Extend(w, steps, ReadFreeze(0));
    steps := steps + [ReadFreeze(0)];
    Extend(w, steps, Append(0, true));
    steps := steps + [Append(0, true)];
    Extend(w, steps, BeginResume);
    steps := steps + [BeginResume];
    Extend(w, steps, Unfreeze(0, true));
    steps := steps + [Unfreeze(0, true)];
  }

  /** Then the process dies: the queue is stranded. */
  lemma DiedBeforeDraining(t: TaskId) returns (steps: seq<Step>)
    ensures CanRun(Opening(true), steps)
    ensures var end := Run(Opening(true), steps); IsStranded(end) && end.queue == [t]
  {
    steps := DeferredAndUnfrozen(t);
    Extend(Opening(true), steps, Crash);
    steps := steps + [Crash];
    hide CanRun, Run;
  }

  /** Or it dies when it has popped the entry: the change set is nowhere any more. */
  lemma DiedWithAnEntry(t: TaskId) returns (steps: seq<Step>)
    ensures CanRun(Opening(true), steps)
    ensures t in Run(Opening(true), steps).arrived && Places(Run(Opening(true), steps), t) == 0
  {
    steps := DeferredAndUnfrozen(t);
    hide CanRun, Run;
    Extend(Opening(true), steps, Commit(0, true));
    steps := steps + [Commit(0, true)];
    Extend(Opening(true), steps, Pop(0, true));
    steps := steps + [Pop(0, true)];
    Extend(Opening(true), steps, Crash);
    steps := steps + [Crash];
  }
}
