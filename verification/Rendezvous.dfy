/** The merge rendezvous, one shared access at a time: any number of triggers of
    either leg run interleaved, each reading and writing the shared tables in the
    order the code does. */
module Rendezvous {
  import opened Wrappers
  import Desk = MergeDesk

  type TaskId = Desk.TaskId

  /** Where a trigger stands: it has passed the merged check, seen the dispatch
      done or dead, passed the emergency stop, taken the change set out of the
      placed table, or holds the serial merge lock. */
  datatype Place = Entering | Unmerged | SawDone | SawDead | Unhalted | Holding | Merging | Ended

  datatype Trigger = Trigger(task: TaskId, at: Place)

  datatype Outcome = Merged | Superseded | Parked | Queued | HandedOver

  datatype Settlement = Settlement(task: TaskId, outcome: Outcome)

  /** `landed`, `log`, `halted` and `early` are history: the archives that landed,
      what became of them, and the placed tasks whose last trigger gave up
      because of the stop or because the dispatch was still in flight. */
  datatype World = World(dispatches: map<TaskId, Desk.DispatchState>, baselined: set<TaskId>, stopped: bool,
                         placed: set<TaskId>, merged: set<TaskId>, serial: Option<nat>, triggers: seq<Trigger>,
                         landed: set<TaskId>, log: seq<Settlement>, halted: set<TaskId>, early: set<TaskId>)

  datatype Step =
    | Dispatched(task: TaskId, withBaseline: bool)
    | WriteBack(task: TaskId, state: Desk.DispatchState)
    | Land(task: TaskId)
    | SetStop(on: bool)
    | Retry(order: seq<TaskId>)
    | CheckMerged(i: nat)
    | ReadDispatch(i: nat)
    | DropDead(i: nat)
    | CheckStop(i: nat)
    | Take(i: nat)
    | SettleEarly(i: nat, outcome: Outcome)
    | Lock(i: nat)
    | SettleLocked(i: nat, outcome: Outcome)

  predicate IsAt(w: World, i: nat, at: Place) {
    i < |w.triggers| && w.triggers[i].at == at
  }

  /** A dispatch ends once and an archive lands once. Failed and cancelled
      dispatches write back without a trigger. */
  ghost predicate Enabled(w: World, s: Step) {
    match s
    case Dispatched(t, _) => t !in w.dispatches
    case WriteBack(t, state) => t in w.dispatches && w.dispatches[t].InFlight? && !state.InFlight?
    case Land(t) => t in w.dispatches && t !in w.landed
    case SetStop(_) => true
    case Retry(order) => forall t :: t in order <==> t in w.placed
    case CheckMerged(i) => IsAt(w, i, Entering)
    case ReadDispatch(i) => IsAt(w, i, Unmerged) && w.triggers[i].task in w.dispatches
    case DropDead(i) => IsAt(w, i, SawDead)
    case CheckStop(i) => IsAt(w, i, SawDone)
    case Take(i) => IsAt(w, i, Unhalted)
    case SettleEarly(i, o) => IsAt(w, i, Holding) && (o.Parked? || o.Queued?)
    case Lock(i) => IsAt(w, i, Holding) && w.serial.None?
    case SettleLocked(i, o) => IsAt(w, i, Merging) && !o.Queued?
  }

  function Move(w: World, i: nat, at: Place): World
    requires i < |w.triggers|
  {
    w.(triggers := w.triggers[i := Trigger(w.triggers[i].task, at)])
  }

  function Spawn(w: World, t: TaskId): World {
    w.(triggers := w.triggers + [Trigger(t, Entering)])
  }

  function SpawnAll(w: World, order: seq<TaskId>): World {
    w.(triggers := w.triggers + seq(|order|, k requires 0 <= k < |order| => Trigger(order[k], Entering)))
  }

  function TakeOut(w: World, t: TaskId): World {
    w.(placed := w.placed - {t}, halted := w.halted - {t}, early := w.early - {t})
  }

  function Settle(w: World, t: TaskId, o: Outcome): World {
    w.(log := w.log + [Settlement(t, o)], merged := if o.Merged? then w.merged + {t} else w.merged)
  }

  ghost function Next(w: World, s: Step): World
    requires Enabled(w, s)
  {
    match s
    case Dispatched(t, withBaseline) =>
      w.(dispatches := w.dispatches[t := Desk.InFlight],
         baselined := if withBaseline then w.baselined + {t} else w.baselined - {t})
    case WriteBack(t, state) =>
      var w1 := w.(dispatches := w.dispatches[t := state]);
      if state.Done? && t in w.baselined then Spawn(w1, t) else w1
    case Land(t) => Spawn(w.(placed := w.placed + {t}, landed := w.landed + {t}), t)
    case SetStop(on) => w.(stopped := on)
    case Retry(order) => SpawnAll(w, order).(halted := {}, early := {})
    case CheckMerged(i) =>
      var t := w.triggers[i].task;
      Move(w, i, if t !in w.baselined || t in w.merged then Ended else Unmerged)
    case ReadDispatch(i) =>
      var t := w.triggers[i].task;
      (match w.dispatches[t]
       case InFlight => Move(w, i, Ended).(early := if t in w.placed then w.early + {t} else w.early)
       case Done => Move(w, i, SawDone)
       case _ => Move(w, i, SawDead))
    case DropDead(i) =>
      var t := w.triggers[i].task;
      if t in w.placed then Settle(TakeOut(Move(w, i, Ended), t), t, Superseded) else Move(w, i, Ended)
    case CheckStop(i) =>
      var t := w.triggers[i].task;
      if w.stopped then Move(w, i, Ended).(halted := if t in w.placed then w.halted + {t} else w.halted)
      else Move(w, i, Unhalted)
    case Take(i) =>
      var t := w.triggers[i].task;
      if t in w.placed then TakeOut(Move(w, i, Holding), t) else Move(w, i, Ended)
    case SettleEarly(i, o) => Settle(Move(w, i, Ended), w.triggers[i].task, o)
    case Lock(i) => Move(w, i, Merging).(serial := Some(i))
    case SettleLocked(i, o) => Settle(Move(w, i, Ended), w.triggers[i].task, o).(serial := None)
  }

  // ---- What every step keeps ----

  predicate Holds(g: Trigger) {
    g.at.Holding? || g.at.Merging?
  }

  /** Still on its way to the placed table. */
  predicate OnItsWay(g: Trigger) {
    !Holds(g) && !g.at.Ended?
  }

  predicate Held(gs: seq<Trigger>, t: TaskId) {
    exists i :: 0 <= i < |gs| && gs[i].task == t && Holds(gs[i])
  }

  predicate Awaited(gs: seq<Trigger>, t: TaskId) {
    exists i :: 0 <= i < |gs| && gs[i].task == t && OnItsWay(gs[i])
  }

  predicate Logged(log: seq<Settlement>, t: TaskId) {
    exists k :: 0 <= k < |log| && log[k].task == t
  }

  predicate IsDone(w: World, t: TaskId) {
    t in w.dispatches && w.dispatches[t].Done?
  }

  predicate IsDead(w: World, t: TaskId) {
    t in w.dispatches && (w.dispatches[t].Failed? || w.dispatches[t].Cancelled?)
  }

  /** A landed change set is in one place: the placed table, one trigger's hands,
      or the log. */
  ghost predicate OnePlace(w: World) {
    && w.placed <= w.landed
    && (forall t :: t in w.landed ==> t in w.dispatches && (t in w.placed || Held(w.triggers, t) || Logged(w.log, t)))
    && (forall t :: t in w.placed ==> !Held(w.triggers, t) && !Logged(w.log, t))
    && (forall t :: Held(w.triggers, t) ==> t in w.landed && !Logged(w.log, t))
    && (forall t :: Logged(w.log, t) ==> t in w.landed)
  }

  ghost predicate OneHolder(gs: seq<Trigger>) {
    forall i, j :: 0 <= i < j < |gs| && Holds(gs[i]) && Holds(gs[j]) ==> gs[i].task != gs[j].task
  }

  ghost predicate LoggedOnce(log: seq<Settlement>) {
    forall j, k :: 0 <= j < k < |log| ==> log[j].task != log[k].task
  }

  /** What a trigger has seen stays true. */
  ghost predicate Sightings(w: World) {
    forall i :: 0 <= i < |w.triggers| ==> Sighting(w, w.triggers[i])
  }

  ghost predicate Sighting(w: World, g: Trigger) {
    && g.task in w.dispatches
    && (!g.at.Entering? && !g.at.Ended? ==> g.task in w.baselined)
    && (g.at.SawDone? || g.at.Unhalted? || Holds(g) ==> IsDone(w, g.task))
    && (g.at.SawDead? ==> IsDead(w, g.task))
  }

  /** Only a done dispatch is merged; a dead one is superseded. */
  ghost predicate LogIsRightful(w: World) {
    && (forall k :: 0 <= k < |w.log| ==> RightfulSettlement(w, w.log[k]))
    && (forall t :: t in w.merged ==> t in w.landed && Logged(w.log, t))
  }

  ghost predicate RightfulSettlement(w: World, r: Settlement) {
    && r.task in w.baselined
    && (if r.outcome.Superseded? then IsDone(w, r.task) || IsDead(w, r.task) else IsDone(w, r.task))
    && (r.outcome.Merged? <==> r.task in w.merged)
  }

  /** No wake-up is lost: whatever is placed and ready has a trigger on its way,
      unless the last one was halted or came before the dispatch ended. */
  ghost predicate NoLostWakeUp(w: World) {
    && (forall t :: t in w.placed && t in w.baselined && IsDone(w, t) ==> Awaited(w.triggers, t) || t in w.halted)
    && (forall t :: t in w.placed && t in w.baselined && !IsDone(w, t) ==> Awaited(w.triggers, t) || t in w.early)
    && w.halted <= w.placed && w.early <= w.placed
    && (forall t :: t in w.halted ==> IsDone(w, t))
  }

  ghost predicate Serialized(w: World) {
    forall i :: 0 <= i < |w.triggers| ==> (w.triggers[i].at.Merging? <==> w.serial == Some(i))
  }

  ghost predicate LockIsHeld(w: World) {
    w.serial.Some? ==> w.serial.value < |w.triggers|
  }

  ghost predicate Inv(w: World) {
    OnePlace(w) && OneHolder(w.triggers) && LoggedOnce(w.log) && Sightings(w) && LogIsRightful(w) && NoLostWakeUp(w)
    && Serialized(w) && LockIsHeld(w)
  }

  // ---- Moving and spawning triggers ----

  lemma MovingOne(gs: seq<Trigger>, i: nat, at: Place)
    requires i < |gs|
    ensures var g, g' := gs[i], Trigger(gs[i].task, at);
            var gs' := gs[i := g'];
            && (forall t :: t != g.task ==> Held(gs', t) == Held(gs, t) && Awaited(gs', t) == Awaited(gs, t))
            && (Holds(g') ==> Held(gs', g.task))
            && (Holds(g) ==> Held(gs, g.task))
            && (Held(gs', g.task) ==> Held(gs, g.task) || Holds(g'))
            && (!Holds(g) && Held(gs, g.task) ==> Held(gs', g.task))
            && (Holds(g) && !Holds(g') && OneHolder(gs) ==> !Held(gs', g.task))
            && (OnItsWay(g') ==> Awaited(gs', g.task))
            && (!OnItsWay(g) && Awaited(gs, g.task) ==> Awaited(gs', g.task))
  {
    var g, g' := gs[i], Trigger(gs[i].task, at);
    var gs' := gs[i := g'];
    assert gs'[i] == g';
    forall t | t != g.task ensures Held(gs', t) == Held(gs, t) && Awaited(gs', t) == Awaited(gs, t) {
      assert forall j :: 0 <= j < |gs| && gs[j].task == t ==> gs'[j] == gs[j];
      assert forall j :: 0 <= j < |gs| && gs'[j].task == t ==> gs'[j] == gs[j];
    }
    assert forall j :: 0 <= j < |gs| && j != i ==> gs'[j] == gs[j];
  }

  lemma SpawningSome(gs: seq<Trigger>, more: seq<Trigger>)
    requires forall k :: 0 <= k < |more| ==> more[k].at.Entering?
    ensures forall t :: Held(gs + more, t) == Held(gs, t)
    ensures forall t :: Awaited(gs, t) ==> Awaited(gs + more, t)
    ensures forall k :: 0 <= k < |more| ==> Awaited(gs + more, more[k].task)
    ensures OneHolder(gs) ==> OneHolder(gs + more)
  {
    var all := gs + more;
    assert forall j :: 0 <= j < |gs| ==> all[j] == gs[j];
    forall k | 0 <= k < |more| ensures Awaited(all, more[k].task) {
      assert all[|gs| + k] == more[k];
    }
  }

  lemma MovingKeepsOneHolder(gs: seq<Trigger>, i: nat, at: Place)
    requires i < |gs| && OneHolder(gs)
    requires at.Holding? || at.Merging? ==> Holds(gs[i]) || !Held(gs, gs[i].task)
    ensures OneHolder(gs[i := Trigger(gs[i].task, at)])
  {
  }

  lemma LoggingOne(log: seq<Settlement>, r: Settlement)
    ensures forall t :: Logged(log + [r], t) <==> Logged(log, t) || t == r.task
  {
    assert (log + [r])[|log|] == r;
    assert forall k :: 0 <= k < |log| ==> (log + [r])[k] == log[k];
  }

  /** The trigger a step moves. */
  function Mover(s: Step): Option<nat> {
    match s
    case Dispatched(_, _) => None
    case WriteBack(_, _) => None
    case Land(_) => None
    case SetStop(_) => None
    case Retry(_) => None
    case _ => Some(s.i)
  }

  lemma StepKeepsOnePlace(w: World, s: Step)
    requires Inv(w) && Enabled(w, s)
    ensures OnePlace(Next(w, s))
  {
    if Mover(s).Some? {
      MoveKeepsOnePlace(w, s, s.i);
    } else {
      hide Held, Logged, Awaited, OneHolder, LoggedOnce, Sightings, LogIsRightful, NoLostWakeUp, Serialized;
      match s
      case Land(t) => LandKeepsOnePlace(w, t);
      case WriteBack(t, _) => SpawningSome(w.triggers, [Trigger(t, Entering)]);
      case Retry(order) =>
        SpawningSome(w.triggers, seq(|order|, k requires 0 <= k < |order| => Trigger(order[k], Entering)));
      case _ =>
    }
  }

  lemma LandKeepsOnePlace(w: World, t: TaskId)
    requires OnePlace(w) && Enabled(w, Land(t))
    ensures OnePlace(Next(w, Land(t)))
  {
    hide Held, Logged;
    SpawningSome(w.triggers, [Trigger(t, Entering)]);
  }

  /** A moving trigger leaves its change set where it is, takes it out of the
      placed table, settles it from there, or settles it out of its hands. */
  datatype Effect = Passing | Grabbing | Dropping | Releasing

  ghost predicate HasEffect(w: World, w': World, i: nat, e: Effect)
    requires i < |w.triggers|
  {
    var t := w.triggers[i].task;
    && |w'.triggers| == |w.triggers|
    && w'.triggers == w.triggers[i := Trigger(t, w'.triggers[i].at)]
    && w'.landed == w.landed && w'.dispatches == w.dispatches && w'.baselined == w.baselined
    && (e.Grabbing? || e.Dropping? ==> t in w.placed)
    && w'.placed == (if e.Grabbing? || e.Dropping? then w.placed - {t} else w.placed)
    && (if e.Dropping? || e.Releasing?
        then |w'.log| > 0 && w'.log == w.log + [Settlement(t, w'.log[|w'.log| - 1].outcome)]
        else w'.log == w.log)
    && w'.merged == (if w'.log != w.log && w'.log[|w'.log| - 1].outcome.Merged? then w.merged + {t} else w.merged)
    && (e.Releasing? ==> Holds(w.triggers[i]))
    && (e.Grabbing? || e.Dropping? ==> !Holds(w.triggers[i]))
    && Holds(w'.triggers[i]) == (if e.Passing? then Holds(w.triggers[i]) else e.Grabbing?)
  }

  function EffectOf(w: World, s: Step, i: nat): Effect
    requires i < |w.triggers|
  {
    match s
    case DropDead(_) => if w.triggers[i].task in w.placed then Dropping else Passing
    case Take(_) => if w.triggers[i].task in w.placed then Grabbing else Passing
    case SettleEarly(_, _) => Releasing
    case SettleLocked(_, _) => Releasing
    case _ => Passing
  }

  lemma MoversHaveEffects(w: World, s: Step, i: nat)
    requires Enabled(w, s) && Mover(s) == Some(i)
    ensures i < |w.triggers| && HasEffect(w, Next(w, s), i, EffectOf(w, s, i))
  {
  }

  lemma MoveKeepsOnePlace(w: World, s: Step, i: nat)
    requires Inv(w) && Enabled(w, s) && Mover(s) == Some(i)
    ensures OnePlace(Next(w, s))
  {
    MoversHaveEffects(w, s, i);
    EffectKeepsOnePlace(w, Next(w, s), i, EffectOf(w, s, i));
  }

  lemma EffectKeepsOnePlace(w: World, w': World, i: nat, e: Effect)
    requires OnePlace(w) && OneHolder(w.triggers) && i < |w.triggers| && HasEffect(w, w', i, e)
    ensures OnePlace(w')
  {
    hide Held, Logged, OneHolder;
    MovingOne(w.triggers, i, w'.triggers[i].at);
    if w'.log != w.log {
      LoggingOne(w.log, w'.log[|w'.log| - 1]);
    }
  }

  lemma StepKeepsOneHolder(w: World, s: Step)
    requires Inv(w) && Enabled(w, s)
    ensures OneHolder(Next(w, s).triggers)
  {
    hide Held, Logged, Awaited, OneHolder, LoggedOnce, Sightings, LogIsRightful, NoLostWakeUp, Serialized;
    match s
    case Land(t) => SpawningSome(w.triggers, [Trigger(t, Entering)]);
    case WriteBack(t, _) => SpawningSome(w.triggers, [Trigger(t, Entering)]);
    case Retry(order) =>
      SpawningSome(w.triggers, seq(|order|, k requires 0 <= k < |order| => Trigger(order[k], Entering)));
    case Dispatched(_, _) =>
    case SetStop(_) =>
    case _ =>
      MoversHaveEffects(w, s, s.i);
      hide Next;
      MovingKeepsOneHolder(w.triggers, s.i, Next(w, s).triggers[s.i].at);
  }

  lemma StepKeepsLog(w: World, s: Step)
    requires Inv(w) && Enabled(w, s)
    ensures LoggedOnce(Next(w, s).log)
  {
    if Mover(s).Some? {
      MoversHaveEffects(w, s, s.i);
      EffectKeepsLog(w, Next(w, s), s.i, EffectOf(w, s, s.i));
    }
  }

  lemma EffectKeepsLog(w: World, w': World, i: nat, e: Effect)
    requires OnePlace(w) && LoggedOnce(w.log) && i < |w.triggers| && HasEffect(w, w', i, e)
    ensures LoggedOnce(w'.log)
    ensures e.Dropping? || e.Releasing? ==> !Logged(w.log, w.triggers[i].task)
  {
    var t := w.triggers[i].task;
    if e.Dropping? || e.Releasing? {
      assert t in w.placed || Held(w.triggers, t);
      assert !Logged(w.log, t);
    }
  }

  lemma StepKeepsSightings(w: World, s: Step)
    requires Inv(w) && Enabled(w, s)
    ensures Sightings(Next(w, s))
  {
    hide Held, Logged, Awaited, OnePlace, OneHolder, LoggedOnce, LogIsRightful, NoLostWakeUp, Serialized;
    hide Sighting;
    var w' := Next(w, s);
    forall j | 0 <= j < |w'.triggers| ensures Sighting(w', w'.triggers[j]) {
      if j < |w.triggers| && w'.triggers[j] == w.triggers[j] {
        SightingCarries(w, s, w.triggers[j]);
      } else {
        FreshSighting(w, s, j);
      }
    }
  }

  lemma SightingCarries(w: World, s: Step, g: Trigger)
    requires Enabled(w, s) && Sighting(w, g)
    ensures Sighting(Next(w, s), g)
  {
  }

  lemma FreshSighting(w: World, s: Step, j: nat)
    requires OnePlace(w) && Sightings(w) && Enabled(w, s) && j < |Next(w, s).triggers|
    requires j < |w.triggers| ==> Next(w, s).triggers[j] != w.triggers[j]
    ensures Sighting(Next(w, s), Next(w, s).triggers[j])
  {
    if Mover(s).Some? {
      assert w.triggers[s.i].task in w.dispatches && Sighting(w, w.triggers[s.i]);
      MoverSighting(w, s, s.i);
    } else {
      hide Sightings, Sighting, Held, Logged;
      assert Next(w, s).triggers[j].at.Entering? && Next(w, s).triggers[j].task in w.dispatches;
      SpawnedSighting(w, s, Next(w, s).triggers[j]);
    }
  }

  lemma MoverSighting(w: World, s: Step, i: nat)
    requires Enabled(w, s) && Mover(s) == Some(i) && Sighting(w, w.triggers[i])
    ensures Sighting(Next(w, s), Next(w, s).triggers[i])
    ensures forall j :: 0 <= j < |w.triggers| && j != i ==> Next(w, s).triggers[j] == w.triggers[j]
    ensures |Next(w, s).triggers| == |w.triggers|
  {
  }

  lemma SpawnedSighting(w: World, s: Step, g: Trigger)
    requires Enabled(w, s) && Mover(s).None? && g.at.Entering? && g.task in w.dispatches
    ensures Sighting(Next(w, s), g)
  {
  }

  lemma StepKeepsLogRightful(w: World, s: Step)
    requires Inv(w) && Enabled(w, s)
    ensures LogIsRightful(Next(w, s))
  {
    hide Held, Awaited, OnePlace, OneHolder, LoggedOnce, NoLostWakeUp, Serialized, RightfulSettlement;
    var w' := Next(w, s);
    LogGrowsByOne(w, s);
    forall k | 0 <= k < |w'.log| ensures RightfulSettlement(w', w'.log[k]) {
      if k < |w.log| {
        assert w'.log[k] == w.log[k];
        SettlementCarries(w, s, k);
      } else {
        FreshSettlement(w, s);
      }
    }
    assert forall k :: 0 <= k < |w.log| ==> w'.log[k] == w.log[k];
    forall t | t in w'.merged ensures t in w'.landed && Logged(w'.log, t) {
      if t !in w.merged {
        assert w'.log[|w.log|].task == t;
      }
    }
  }

  lemma LogGrowsByOne(w: World, s: Step)
    requires OnePlace(w) && Enabled(w, s)
    ensures var w' := Next(w, s);
            && w.log <= w'.log && |w'.log| <= |w.log| + 1 && w.landed <= w'.landed
            && (w'.merged == w.merged
                || (w'.log != w.log && w'.merged == w.merged + {w'.log[|w.log|].task}
                    && w'.log[|w.log|].task in w.landed))
  {
    hide Logged;
    if Mover(s).Some? {
      MoversHaveEffects(w, s, s.i);
      assert Holds(w.triggers[s.i]) ==> Held(w.triggers, w.triggers[s.i].task);
    }
  }

  lemma SettlementCarries(w: World, s: Step, k: nat)
    requires Inv(w) && Enabled(w, s) && k < |w.log|
    ensures RightfulSettlement(Next(w, s), w.log[k])
  {
    hide Held, Awaited, OneHolder, LoggedOnce, NoLostWakeUp, Serialized, Sightings;
    var r := w.log[k];
    assert RightfulSettlement(w, r) && Logged(w.log, r.task);
    if Mover(s).Some? {
      MoversHaveEffects(w, s, s.i);
      EffectKeepsLog(w, Next(w, s), s.i, EffectOf(w, s, s.i));
    }
  }

  lemma FreshSettlement(w: World, s: Step)
    requires Inv(w) && Enabled(w, s) && |Next(w, s).log| > |w.log|
    ensures RightfulSettlement(Next(w, s), Next(w, s).log[|w.log|])
  {
    hide Held, Awaited, OneHolder, LoggedOnce, NoLostWakeUp, Serialized;
    MoversHaveEffects(w, s, s.i);
    assert Sighting(w, w.triggers[s.i]);
    EffectKeepsLog(w, Next(w, s), s.i, EffectOf(w, s, s.i));
  }

  lemma StepKeepsWakeUps(w: World, s: Step)
    requires Inv(w) && Enabled(w, s)
    ensures NoLostWakeUp(Next(w, s))
  {
    match s
    case Land(t) => LegKeepsWakeUps(w, s, t);
    case WriteBack(t, _) => LegKeepsWakeUps(w, s, t);
    case Retry(order) => RetryKeepsWakeUps(w, order);
    case Dispatched(t, _) => hide Held, Logged, Awaited, OneHolder, LoggedOnce, Sightings, LogIsRightful, Serialized;
    case SetStop(_) => hide Held, Logged, Awaited, OneHolder, LoggedOnce, Sightings, LogIsRightful, Serialized;
    case _ => MoveKeepsWakeUps(w, s, s.i);
  }

  lemma LegKeepsWakeUps(w: World, s: Step, t: TaskId)
    requires NoLostWakeUp(w) && Enabled(w, s) && (s.Land? || s.WriteBack?) && s.task == t
    ensures NoLostWakeUp(Next(w, s))
  {
    var more := [Trigger(t, Entering)];
    SpawningSome(w.triggers, more);
    assert more[0].task == t;
    hide Awaited;
  }

  lemma RetryKeepsWakeUps(w: World, order: seq<TaskId>)
    requires Enabled(w, Retry(order))
    ensures NoLostWakeUp(Next(w, Retry(order)))
  {
    var more := seq(|order|, k requires 0 <= k < |order| => Trigger(order[k], Entering));
    SpawningSome(w.triggers, more);
    hide Awaited;
    forall t | t in w.placed ensures Awaited(w.triggers + more, t) {
      var k :| 0 <= k < |order| && order[k] == t;
      assert more[k].task == t;
    }
  }

  lemma MoveKeepsWakeUps(w: World, s: Step, i: nat)
    requires Inv(w) && Enabled(w, s) && Mover(s) == Some(i)
    ensures NoLostWakeUp(Next(w, s))
  {
    hide Held, Logged, Awaited, OnItsWay, Holds, OnePlace, OneHolder, LoggedOnce, Sightings, LogIsRightful, Serialized;
    hide Next, EffectOf;
    var w' := Next(w, s);
    MoversHaveEffects(w, s, i);
    MovingOne(w.triggers, i, w'.triggers[i].at);
    MoverIsCovered(w, s, i);
    OtherTasksUnmoved(w, w', i);
  }

  lemma OtherTasksUnmoved(w: World, w': World, i: nat)
    requires NoLostWakeUp(w) && i < |w.triggers| && w'.dispatches == w.dispatches && w'.baselined == w.baselined
    requires forall t :: t != w.triggers[i].task ==> Awaited(w'.triggers, t) == Awaited(w.triggers, t)
    requires var t := w.triggers[i].task;
             w'.halted - {t} == w.halted - {t} && w'.early - {t} == w.early - {t} && w'.placed - {t} == w.placed - {t}
    ensures forall t :: t != w.triggers[i].task ==>
              && (t in w'.placed && t in w'.baselined && IsDone(w', t) ==> Awaited(w'.triggers, t) || t in w'.halted)
              && (t in w'.placed && t in w'.baselined && !IsDone(w', t) ==> Awaited(w'.triggers, t) || t in w'.early)
              && (t in w'.halted ==> t in w'.placed && IsDone(w', t)) && (t in w'.early ==> t in w'.placed)
  {
    hide Awaited;
    var u := w.triggers[i].task;
    forall t | t != u
      ensures (t in w'.placed <==> t in w.placed) && (t in w'.halted <==> t in w.halted)
      ensures t in w'.early <==> t in w.early
    {
      assert t in w'.placed <==> t in w'.placed - {u};
      assert t in w'.halted <==> t in w'.halted - {u};
      assert t in w'.early <==> t in w'.early - {u};
    }
  }

  /** The task of the moving trigger itself. */
  lemma MoverIsCovered(w: World, s: Step, i: nat)
    requires Inv(w) && Enabled(w, s) && Mover(s) == Some(i)
    ensures var w', t := Next(w, s), w.triggers[i].task;
            && (t in w'.placed && t in w.baselined && IsDone(w, t) ==> OnItsWay(w'.triggers[i]) || t in w'.halted)
            && (t in w'.placed && t in w.baselined && !IsDone(w, t) ==> OnItsWay(w'.triggers[i]) || t in w'.early)
            && (t in w'.halted ==> t in w'.placed && IsDone(w, t)) && (t in w'.early ==> t in w'.placed)
            && w'.halted - {t} == w.halted - {t} && w'.early - {t} == w.early - {t} && w'.placed - {t} == w.placed - {t}
  {
    hide Logged, Awaited, OneHolder, LoggedOnce, Serialized;
    var t := w.triggers[i].task;
    assert Sighting(w, w.triggers[i]);
    assert Holds(w.triggers[i]) ==> Held(w.triggers, t);
    hide Held;
  }

  lemma StepKeepsSerialized(w: World, s: Step)
    requires Inv(w) && Enabled(w, s)
    ensures Serialized(Next(w, s)) && LockIsHeld(Next(w, s))
  {
    hide OneHolder, OnePlace, LoggedOnce, Sightings, LogIsRightful, NoLostWakeUp;
    if Mover(s).Some? {
      MoveKeepsSerialized(w, s, s.i);
    }
  }

  lemma MoveKeepsSerialized(w: World, s: Step, i: nat)
    requires Serialized(w) && LockIsHeld(w) && Enabled(w, s) && Mover(s) == Some(i)
    ensures Serialized(Next(w, s)) && LockIsHeld(Next(w, s))
  {
    MoverLocks(w, s, i);
    hide Next;
  }

  lemma MoverLocks(w: World, s: Step, i: nat)
    requires Serialized(w) && Enabled(w, s) && Mover(s) == Some(i)
    ensures var w' := Next(w, s);
            && |w'.triggers| == |w.triggers|
            && (forall j :: 0 <= j < |w.triggers| && j != i ==> w'.triggers[j] == w.triggers[j])
            && (if w'.triggers[i].at.Merging? then w'.serial == Some(i) && w.serial.None?
                else if w.triggers[i].at.Merging? then w'.serial.None?
                else w'.serial == w.serial)
  {
    hide Serialized;
    assert w.triggers[i].at.Merging? ==> !s.Lock?;
  }

  lemma StepKeeps(w: World, s: Step)
    requires Inv(w) && Enabled(w, s)
    ensures Inv(Next(w, s))
  {
    StepKeepsOnePlace(w, s);
    StepKeepsOneHolder(w, s);
    StepKeepsLog(w, s);
    StepKeepsSightings(w, s);
    StepKeepsLogRightful(w, s);
    StepKeepsWakeUps(w, s);
    StepKeepsSerialized(w, s);
    hide OnePlace, OneHolder, LoggedOnce, Sightings, LogIsRightful, NoLostWakeUp, Serialized, LockIsHeld, Next;
  }

  // ---- Runs ----

  ghost predicate CanRun(w: World, steps: seq<Step>)
    decreases |steps|
  {
    steps == [] || (Enabled(w, steps[0]) && CanRun(Next(w, steps[0]), steps[1..]))
  }

  ghost function Run(w: World, steps: seq<Step>): World
    requires CanRun(w, steps)
    decreases |steps|
  {
    if steps == [] then w else Run(Next(w, steps[0]), steps[1..])
  }

  const OPENING := World(map[], {}, false, {}, {}, None, [], {}, [], {}, {})

  lemma {:induction false} RunKeeps(w: World, steps: seq<Step>)
    requires Inv(w) && CanRun(w, steps)
    ensures Inv(Run(w, steps))
    decreases |steps|
  {
    hide Inv, Next, Enabled;
    if steps != [] {
      StepKeeps(w, steps[0]);
      RunKeeps(Next(w, steps[0]), steps[1..]);
    }
  }

  ghost predicate AtRest(w: World) {
    forall i :: 0 <= i < |w.triggers| ==> w.triggers[i].at.Ended?
  }

  /** Main result: in every interleaving each archive is settled at most once, and
      merged only when its dispatch is done, its archive has landed and it is
      under the archive pipeline. */
  lemma NeverSettledTwice(steps: seq<Step>, j: nat, k: nat)
    requires CanRun(OPENING, steps)
    requires var log := Run(OPENING, steps).log;
             j < |log| && k < |log| && log[j].task == log[k].task
    ensures j == k
    ensures var end := Run(OPENING, steps);
            var t := end.log[j].task;
            t in end.landed && t in end.baselined && (end.log[j].outcome.Merged? ==> IsDone(end, t))
  {
    RunKeeps(OPENING, steps);
    hide CanRun, Run;
    var end := Run(OPENING, steps);
    assert Logged(end.log, end.log[j].task) && RightfulSettlement(end, end.log[j]);
  }

  /** Once all triggers have ended, a landed archive is settled or still placed. */
  lemma RestingArchives(w: World, t: TaskId)
    requires Inv(w) && AtRest(w) && t in w.landed
    ensures Logged(w.log, t) <==> t !in w.placed
    ensures t in w.placed <==> t !in w.baselined || w.dispatches[t].InFlight? || t in w.halted || t in w.early
  {
    assert !Held(w.triggers, t) && !Awaited(w.triggers, t);
    if Logged(w.log, t) {
      var k :| 0 <= k < |w.log| && w.log[k].task == t;
      assert RightfulSettlement(w, w.log[k]);
    }
  }

  // ---- The emergency stop and the retry after its release ----

  ghost predicate Undisturbed(steps: seq<Step>) {
    forall k :: 0 <= k < |steps| ==> !(steps[k].SetStop? && steps[k].on)
  }

  /** Not stopped, nothing halted, and none of the tasks was tried too early. */
  ghost predicate CaughtUp(w: World, dead: set<TaskId>) {
    && !w.stopped && w.halted == {}
    && forall t :: t in dead ==> IsDead(w, t) && t !in w.early
  }

  lemma StepStaysCaughtUp(w: World, s: Step, dead: set<TaskId>)
    requires CaughtUp(w, dead) && Enabled(w, s) && !(s.SetStop? && s.on)
    ensures CaughtUp(Next(w, s), dead)
  {
  }

  lemma {:induction false} RunStaysCaughtUp(w: World, steps: seq<Step>, dead: set<TaskId>)
    requires CaughtUp(w, dead) && CanRun(w, steps) && Undisturbed(steps)
    ensures CaughtUp(Run(w, steps), dead)
    decreases |steps|
  {
    hide CaughtUp, Next, Enabled;
    if steps != [] {
      StepStaysCaughtUp(w, steps[0], dead);
      RunStaysCaughtUp(Next(w, steps[0]), steps[1..], dead);
    }
  }

  /** Main result: nothing the stop held back is lost. After a release, the retry
      over the placed table and whatever follows it, every archive whose dispatch
      is done is settled, and so is every one whose dispatch was already dead. */
  lemma RetryCatchesUp(w: World, order: seq<TaskId>, rest: seq<Step>, t: TaskId)
    requires Inv(w) && !w.stopped && Enabled(w, Retry(order)) && CanRun(Next(w, Retry(order)), rest)
    requires Undisturbed(rest)
    requires var end := Run(Next(w, Retry(order)), rest);
             AtRest(end) && t in end.landed && t in end.baselined && (IsDone(end, t) || IsDead(w, t))
    ensures Logged(Run(Next(w, Retry(order)), rest).log, t)
  {
    var w1 := Next(w, Retry(order));
    var dead := if IsDead(w, t) then {t} else {};
    StepKeeps(w, Retry(order));
    RunKeeps(w1, rest);
    RunStaysCaughtUp(w1, rest, dead);
    var end := Run(w1, rest);
    hide CanRun, Run, Next, Logged;
    EndedInTime(end, t);
  }

  lemma EndedInTime(w: World, t: TaskId)
    requires Inv(w) && AtRest(w) && t in w.landed && t in w.baselined && w.halted == {}
    requires IsDone(w, t) || (IsDead(w, t) && t !in w.early)
    ensures Logged(w.log, t)
  {
    RestingArchives(w, t);
    assert !Awaited(w.triggers, t);
  }

  // ---- Nothing in the way ----

  /** No stop, and every change set that gets as far as a trigger's hands merges. */
  ghost predicate Smooth(steps: seq<Step>) {
    forall k :: 0 <= k < |steps| ==> SmoothStep(steps[k])
  }

  ghost predicate SmoothStep(s: Step) {
    && !(s.SetStop? && s.on)
    && !s.SettleEarly?
    && (s.SettleLocked? ==> s.outcome.Merged?)
  }

  ghost predicate OnlyMerges(w: World) {
    forall k :: 0 <= k < |w.log| ==> w.log[k].outcome.Merged? || IsDead(w, w.log[k].task)
  }

  lemma StepOnlyMerges(w: World, s: Step)
    requires Sightings(w) && OnlyMerges(w) && Enabled(w, s) && SmoothStep(s)
    ensures OnlyMerges(Next(w, s))
  {
    if s.DropDead? {
      assert Sighting(w, w.triggers[s.i]);
    }
  }

  lemma {:induction false} RunOnlyMerges(w: World, steps: seq<Step>)
    requires Inv(w) && OnlyMerges(w) && CanRun(w, steps) && Smooth(steps)
    ensures OnlyMerges(Run(w, steps))
    decreases |steps|
  {
    hide Next, Enabled, OnlyMerges, SmoothStep, LoggedOnce, OnePlace, OneHolder, NoLostWakeUp, Serialized;
    if steps != [] {
      assert SmoothStep(steps[0]);
      StepKeeps(w, steps[0]);
      StepOnlyMerges(w, steps[0]);
      RunOnlyMerges(Next(w, steps[0]), steps[1..]);
    }
  }

  lemma RestingMerges(w: World, t: TaskId)
    requires Inv(w) && AtRest(w) && OnlyMerges(w) && w.halted == {}
    ensures t in w.merged <==> t in w.landed && t in w.baselined && IsDone(w, t)
  {
    assert LogIsRightful(w);
    if t in w.landed && t in w.baselined && IsDone(w, t) {
      EndedInTime(w, t);
    }
    hide Inv, AtRest;
    if Logged(w.log, t) {
      var k :| 0 <= k < |w.log| && w.log[k].task == t;
      assert RightfulSettlement(w, w.log[k]);
    }
  }

  /** Main result, the rendezvous: with nothing in the way, whichever leg comes
      last and however the triggers interleave, once they have ended a task is
      merged if and only if its archive landed and its dispatch is done. */
  lemma WhicheverLegComesLastMerges(steps: seq<Step>, t: TaskId)
    requires CanRun(OPENING, steps) && Smooth(steps) && AtRest(Run(OPENING, steps))
    ensures var end := Run(OPENING, steps);
            t in end.merged <==> t in end.landed && t in end.baselined && IsDone(end, t)
  {
    OpeningIsFine();
    hide CanRun, Run, Inv, AtRest, OnlyMerges;
    RunKeeps(OPENING, steps);
    RunStaysCaughtUp(OPENING, steps, {});
    RunOnlyMerges(OPENING, steps);
    RestingMerges(Run(OPENING, steps), t);
  }

  lemma OpeningIsFine()
    ensures Inv(OPENING) && OnlyMerges(OPENING) && CaughtUp(OPENING, {})
  {
  }

  // ---- Triggers end ----

  function Remaining(at: Place): nat {
    match at
    case Entering => 6
    case Unmerged => 5
    case SawDone => 4
    case Unhalted => 3
    case Holding => 2
    case SawDead => 1
    case Merging => 1
    case Ended => 0
  }

  function Work(gs: seq<Trigger>): nat {
    if gs == [] then 0 else Work(gs[..|gs| - 1]) + Remaining(gs[|gs| - 1].at)
  }

  lemma {:induction false} WorkMoves(gs: seq<Trigger>, i: nat, g: Trigger)
    requires i < |gs|
    ensures Work(gs[i := g]) == Work(gs) - Remaining(gs[i].at) + Remaining(g.at)
  {
    var n := |gs| - 1;
    if i < n {
      assert gs[i := g][..n] == gs[..n][i := g];
      WorkMoves(gs[..n], i, g);
    } else {
      assert gs[i := g][..n] == gs[..n];
    }
  }

  lemma MovesFinish(w: World, s: Step)
    requires Enabled(w, s) && Mover(s).Some?
    ensures Work(Next(w, s).triggers) < Work(w.triggers)
  {
    hide Work;
    WorkMoves(w.triggers, s.i, Next(w, s).triggers[s.i]);
  }

  /** Main result: the triggers cannot wait for each other for ever. While one has
      not ended some trigger can move, and at most six moves each are left. */
  lemma SomeTriggerCanMove(w: World) returns (s: Step)
    requires Inv(w) && !AtRest(w)
    ensures Mover(s).Some? && Enabled(w, s) && Work(Next(w, s).triggers) < Work(w.triggers)
  {
    hide OnePlace, OneHolder, LoggedOnce, LogIsRightful, NoLostWakeUp;
    var i :| 0 <= i < |w.triggers| && !w.triggers[i].at.Ended?;
    assert Sighting(w, w.triggers[i]);
    s := NextMoveOf(w, i);
    MovesFinish(w, s);
  }

  function NextMoveOf(w: World, i: nat): Step
    requires i < |w.triggers| && !w.triggers[i].at.Ended?
  {
    match w.triggers[i].at
    case Entering => CheckMerged(i)
    case Unmerged => ReadDispatch(i)
    case SawDone => CheckStop(i)
    case SawDead => DropDead(i)
    case Unhalted => Take(i)
    case Holding => if w.serial.Some? then SettleLocked(w.serial.value, Parked) else Lock(i)
    case _ => SettleLocked(i, Parked)
  }

  lemma {:induction false} TriggersEnd(w: World, steps: seq<Step>)
    requires CanRun(w, steps) && forall k :: 0 <= k < |steps| ==> Mover(steps[k]).Some?
    ensures |steps| <= Work(w.triggers) <= 6 * |w.triggers|
    decreases |steps|
  {
    hide Next, Enabled;
    WorkIsBounded(w.triggers);
    if steps != [] {
      assert Mover(steps[0]).Some?;
      MovesFinish(w, steps[0]);
      TriggersEnd(Next(w, steps[0]), steps[1..]);
    }
  }

  lemma {:induction false} WorkIsBounded(gs: seq<Trigger>)
    ensures Work(gs) <= 6 * |gs|
  {
    if gs != [] {
      WorkIsBounded(gs[..|gs| - 1]);
    }
  }

  // ---- A trigger left alone ----

  /** The world shows the same tables as the desk. */
  ghost predicate Shows(w: World, d: Desk.Desk) {
    && w.placed == d.placed.Keys && w.merged == d.merged && w.stopped == d.stopped
    && w.baselined == d.store.baselines.Keys && w.dispatches.Keys == d.store.dispatches.Keys
    && forall t :: t in w.dispatches ==> w.dispatches[t] == d.store.dispatches[t].state
  }

  function OutcomeOf(a: Desk.Attempt): Outcome {
    match a
    case AttemptMerged => Merged
    case AttemptSuperseded => Superseded
    case FrozenDeferred => Queued
    case AutoResolveStarted => HandedOver
    case _ => Parked
  }

  lemma {:induction false} Extend(w: World, steps: seq<Step>, s: Step)
    requires CanRun(w, steps) && Enabled(Run(w, steps), s)
    ensures CanRun(w, steps + [s]) && Run(w, steps + [s]) == Next(Run(w, steps), s)
    decreases |steps|
  {
    if steps == [] {
      assert [s][1..] == [];
    } else {
      assert (steps + [s])[1..] == steps[1..] + [s];
      Extend(Next(w, steps[0]), steps[1..], s);
    }
  }

  /** Only trigger i moves. */
  ghost predicate GetsTo(w: World, i: nat, steps: seq<Step>, w': World) {
    && CanRun(w, steps)
    && (forall k :: 0 <= k < |steps| ==> Mover(steps[k]) == Some(i))
    && Run(w, steps) == w'
  }

  /** One more move of trigger i. */
  lemma MoveOn(w: World, i: nat, steps: seq<Step>, cur: World, s: Step) returns (more: seq<Step>, next: World)
    requires GetsTo(w, i, steps, cur) && Mover(s) == Some(i) && Enabled(cur, s)
    ensures next == Next(cur, s) && GetsTo(w, i, more, next)
  {
    Extend(w, steps, s);
    more, next := steps + [s], Next(cur, s);
  }

  /** A trigger that nothing turns away reaches the placed table. */
  lemma AloneToTheTable(w: World, i: nat) returns (steps: seq<Step>)
    requires IsAt(w, i, Entering)
    requires var t := w.triggers[i].task;
             t in w.baselined && t !in w.merged && IsDone(w, t) && !w.stopped
    ensures GetsTo(w, i, steps, Move(w, i, Unhalted))
  {
    steps := [];
    var cur := w;
    assert GetsTo(w, i, steps, cur);
    hide CanRun, Run, GetsTo;
    steps, cur := MoveOn(w, i, steps, cur, CheckMerged(i));
    steps, cur := MoveOn(w, i, steps, cur, ReadDispatch(i));
    steps, cur := MoveOn(w, i, steps, cur, CheckStop(i));
    assert cur.triggers == Move(w, i, Unhalted).triggers;
  }

  /** From the table on, with the change set in it. */
  lemma AloneFromTheTable(w: World, i: nat, sofar: seq<Step>, o: Outcome) returns (steps: seq<Step>)
    requires i < |w.triggers| && GetsTo(w, i, sofar, Move(w, i, Unhalted))
    requires w.triggers[i].task in w.placed && w.serial.None?
    ensures var t := w.triggers[i].task;
            GetsTo(w, i, steps, Settle(TakeOut(Move(w, i, Ended), t), t, o))
  {
    hide CanRun, Run, GetsTo;
    var cur := Move(w, i, Unhalted);
    steps := sofar;
    steps, cur := MoveOn(w, i, steps, cur, Take(i));
    if o.Queued? {
      steps, cur := MoveOn(w, i, steps, cur, SettleEarly(i, o));
    } else {
      steps, cur := MoveOn(w, i, steps, cur, Lock(i));
      steps, cur := MoveOn(w, i, steps, cur, SettleLocked(i, o));
    }
    assert cur.triggers == Move(w, i, Ended).triggers;
  }

  /** What a trigger that goes away empty-handed leaves. */
  ghost function TurnedAway(w: World, i: nat, t: TaskId): World
    requires i < |w.triggers|
  {
    var gone := Move(w, i, Ended);
    if t !in w.baselined || t in w.merged || t !in w.placed then gone
    else if IsDead(w, t) then Settle(TakeOut(gone, t), t, Superseded)
    else if IsDone(w, t) then gone.(halted := w.halted + {t})
    else gone.(early := w.early + {t})
  }

  lemma AloneTurnedAway(w: World, i: nat) returns (steps: seq<Step>)
    requires IsAt(w, i, Entering) && w.triggers[i].task in w.dispatches
    requires var t := w.triggers[i].task;
             t !in w.baselined || t in w.merged || !IsDone(w, t) || w.stopped || t !in w.placed
    ensures GetsTo(w, i, steps, TurnedAway(w, i, w.triggers[i].task))
  {
    var t := w.triggers[i].task;
    steps := [];
    var cur := w;
    assert GetsTo(w, i, steps, cur);
    hide CanRun, Run, GetsTo;
    steps, cur := MoveOn(w, i, steps, cur, CheckMerged(i));
    if t in w.baselined && t !in w.merged {
      steps, cur := MoveOn(w, i, steps, cur, ReadDispatch(i));
      if IsDone(w, t) {
        steps, cur := MoveOn(w, i, steps, cur, CheckStop(i));
        if !w.stopped {
          steps, cur := MoveOn(w, i, steps, cur, Take(i));
        }
      } else if IsDead(w, t) {
        steps, cur := MoveOn(w, i, steps, cur, DropDead(i));
      }
    }
    assert cur.triggers == Move(w, i, Ended).triggers;
  }

  /** The desk's one-piece trigger is what a trigger does when left alone. */
  lemma TriggerAloneIsAtomic(w: World, d: Desk.Desk, i: nat, weather: Desk.Weather) returns (steps: seq<Step>)
    requires Shows(w, d) && w.serial.None? && IsAt(w, i, Entering) && w.triggers[i].task in w.dispatches
    ensures CanRun(w, steps) && forall k :: 0 <= k < |steps| ==> Mover(steps[k]) == Some(i)
    ensures var t, w' := w.triggers[i].task, Run(w, steps);
            var (d', a) := Desk.MergeAndMaybeReview(d, t, weather);
            && IsAt(w', i, Ended) && Shows(w', d')
            && w'.log == (if t in w.placed && t !in d'.placed then w.log + [Settlement(t, OutcomeOf(a))] else w.log)
  {
    var t := w.triggers[i].task;
    var (d', a) := Desk.MergeAndMaybeReview(d, t, weather);
    if t !in w.baselined || t in w.merged || !IsDone(w, t) || w.stopped || t !in w.placed {
      steps := AloneTurnedAway(w, i);
    } else {
      steps := AloneToTheTable(w, i);
      steps := AloneFromTheTable(w, i, steps, OutcomeOf(a));
      SettlingTouches(d.(placed := d.placed - {t}), t, d.store.dispatches[t].issue, d.placed[t], weather);
    }
    hide CanRun, Run, Desk.SettleTaken;
  }

  lemma SettlingTouches(d: Desk.Desk, t: TaskId, issue: Desk.IssueId, change: Desk.ChangeSet, weather: Desk.Weather)
    ensures var (d', a) := Desk.SettleTaken(d, t, issue, change, weather);
            && d'.placed == d.placed && d'.store == d.store && d'.stopped == d.stopped
            && d'.merged == (if OutcomeOf(a).Merged? then d.merged + {t} else d.merged)
  {
  }
}
