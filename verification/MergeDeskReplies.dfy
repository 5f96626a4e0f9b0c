/** What the answers of the merge desk tell: each reply against what really happened to
    the change sets, and the change merged against the change landed. */
module MergeDeskReplies {
  import opened Wrappers
  import opened MergeDesk
  import opened MergeDeskRuns

  // ---- The summary of a resume ----

  /** The tasks of the records of one kind, in order. */
  function TasksOf(trail: seq<Record>, kind: Record -> bool): seq<TaskId> {
    if trail == [] then []
    else
      var r := trail[|trail| - 1];
      TasksOf(trail[..|trail| - 1], kind) + (if kind(r) then [r.task] else [])
  }

  const MERGED := (r: Record) => r.MergedIn?
  const SUPERSEDED := (r: Record) => r.Superseded?
  const PARKED := (r: Record) => r.Parked?

  lemma {:induction false} TasksConcat(a: seq<Record>, b: seq<Record>, kind: Record -> bool)
    ensures TasksOf(a + b, kind) == TasksOf(a, kind) + TasksOf(b, kind)
  {
    if b == [] {
      assert a + b == a;
    } else {
      var n := |b| - 1;
      assert (a + b)[..|a| + n] == a + b[..n];
      TasksConcat(a, b[..n], kind);
    }
  }

  lemma TasksOfOne(r: Record, kind: Record -> bool)
    ensures TasksOf([r], kind) == if kind(r) then [r.task] else []
  {
    assert [r][..0] == [];
  }

  /** The summary has gained exactly what these records say. */
  ghost predicate Tells(sofar: Summary, s: Summary, gained: seq<Record>) {
    && s.merged == sofar.merged + |TasksOf(gained, MERGED)|
    && s.superseded == sofar.superseded + |TasksOf(gained, SUPERSEDED)|
    && s.parked == sofar.parked + TasksOf(gained, PARKED)
  }

  lemma RecordOfReplay(d: Desk, p: ProjectId, e: Pending, w: Weather)
    requires p < |d.projects|
    ensures var (d', r) := ReplayOne(d, p, e, w);
            && d'.trail != []
            && var record := d'.trail[|d'.trail| - 1];
               && (r.ReplayMerged? <==> record.MergedIn?) && (r.ReplaySuperseded? <==> record.Superseded?)
               && (r.ReplayParked? || r.RefrozenConflict? <==> record.Parked?)
  {
  }

  lemma OneTells(d: Desk, p: ProjectId, e: Pending, w: Weather, sofar: Summary)
    requires p < |d.projects|
    ensures var (d', r) := ReplayOne(d, p, e, w);
            && |d'.trail| == |d.trail| + 1 && d'.trail[..|d.trail|] == d.trail
            && Tells(sofar, Tally(sofar, e.task, r), [d'.trail[|d.trail|]])
  {
    hide ReplayOne;
    ReplayOneRecords(d, p, e, w);
    RecordOfReplay(d, p, e, w);
    var record := ReplayOne(d, p, e, w).0.trail[|d.trail|];
    TasksOfOne(record, MERGED);
    TasksOfOne(record, SUPERSEDED);
    TasksOfOne(record, PARKED);
    hide TasksOf;
  }

  lemma TellsOn(s0: Summary, s1: Summary, s2: Summary, r: Record, later: seq<Record>)
    requires Tells(s0, s1, [r]) && Tells(s1, s2, later)
    ensures Tells(s0, s2, [r] + later)
  {
    hide TasksOf;
    TasksConcat([r], later, MERGED);
    TasksConcat([r], later, SUPERSEDED);
    TasksConcat([r], later, PARKED);
  }

  lemma {:induction false} RoundTells(d: Desk, p: ProjectId, pops: seq<bool>, ws: seq<Weather>, sofar: Summary)
    requires p < |d.projects| && |ws| == |d.projects[p].pending| && |pops| == |ws| + 1
    ensures var (d', s, _) := ReplayFrom(d, p, pops, ws, sofar);
            d.trail <= d'.trail && Tells(sofar, s, d'.trail[|d.trail|..])
    decreases |ws|
  {
    hide ReplayOne, Tally, Tells;
    var (d', s, end) := ReplayFrom(d, p, pops, ws, sofar);
    if pops[0] && ws != [] {
      var e := d.projects[p].pending[0];
      var (d1, r) := ReplayOne(Pop(d, p), p, e, ws[0]);
      ReplayOneKeepsQueues(Pop(d, p), p, e, ws[0]);
      OneTells(Pop(d, p), p, e, ws[0], sofar);
      var record := d1.trail[|d.trail|];
      assert d1.trail == d.trail + [record];
      if r.RefrozenConflict? {
        assert d'.trail[|d.trail|..] == [record];
      } else {
        RoundTells(d1, p, pops[1..], ws[1..], Tally(sofar, e.task, r));
        TellsOn(sofar, Tally(sofar, e.task, r), s, record, d'.trail[|d1.trail|..]);
        assert d'.trail[|d.trail|..] == [record] + d'.trail[|d1.trail|..];
      }
    } else {
      assert d'.trail[|d.trail|..] == [];
      NothingTold(sofar);
    }
  }

  lemma NothingTold(s: Summary)
    ensures Tells(s, s, [])
  {
  }

  /** Main result: the summary that a resume answers with counts exactly the records it
      left: so many merged, so many superseded, and these parked, in order. */
  lemma SummaryCountsTheRecords(d: Desk, p: ProjectId, x: ResumeWeather)
    requires p < |d.projects| ==> Fits(x, d.projects[p].pending)
    requires ReplayPendingMerges(d, p, x).1.Replayed?
    ensures var (d', r) := ReplayPendingMerges(d, p, x);
            && d.trail <= d'.trail
            && var gained := d'.trail[|d.trail|..];
               && r.summary.merged == |TasksOf(gained, MERGED)|
               && r.summary.superseded == |TasksOf(gained, SUPERSEDED)|
               && r.summary.parked == TasksOf(gained, PARKED)
  {
    RoundTells(SetFrozen(d, p, false), p, x.pops, x.entries, EMPTY_SUMMARY);
    hide ReplayFrom, TasksOf;
  }

  lemma RoundEndsAsTold(d: Desk, p: ProjectId, pops: seq<bool>, ws: seq<Weather>)
    requires p < |d.projects| && |ws| == |d.projects[p].pending| && |pops| == |ws| + 1 && !d.projects[p].frozen
    ensures var (d', s, end) := ReplayFrom(d, p, pops, ws, EMPTY_SUMMARY);
            p < |d'.projects| && (end.QueueEmpty? ==> d'.projects[p].pending == []) && (end.Refroze? ==> s.refrozen)
  {
    ReplayIsFifo(d, p, pops, ws, EMPTY_SUMMARY);
    hide ReplayFrom;
    assert d.projects[p].pending[|d.projects[p].pending|..] == [];
  }

  /** A resume that is refused or cannot lift the freeze changes nothing, one that cannot
      commit only lifts it, one whose pop fails has left entries queued or none to
      take, and one that answers with a summary has emptied the queue or met a
      conflict. */
  lemma ResumeReplyTells(d: Desk, p: ProjectId, x: ResumeWeather)
    requires p < |d.projects| ==> Fits(x, d.projects[p].pending)
    ensures var (d', r) := ReplayPendingMerges(d, p, x);
            && (r.Refused? <==> d.stopped || p >= |d.projects| || (d.projects[p].frozen && !d.projects[p].hasDirectory))
            && (r.NotFrozen? <==> !d.stopped && p < |d.projects| && !d.projects[p].frozen)
            && (r.Refused? || r.NotFrozen? || r.UnfreezeFailed? ==> d' == d)
            && (r.CommitFailed? ==> d.projects[p].frozen && d' == SetFrozen(d, p, false))
            && (d.trail < d'.trail ==> r.PopFailed? || r.Replayed?)
            && (r.Replayed? ==> p < |d'.projects| && (d'.projects[p].pending == [] || r.summary.refrozen))
            && (r.PopFailed? || r.Replayed? ==> Replays(d, p, x))
  {
    if Replays(d, p, x) {
      RoundEndsAsTold(SetFrozen(d, p, false), p, x.pops, x.entries);
      hide ReplayFrom;
      var (d2, s, end) := ReplayFrom(SetFrozen(d, p, false), p, x.pops, x.entries, EMPTY_SUMMARY);
      assert ReplayPendingMerges(d, p, x) == (d2, if end.PopBroke? then PopFailed else Replayed(s));
    }
    hide ReplayFrom;
  }

  // ---- The answer of a trigger ----

  /** The change set of t waits behind a freeze. */
  ghost predicate IsDeferred(d: Desk, t: TaskId) {
    exists p :: 0 <= p < |d.projects| && Queued(d.projects[p].pending, t)
  }

  lemma DeferringTells(d: Desk, p: ProjectId, e: Pending)
    requires p < |d.projects|
    ensures IsDeferred(Enqueue(d, p, e), e.task)
  {
    var d' := Enqueue(d, p, e);
    if d' != d {
      var q := d'.projects[p].pending;
      assert q[|q| - 1].task == e.task;
    }
    assert Queued(d'.projects[p].pending, e.task);
  }

  /** What a trigger leaves when it has taken the change set. */
  lemma SettlingTells(d: Desk, t: TaskId, issue: IssueId, change: ChangeSet, w: Weather)
    requires t !in d.merged
    ensures var (d', a) := SettleTaken(d, t, issue, change, w);
            && (a.AttemptMerged? <==> t in d'.merged)
            && (a.AttemptMerged? ==> d'.trail == d.trail + [MergedIn(t, change)])
            && (a.AttemptSuperseded? <==> d'.trail == d.trail + [Superseded(t)])
            && (a.AttemptParked? <==> d'.trail == d.trail + [Parked(t)])
            && (a.AutoResolveStarted? <==> d'.trail == d.trail + [HandedToResolver(t)])
            && (a.FrozenDeferred? <==> d'.trail == d.trail)
            && (a.FrozenDeferred? ==> IsDeferred(d', t))
            && (a.AttemptMerged? || a.AttemptSuperseded? || a.AttemptParked? || a.AutoResolveStarted?
                || a.FrozenDeferred?)
  {
    var p := ProjectOf(d, issue);
    if p.Some? {
      DeferringTells(d, p.value, Pending(t, issue, change));
    }
    hide IsDeferred;
    assert (d.trail + [MergedIn(t, change)])[|d.trail|] == MergedIn(t, change);
    assert (d.trail + [Superseded(t)])[|d.trail|] == Superseded(t);
    assert (d.trail + [Parked(t)])[|d.trail|] == Parked(t);
    assert (d.trail + [HandedToResolver(t)])[|d.trail|] == HandedToResolver(t);
  }

  /** What the answer says of t is so. */
  ghost predicate IsTrue(d: Desk, t: TaskId, d': Desk, a: Attempt) {
    && (a.AttemptMerged? <==> t in d'.merged && t in d.store.baselines)
    && (a.AttemptParked? <==> d'.trail == d.trail + [Parked(t)])
    && (a.AutoResolveStarted? <==> d'.trail == d.trail + [HandedToResolver(t)])
    && (a.AttemptSuperseded? && t in d.placed ==> d'.trail == d.trail + [Superseded(t)])
    && (d'.trail == d.trail + [Superseded(t)] ==> a.AttemptSuperseded?)
    && (a.FrozenDeferred? ==> IsDeferred(d', t) && t !in d'.placed)
    && (t in d.placed && t !in d'.placed && d'.trail == d.trail ==> a.FrozenDeferred?)
    && (a.WaitingDispatch? ==> d' == d && t in d.store.dispatches && d.store.dispatches[t].state.InFlight?)
    && (a.EstopHalted? ==> d' == d && d.stopped && IsDone(d, t))
    && (a.WaitingChangeset? ==> d' == d && !d.stopped && IsDone(d, t) && t !in d.placed)
    && (a.NotArchivePipeline? ==> d' == d && (t !in d.store.baselines || t !in d.store.dispatches))
    && (t in d'.placed <==> t in d.placed && d' == d)
  }

  /** Nothing stands between the trigger and the change set. */
  predicate TakesOut(d: Desk, t: TaskId) {
    && t in d.store.baselines && t !in d.merged && IsDone(d, t) && !d.stopped && t in d.placed
  }

  lemma TakenIsTrue(d: Desk, t: TaskId, w: Weather)
    requires TakesOut(d, t)
    ensures var (d', a) := MergeAndMaybeReview(d, t, w); IsTrue(d, t, d', a)
  {
    var d1, issue := d.(placed := d.placed - {t}), d.store.dispatches[t].issue;
    SettlingTells(d1, t, issue, d.placed[t], w);
    SettlingPlacesNothing(d1, t, issue, d.placed[t], w);
    hide SettleTaken, IsDeferred;
  }

  lemma UntakenIsTrue(d: Desk, t: TaskId, w: Weather)
    requires !TakesOut(d, t)
    ensures var (d', a) := MergeAndMaybeReview(d, t, w); IsTrue(d, t, d', a)
  {
    hide SettleTaken, IsDeferred;
    assert |d.trail| < |d.trail + [Superseded(t)]| == |d.trail + [Parked(t)]| == |d.trail + [HandedToResolver(t)]|;
    assert (d.trail + [Superseded(t)])[|d.trail|] == Superseded(t);
    assert (d.trail + [Parked(t)])[|d.trail|] == Parked(t);
    assert (d.trail + [HandedToResolver(t)])[|d.trail|] == HandedToResolver(t);
  }

  /** Main result: the answer of a trigger tells what has become of the change set: what
      it says is merged, superseded, parked, handed over or deferred is, and what it
      says is waiting has not been touched, for the reason it gives. */
  lemma AnswerTells(d: Desk, t: TaskId, w: Weather)
    ensures var (d', a) := MergeAndMaybeReview(d, t, w); IsTrue(d, t, d', a)
  {
    hide MergeAndMaybeReview, IsTrue;
    if TakesOut(d, t) {
      TakenIsTrue(d, t, w);
    } else {
      UntakenIsTrue(d, t, w);
    }
  }

  predicate IsDone(d: Desk, t: TaskId) {
    t in d.store.dispatches && d.store.dispatches[t].state.Done?
  }

  lemma SettlingPlacesNothing(d: Desk, t: TaskId, issue: IssueId, change: ChangeSet, w: Weather)
    ensures SettleTaken(d, t, issue, change, w).0.placed == d.placed
  {
  }

  // ---- The release watcher's round ----

  function Triggers(order: seq<TaskId>, ws: seq<Weather>): seq<Step>
    requires |ws| == |order|
  {
    seq(|order|, i requires 0 <= i < |order| => Trigger(order[i], ws[i]))
  }

  /** A round over the placed table is one trigger after the other, none left out. */
  lemma {:induction false} RetryIsTriggers(d: Desk, order: seq<TaskId>, ws: seq<Weather>)
    requires |ws| == |order|
    ensures CanRun(d, Triggers(order, ws)) && Run(d, Triggers(order, ws)) == RetryAll(d, order, ws)
    decreases |order|
  {
    hide MergeAndMaybeReview;
    if order == [] {
      assert Triggers(order, ws) == [];
    } else {
      var n := |order| - 1;
      RetryIsTriggers(d, order[..n], ws[..n]);
      var more := Then(d, Triggers(order[..n], ws[..n]), Trigger(order[n], ws[n]));
      assert more == Triggers(order, ws);
    }
  }

  // ---- What is merged is what landed ----

  ghost predicate IsAsLanded(d: Desk, landed: seq<Step>) {
    && (forall t :: t in d.placed ==> Landed(t, d.placed[t]) in landed)
    && QueuedAsLanded(d.projects, landed) && MergedSo(d.trail, landed)
  }

  ghost predicate QueuedAsLanded(ps: seq<Project>, landed: seq<Step>) {
    forall p, i :: 0 <= p < |ps| && 0 <= i < |ps[p].pending| ==>
      Landed(ps[p].pending[i].task, ps[p].pending[i].change) in landed
  }

  ghost predicate MergedSo(trail: seq<Record>, landed: seq<Step>) {
    forall i :: 0 <= i < |trail| && trail[i].MergedIn? ==> Landed(trail[i].task, trail[i].change) in landed
  }

  lemma EnqueueKeepsChange(d: Desk, p: ProjectId, e: Pending, landed: seq<Step>)
    requires p < |d.projects| && QueuedAsLanded(d.projects, landed) && Landed(e.task, e.change) in landed
    ensures QueuedAsLanded(Enqueue(d, p, e).projects, landed)
  {
  }

  lemma FreezingKeepsChange(d: Desk, p: ProjectId, landed: seq<Step>)
    requires p < |d.projects| && QueuedAsLanded(d.projects, landed)
    ensures QueuedAsLanded(SetFrozen(d, p, true).projects, landed)
  {
  }

  lemma RecordKeepsChange(trail: seq<Record>, t: TaskId, change: ChangeSet, landed: seq<Step>)
    requires MergedSo(trail, landed) && Landed(t, change) in landed
    ensures MergedSo(trail + [MergedIn(t, change)], landed) && MergedSo(trail + [Superseded(t)], landed)
    ensures MergedSo(trail + [Parked(t)], landed) && MergedSo(trail + [HandedToResolver(t)], landed)
  {
  }

  lemma SettlingKeepsChange(d: Desk, t: TaskId, issue: IssueId, change: ChangeSet, w: Weather, landed: seq<Step>)
    requires IsAsLanded(d, landed) && Landed(t, change) in landed
    ensures IsAsLanded(SettleTaken(d, t, issue, change, w).0, landed)
  {
    var p := ProjectOf(d, issue);
    RecordKeepsChange(d.trail, t, change, landed);
    hide QueuedAsLanded, MergedSo;
    if p.Some? {
      EnqueueKeepsChange(d, p.value, Pending(t, issue, change), landed);
      FreezingKeepsChange(d, p.value, landed);
    }
  }

  lemma TriggerKeepsChange(d: Desk, t: TaskId, w: Weather, landed: seq<Step>)
    requires IsAsLanded(d, landed)
    ensures IsAsLanded(MergeAndMaybeReview(d, t, w).0, landed)
  {
    if t in d.placed && t in d.store.dispatches {
      SettlingKeepsChange(d.(placed := d.placed - {t}), t, d.store.dispatches[t].issue, d.placed[t], w, landed);
    }
    hide SettleTaken;
  }

  lemma ReplayOneKeepsChange(d: Desk, p: ProjectId, e: Pending, w: Weather, landed: seq<Step>)
    requires p < |d.projects| && IsAsLanded(d, landed) && Landed(e.task, e.change) in landed
    ensures IsAsLanded(ReplayOne(d, p, e, w).0, landed)
  {
    RecordKeepsChange(d.trail, e.task, e.change, landed);
    hide QueuedAsLanded, MergedSo;
    FreezingKeepsChange(d, p, landed);
  }

  lemma {:induction false} RoundKeepsChange(d: Desk, p: ProjectId, pops: seq<bool>, ws: seq<Weather>, sofar: Summary,
                                            landed: seq<Step>)
    requires p < |d.projects| && |ws| == |d.projects[p].pending| && |pops| == |ws| + 1 && IsAsLanded(d, landed)
    ensures IsAsLanded(ReplayFrom(d, p, pops, ws, sofar).0, landed)
    decreases |ws|
  {
    hide ReplayOne;
    if pops[0] && ws != [] {
      var e := d.projects[p].pending[0];
      var (d', r) := ReplayOne(Pop(d, p), p, e, ws[0]);
      ReplayOneKeepsChange(Pop(d, p), p, e, ws[0], landed);
      ReplayOneKeepsQueues(Pop(d, p), p, e, ws[0]);
      hide IsAsLanded;
      if !r.RefrozenConflict? {
        RoundKeepsChange(d', p, pops[1..], ws[1..], Tally(sofar, e.task, r), landed);
      }
    }
  }

  lemma ThawingKeepsChange(d: Desk, p: ProjectId, landed: seq<Step>)
    requires p < |d.projects| && IsAsLanded(d, landed)
    ensures IsAsLanded(SetFrozen(d, p, false), landed)
  {
  }

  lemma MoreLanded(d: Desk, landed: seq<Step>, s: Step)
    requires IsAsLanded(d, landed)
    ensures IsAsLanded(d, landed + [s])
  {
    assert forall x :: x in landed ==> x in landed + [s];
  }

  lemma StepKeepsChange(d: Desk, s: Step, landed: seq<Step>)
    requires Enabled(d, s) && IsAsLanded(d, landed)
    ensures IsAsLanded(Next(d, s), landed + [s])
  {
    MoreLanded(d, landed, s);
    hide QueuedAsLanded, MergedSo;
    match s
    case Trigger(t, w) =>
      TriggerKeepsChange(d, t, w, landed + [s]);
      hide MergeAndMaybeReview;
    case Resume(p, x) =>
      hide ReplayFrom;
      if p < |d.projects| {
        assert IsAsLanded(SetFrozen(d, p, false), landed + [s]) by { ThawingKeepsChange(d, p, landed + [s]); }
        RoundKeepsChange(SetFrozen(d, p, false), p, x.pops, x.entries, EMPTY_SUMMARY, landed + [s]);
      }
    case _ => hide Custody;
  }

  lemma {:induction false} RunKeepsChange(d: Desk, landed: seq<Step>, steps: seq<Step>)
    requires CanRun(d, steps) && IsAsLanded(d, landed)
    ensures IsAsLanded(Run(d, steps), landed + steps)
    decreases |steps|
  {
    hide Next, Enabled, IsAsLanded;
    if steps == [] {
      assert landed + steps == landed;
    } else {
      StepKeepsChange(d, steps[0], landed);
      RunKeepsChange(Next(d, steps[0]), landed + [steps[0]], steps[1..]);
      assert landed + [steps[0]] + steps[1..] == landed + steps;
    }
  }

  /** Main result: whatever is merged, straight away or after any wait in a queue, is the
      very change set that landed for that task. */
  lemma MergedAsLanded(d: Desk, steps: seq<Step>, i: nat)
    requires IsOpening(d) && CanRun(d, steps)
    requires i < |Run(d, steps).trail| && Run(d, steps).trail[i].MergedIn?
    ensures var r := Run(d, steps).trail[i]; Landed(r.task, r.change) in steps
  {
    RunKeepsChange(d, [], steps);
    assert [] + steps == steps;
    hide Run, CanRun;
  }
}
