/** Whole runs of the merge desk: conservation of change sets, at most one merge
    each, and what a resume leaves behind. */
module MergeDeskRuns {
  import opened Wrappers
  import opened MergeDesk

  // ---- Who holds a change set ----

  function QueueTasks(q: seq<Pending>): multiset<TaskId> {
    if q == [] then multiset{} else QueueTasks(q[..|q| - 1]) + multiset{q[|q| - 1].task}
  }

  function AllQueued(ps: seq<Project>): multiset<TaskId> {
    if ps == [] then multiset{} else AllQueued(ps[..|ps| - 1]) + QueueTasks(ps[|ps| - 1].pending)
  }

  function TrailTasks(trail: seq<Record>): multiset<TaskId> {
    if trail == [] then multiset{} else TrailTasks(trail[..|trail| - 1]) + multiset{trail[|trail| - 1].task}
  }

  /** Every place a change set can be: placed, queued behind a freeze, or on
      record as merged, superseded, parked or handed to the resolver. */
  function Custody(d: Desk): multiset<TaskId> {
    multiset(d.placed.Keys) + AllQueued(d.projects) + TrailTasks(d.trail)
  }

  lemma TrailStep(trail: seq<Record>, r: Record)
    ensures TrailTasks(trail + [r]) == TrailTasks(trail) + multiset{r.task}
  {
    assert (trail + [r])[..|trail|] == trail;
  }

  lemma {:induction false} AllQueuedUpdate(ps: seq<Project>, i: nat, p: Project)
    requires i < |ps|
    ensures AllQueued(ps[i := p]) + QueueTasks(ps[i].pending) == AllQueued(ps) + QueueTasks(p.pending)
  {
    hide QueueTasks;
    var n := |ps| - 1;
    var rest, last := AllQueued(ps[..n]), QueueTasks(ps[n].pending);
    if i < n {
      assert ps[i := p][..n] == ps[..n][i := p];
      AllQueuedUpdate(ps[..n], i, p);
      SwapEqual(AllQueued(ps[..n][i := p]), QueueTasks(ps[i].pending), rest, QueueTasks(p.pending), last);
    } else {
      assert ps[i := p][..n] == ps[..n];
      SwapSum(rest, last, QueueTasks(p.pending));
    }
  }

  lemma SwapSum(a: multiset<TaskId>, b: multiset<TaskId>, c: multiset<TaskId>)
    ensures (a + b) + c == (a + c) + b
  {
  }

  lemma SwapEqual(a: multiset<TaskId>, b: multiset<TaskId>, c: multiset<TaskId>, d: multiset<TaskId>,
                  x: multiset<TaskId>)
    requires a + b == c + d
    ensures (a + x) + b == (c + x) + d
  {
    SwapSum(a, x, b);
    SwapSum(c, x, d);
  }

  lemma {:induction false} QueueMember(q: seq<Pending>, i: nat)
    requires i < |q|
    ensures q[i].task in QueueTasks(q)
  {
    if i < |q| - 1 {
      QueueMember(q[..|q| - 1], i);
    }
  }

  lemma {:induction false} AllQueuedMember(ps: seq<Project>, i: nat, t: TaskId)
    requires i < |ps| && t in QueueTasks(ps[i].pending)
    ensures t in AllQueued(ps)
  {
    if i < |ps| - 1 {
      AllQueuedMember(ps[..|ps| - 1], i, t);
    }
  }

  lemma {:induction false} TrailMember(trail: seq<Record>, r: Record)
    requires r in trail
    ensures r.task in TrailTasks(trail)
  {
    var n := |trail| - 1;
    if r in trail[..n] {
      TrailMember(trail[..n], r);
    } else {
      assert trail == trail[..n] + [trail[n]];
    }
  }

  lemma QueueLast(q: seq<Pending>)
    requires q != []
    ensures QueueTasks(q) == QueueTasks(q[..|q| - 1]) + multiset{q[|q| - 1].task}
    ensures |q| == 1 ==> QueueTasks(q) == multiset{q[0].task} && QueueTasks(q[1..]) == multiset{}
  {
  }

  lemma {:induction false} QueueHead(q: seq<Pending>)
    requires q != []
    ensures QueueTasks(q) == multiset{q[0].task} + QueueTasks(q[1..])
  {
    hide QueueTasks;
    QueueLast(q);
    if |q| > 1 {
      var n := |q| - 1;
      QueueHead(q[..n]);
      QueueLast(q[1..]);
      assert q[..n][1..] == q[1..][..n - 1];
      Associate(multiset{q[0].task}, QueueTasks(q[1..][..n - 1]), multiset{q[n].task});
    }
  }

  lemma Associate(a: multiset<TaskId>, b: multiset<TaskId>, c: multiset<TaskId>)
    ensures (a + b) + c == a + (b + c)
  {
  }

  // ---- Conservation, one operation at a time ----

  lemma TakeOut(d: Desk, t: TaskId)
    requires t in d.placed
    ensures Custody(d.(placed := d.placed - {t})) + multiset{t} == Custody(d)
  {
    assert (d.placed - {t}).Keys == d.placed.Keys - {t};
    assert multiset(d.placed.Keys - {t}) + multiset{t} == multiset(d.placed.Keys);
  }

  lemma PutOnRecord(d: Desk, r: Record)
    ensures Custody(d.(trail := d.trail + [r])) == Custody(d) + multiset{r.task}
  {
    TrailStep(d.trail, r);
  }

  lemma MergingPutsOnRecord(d: Desk, t: TaskId, change: ChangeSet)
    ensures Custody(MarkMerged(d, t, change)) == Custody(d) + multiset{t}
  {
    TrailStep(d.trail, MergedIn(t, change));
  }

  lemma Cancel(a: multiset<TaskId>, b: multiset<TaskId>, c: multiset<TaskId>)
    requires a + c == b + c
    ensures a == b
  {
    forall t ensures a[t] == b[t] {
      assert (a + c)[t] == (b + c)[t];
    }
  }

  /** A change to one queue is a change of the same size to the whole. */
  lemma CustodyOfProjects(d: Desk, p: ProjectId, project: Project, less: multiset<TaskId>, more: multiset<TaskId>)
    requires p < |d.projects|
    requires QueueTasks(project.pending) + less == QueueTasks(d.projects[p].pending) + more
    ensures Custody(d.(projects := d.projects[p := project])) + less == Custody(d) + more
  {
    var before, after := AllQueued(d.projects), AllQueued(d.projects[p := project]);
    var q, q' := QueueTasks(d.projects[p].pending), QueueTasks(project.pending);
    AllQueuedUpdate(d.projects, p, project);
    assert after + less == before + more by {
      assert (after + less) + q == (before + more) + q by {
        assert (after + less) + q == (after + q) + less;
        assert (before + q') + less == before + (q' + less);
        assert before + (q + more) == (before + more) + q;
      }
      Cancel(after + less, before + more, q);
    }
    Regroup(multiset(d.placed.Keys), after, TrailTasks(d.trail), less);
    Regroup(multiset(d.placed.Keys), before, TrailTasks(d.trail), more);
  }

  lemma Regroup(a: multiset<TaskId>, b: multiset<TaskId>, c: multiset<TaskId>, x: multiset<TaskId>)
    ensures (a + b + c) + x == a + (b + x) + c
  {
  }

  lemma FreezingMovesNothing(d: Desk, p: ProjectId, on: bool)
    requires p < |d.projects|
    ensures Custody(SetFrozen(d, p, on)) == Custody(d)
  {
    CustodyOfProjects(d, p, d.projects[p].(frozen := on), multiset{}, multiset{});
    assert Custody(SetFrozen(d, p, on)) + multiset{} == Custody(SetFrozen(d, p, on));
    assert Custody(d) + multiset{} == Custody(d);
  }

  lemma EnqueueTakesIn(d: Desk, p: ProjectId, e: Pending)
    requires p < |d.projects| && e.task !in Custody(d)
    ensures Custody(Enqueue(d, p, e)) == Custody(d) + multiset{e.task}
  {
    var q := d.projects[p].pending;
    if Queued(q, e.task) {
      var i :| 0 <= i < |q| && q[i].task == e.task;
      QueueMember(q, i);
      AllQueuedMember(d.projects, p, e.task);
      assert false;
    }
    assert (q + [e])[..|q|] == q;
    CustodyOfProjects(d, p, d.projects[p].(pending := q + [e]), multiset{}, multiset{e.task});
  }

  lemma PopTakesOut(d: Desk, p: ProjectId)
    requires p < |d.projects| && d.projects[p].pending != []
    ensures Custody(Pop(d, p)) + multiset{d.projects[p].pending[0].task} == Custody(d)
  {
    var q := d.projects[p].pending;
    QueueHead(q);
    assert QueueTasks(q[1..]) + multiset{q[0].task} == QueueTasks(q) + multiset{};
    CustodyOfProjects(d, p, d.projects[p].(pending := q[1..]), multiset{q[0].task}, multiset{});
  }

  lemma SettlingConserves(d: Desk, t: TaskId, issue: IssueId, change: ChangeSet, w: Weather)
    requires t !in Custody(d)
    ensures Custody(SettleTaken(d, t, issue, change, w).0) == Custody(d) + multiset{t}
  {
    hide Custody;
    PutOnRecord(d, Parked(t));
    MergingPutsOnRecord(d, t, change);
    PutOnRecord(d, Superseded(t));
    PutOnRecord(d, HandedToResolver(t));
    hide MarkMerged, Enqueue, SetFrozen;
    var p := ProjectOf(d, issue);
    if p.Some? {
      EnqueueTakesIn(d, p.value, Pending(t, issue, change));
      FreezingMovesNothing(d, p.value, true);
      PutOnRecord(SetFrozen(d, p.value, true), Parked(t));
    }
  }

  /** Main result: a trigger moves the change set it finds, and only that one,
      and neither loses nor copies any. */
  lemma TriggerConserves(d: Desk, t: TaskId, w: Weather)
    requires Custody(d)[t] <= 1
    ensures Custody(MergeAndMaybeReview(d, t, w).0) == Custody(d)
  {
    hide SettleTaken, Custody;
    if t in d.placed {
      TakeOut(d, t);
      var d1 := d.(placed := d.placed - {t});
      assert (Custody(d1) + multiset{t})[t] <= 1;
      PutOnRecord(d1, Superseded(t));
      if t in d.store.dispatches {
        SettlingConserves(d1, t, d.store.dispatches[t].issue, d.placed[t], w);
      }
    }
  }

  lemma ReplayOneConserves(d: Desk, p: ProjectId, e: Pending, w: Weather)
    requires p < |d.projects|
    ensures Custody(ReplayOne(d, p, e, w).0) == Custody(d) + multiset{e.task}
  {
    hide Custody;
    PutOnRecord(d, Parked(e.task));
    MergingPutsOnRecord(d, e.task, e.change);
    PutOnRecord(d, Superseded(e.task));
    FreezingMovesNothing(d, p, true);
    PutOnRecord(SetFrozen(d, p, true), Parked(e.task));
  }

  lemma {:induction false} ReplayConserves(d: Desk, p: ProjectId, pops: seq<bool>, ws: seq<Weather>, sofar: Summary)
    requires p < |d.projects| && |ws| == |d.projects[p].pending| && |pops| == |ws| + 1
    ensures Custody(ReplayFrom(d, p, pops, ws, sofar).0) == Custody(d)
    decreases |ws|
  {
    if pops[0] && ws != [] {
      var e := d.projects[p].pending[0];
      var (d', r) := ReplayOne(Pop(d, p), p, e, ws[0]);
      PopTakesOut(d, p);
      ReplayOneConserves(Pop(d, p), p, e, ws[0]);
      ReplayOneKeepsQueues(Pop(d, p), p, e, ws[0]);
      if !r.RefrozenConflict? {
        ReplayConserves(d', p, pops[1..], ws[1..], Tally(sofar, e.task, r));
      }
    }
  }

  lemma ResumeConserves(d: Desk, p: ProjectId, x: ResumeWeather)
    requires p < |d.projects| ==> Fits(x, d.projects[p].pending)
    ensures Custody(ReplayPendingMerges(d, p, x).0) == Custody(d)
  {
    if p < |d.projects| {
      FreezingMovesNothing(d, p, false);
      ReplayConserves(SetFrozen(d, p, false), p, x.pops, x.entries, EMPTY_SUMMARY);
    }
  }

  // ---- What a resume leaves behind ----

  /** The summary counts the k entries popped, and the round ended where it says. */
  ghost predicate RoundEndsSo(q: seq<Pending>, pops: seq<bool>, ws: seq<Weather>, k: int, sofar: Summary, s: Summary,
                              end: RoundEnd, frozen: bool)
    requires |ws| == |q| && |pops| == |ws| + 1
  {
    && 0 <= k <= |q| && s.refrozen == end.Refroze?
    && k == (s.merged - sofar.merged) + (s.superseded - sofar.superseded) + (|s.parked| - |sofar.parked|)
    && match end
       case Refroze =>
         0 < k && ws[k - 1].outcome.Conflict? && s.parked != [] && s.parked[|s.parked| - 1] == q[k - 1].task
         && frozen == ws[k - 1].freezeWritable
       case PopBroke => !pops[k] && !frozen
       case QueueEmpty => k == |q| && !frozen
  }

  lemma RoundEndsLater(q: seq<Pending>, pops: seq<bool>, ws: seq<Weather>, k: int, sofar: Summary, r: Replay,
                       s: Summary, end: RoundEnd, frozen: bool)
    requires |ws| == |q| && |pops| == |ws| + 1 && q != [] && !r.RefrozenConflict?
    requires RoundEndsSo(q[1..], pops[1..], ws[1..], k, Tally(sofar, q[0].task, r), s, end, frozen)
    ensures RoundEndsSo(q, pops, ws, k + 1, sofar, s, end, frozen)
  {
  }

  /** The entries popped were the first k in order, and the round accounts for them. */
  ghost predicate IsFifo(d: Desk, p: ProjectId, pops: seq<bool>, ws: seq<Weather>, sofar: Summary)
    requires p < |d.projects| && |ws| == |d.projects[p].pending| && |pops| == |ws| + 1
  {
    var q := d.projects[p].pending;
    var (d', s, end) := ReplayFrom(d, p, pops, ws, sofar);
    var k := |d'.trail| - |d.trail|;
    FifoRound(d, d', p, q, k) && RoundEndsSo(q, pops, ws, k, sofar, s, end, d'.projects[p].frozen)
  }

  /** Deferred change sets are replayed first in, first out: the summary accounts
      for each popped entry, each leaves one record in queue order, and only a
      conflict or a failed pop ends the round early. After a conflict the project
      is frozen again and exactly the entries behind it are still queued; after a
      failed pop exactly the entries not popped are. */
  lemma {:induction false} ReplayIsFifo(d: Desk, p: ProjectId, pops: seq<bool>, ws: seq<Weather>, sofar: Summary)
    requires p < |d.projects| && |ws| == |d.projects[p].pending| && |pops| == |ws| + 1
    requires !d.projects[p].frozen && !sofar.refrozen
    ensures IsFifo(d, p, pops, ws, sofar)
    decreases |ws|
  {
    hide ReplayOne, ReplayFrom, IsFifo;
    if !pops[0] || ws == [] {
      FifoEndsAtOnce(d, p, pops, ws, sofar);
    } else {
      var e := d.projects[p].pending[0];
      var (d1, r) := ReplayOne(Pop(d, p), p, e, ws[0]);
      ReplayOneRecords(Pop(d, p), p, e, ws[0]);
      if r.RefrozenConflict? {
        FifoRefreezes(d, p, pops, ws, sofar);
      } else {
        ReplayIsFifo(d1, p, pops[1..], ws[1..], Tally(sofar, e.task, r));
        FifoGoesOn(d, p, pops, ws, sofar);
      }
    }
  }

  lemma FifoEndsAtOnce(d: Desk, p: ProjectId, pops: seq<bool>, ws: seq<Weather>, sofar: Summary)
    requires p < |d.projects| && |ws| == |d.projects[p].pending| && |pops| == |ws| + 1
    requires !d.projects[p].frozen && !sofar.refrozen && (!pops[0] || ws == [])
    ensures IsFifo(d, p, pops, ws, sofar)
  {
    var q := d.projects[p].pending;
    var end := if !pops[0] then PopBroke else QueueEmpty;
    assert ReplayFrom(d, p, pops, ws, sofar) == (d, sofar, end);
    hide ReplayFrom;
    assert FifoRound(d, d, p, q, 0) by {
      assert q[0..] == q && d.trail[..|d.trail|] == d.trail;
    }
    hide FifoRound;
    assert RoundEndsSo(q, pops, ws, 0, sofar, sofar, end, false);
    hide RoundEndsSo;
  }

  lemma FifoRefreezes(d: Desk, p: ProjectId, pops: seq<bool>, ws: seq<Weather>, sofar: Summary)
    requires p < |d.projects| && |ws| == |d.projects[p].pending| && |pops| == |ws| + 1
    requires !d.projects[p].frozen && pops[0] && ws != []
    requires ReplayOne(Pop(d, p), p, d.projects[p].pending[0], ws[0]).1.RefrozenConflict?
    ensures IsFifo(d, p, pops, ws, sofar)
  {
    var e := d.projects[p].pending[0];
    ReplayOneRecords(Pop(d, p), p, e, ws[0]);
    hide ReplayOne;
  }

  lemma FifoGoesOn(d: Desk, p: ProjectId, pops: seq<bool>, ws: seq<Weather>, sofar: Summary)
    requires p < |d.projects| && |ws| == |d.projects[p].pending| && |pops| == |ws| + 1 && pops[0] && ws != []
    requires var e := d.projects[p].pending[0];
             var (d1, r) := ReplayOne(Pop(d, p), p, e, ws[0]);
             && !r.RefrozenConflict? && p < |d1.projects| && |ws| - 1 == |d1.projects[p].pending|
             && IsFifo(d1, p, pops[1..], ws[1..], Tally(sofar, e.task, r))
    ensures IsFifo(d, p, pops, ws, sofar)
  {
    var q := d.projects[p].pending;
    var (d1, r) := ReplayOne(Pop(d, p), p, q[0], ws[0]);
    ReplayOneRecords(Pop(d, p), p, q[0], ws[0]);
    var (d', s, end) := ReplayFrom(d1, p, pops[1..], ws[1..], Tally(sofar, q[0].task, r));
    assert ReplayFrom(d, p, pops, ws, sofar) == (d', s, end);
    assert d1.projects[p].pending == q[1..];
    hide ReplayOne, ReplayFrom, Pop, RoundEndsSo, FifoRound, Tally;
    var k := |d'.trail| - |d1.trail|;
    FifoRoundExtends(d, d1, d', p, q, k);
    FifoRoundHasProject(d, d', p, q, k + 1);
    RoundEndsLater(q, pops, ws, k, sofar, r, s, end, d'.projects[p].frozen);
  }

  lemma FifoRoundHasProject(d: Desk, d': Desk, p: ProjectId, q: seq<Pending>, k: int)
    requires FifoRound(d, d', p, q, k)
    ensures p < |d'.projects|
  {
  }

  lemma FifoRoundExtends(d: Desk, d1: Desk, d': Desk, p: ProjectId, q: seq<Pending>, k: int)
    requires q != [] && FifoRound(d1, d', p, q[1..], k)
    requires |d1.trail| == |d.trail| + 1 && d1.trail[..|d.trail|] == d.trail && d1.trail[|d.trail|].task == q[0].task
    ensures FifoRound(d, d', p, q, k + 1)
  {
    assert q[1..][k..] == q[k + 1..];
    assert d'.trail[|d.trail|] == d1.trail[|d.trail|];
    forall i | 1 <= i < k + 1 ensures d'.trail[|d.trail| + i].task == q[i].task {
      assert d'.trail[|d1.trail| + (i - 1)].task == q[1..][i - 1].task;
    }
  }

  /** The first k entries of q were replayed in order; the rest is still queued. */
  ghost predicate FifoRound(d: Desk, d': Desk, p: ProjectId, q: seq<Pending>, k: int) {
    && 0 <= k <= |q| && p < |d'.projects|
    && d'.projects[p].pending == q[k..]
    && |d'.trail| == |d.trail| + k && d'.trail[..|d.trail|] == d.trail
    && forall i :: 0 <= i < k ==> d'.trail[|d.trail| + i].task == q[i].task
  }

  lemma ReplayOneRecords(d: Desk, p: ProjectId, e: Pending, w: Weather)
    requires p < |d.projects|
    ensures var (d', r) := ReplayOne(d, p, e, w);
            && |d'.trail| == |d.trail| + 1 && d'.trail[..|d.trail|] == d.trail && d'.trail[|d.trail|].task == e.task
            && |d'.projects| == |d.projects| && d'.projects[p].pending == d.projects[p].pending
            && (if r.RefrozenConflict?
                then w.outcome.Conflict? && d'.projects[p].frozen == (w.freezeWritable || d.projects[p].frozen)
                else d'.projects == d.projects)
  {
  }

  /** Deferred entries wait only behind a freeze. */
  predicate Stranded(d: Desk, p: ProjectId)
    requires p < |d.projects|
  {
    !d.projects[p].frozen && d.projects[p].pending != []
  }

  /** A deferred change set that would be merged, and conflicts. */
  predicate Conflicts(st: Store, e: Pending, w: Weather) {
    && e.issue in st.issues && e.task in st.baselines && e.change == Files(st.baselines[e.task])
    && w.repoReady && w.outcome.Conflict?
  }

  /** The first position at which the round stops: the pop fails, the entry
      conflicts, or the queue is empty. */
  ghost predicate StopsAt(st: Store, q: seq<Pending>, x: ResumeWeather, k: nat)
    requires Fits(x, q)
  {
    && k <= |q|
    && (forall j :: 0 <= j < k ==> x.pops[j] && !Conflicts(st, q[j], x.entries[j]))
    && (k < |q| ==> !x.pops[k] || Conflicts(st, q[k], x.entries[k]))
  }

  lemma ReplayOneConflicts(d: Desk, p: ProjectId, e: Pending, w: Weather)
    requires p < |d.projects|
    ensures var (d', r) := ReplayOne(d, p, e, w);
            && d'.store == d.store && (r.RefrozenConflict? <==> Conflicts(d.store, e, w))
            && |d'.projects| == |d.projects| && d'.projects[p].pending == d.projects[p].pending
            && d'.projects[p].frozen == (d.projects[p].frozen || (r.RefrozenConflict? && w.freezeWritable))
  {
  }

  lemma ReplayEndsAtOnce(d: Desk, p: ProjectId, x: ResumeWeather, sofar: Summary)
    requires p < |d.projects| && Fits(x, d.projects[p].pending) && !d.projects[p].frozen
    requires StopsAt(d.store, d.projects[p].pending, x, 0)
    ensures var q := d.projects[p].pending;
            var (d', s, end) := ReplayFrom(d, p, x.pops, x.entries, sofar);
            && p < |d'.projects| && s.refrozen == (sofar.refrozen || end.Refroze?)
            && end.PopBroke? == !x.pops[0] && end.Refroze? == (x.pops[0] && q != [])
            && d'.projects[p].pending == (if end.PopBroke? || q == [] then q else q[1..])
            && d'.projects[p].frozen == (x.pops[0] && q != [] && x.entries[0].freezeWritable)
  {
    hide ReplayOne, Conflicts;
    var q := d.projects[p].pending;
    if x.pops[0] && q != [] {
      ReplayOneConflicts(Pop(d, p), p, q[0], x.entries[0]);
    }
  }

  lemma {:induction false} ReplayEndsAt(d: Desk, p: ProjectId, x: ResumeWeather, sofar: Summary, k: nat)
    requires p < |d.projects| && Fits(x, d.projects[p].pending) && !d.projects[p].frozen
    requires StopsAt(d.store, d.projects[p].pending, x, k)
    ensures var q := d.projects[p].pending;
            var (d', s, end) := ReplayFrom(d, p, x.pops, x.entries, sofar);
            && p < |d'.projects| && s.refrozen == (sofar.refrozen || end.Refroze?)
            && end.PopBroke? == !x.pops[k] && end.Refroze? == (x.pops[k] && k < |q|)
            && d'.projects[p].pending == (if end.PopBroke? then q[k..] else if k < |q| then q[k + 1..] else [])
            && d'.projects[p].frozen == (x.pops[k] && k < |q| && x.entries[k].freezeWritable)
    decreases |x.entries|
  {
    hide ReplayOne, Conflicts;
    var q := d.projects[p].pending;
    if k == 0 {
      ReplayEndsAtOnce(d, p, x, sofar);
    } else {
      var (d1, r) := ReplayOne(Pop(d, p), p, q[0], x.entries[0]);
      ReplayOneConflicts(Pop(d, p), p, q[0], x.entries[0]);
      var rest := x.(pops := x.pops[1..], entries := x.entries[1..]);
      var sofar1 := Tally(sofar, q[0].task, r);
      StopsSooner(d.store, q, x, k);
      assert ReplayFrom(d, p, x.pops, x.entries, sofar) == ReplayFrom(d1, p, rest.pops, rest.entries, sofar1);
      assert d1.projects[p].pending == q[1..] && sofar1.refrozen == sofar.refrozen;
      ReplayEndsAt(d1, p, rest, sofar1, k - 1);
      hide ReplayFrom, StopsAt, Tally, Pop;
      assert q[1..][k - 1..] == q[k..];
      assert k < |q| ==> q[1..][k..] == q[k + 1..];
    }
  }

  lemma StopsSooner(st: Store, q: seq<Pending>, x: ResumeWeather, k: nat)
    requires Fits(x, q) && StopsAt(st, q, x, k) && k > 0
    ensures StopsAt(st, q[1..], x.(pops := x.pops[1..], entries := x.entries[1..]), k - 1)
  {
    hide Conflicts;
  }

  /** The resume gets as far as lifting the freeze, and then its commit fails, or a
      pop fails with entries left, or an entry before the last conflicts and the
      freeze cannot be written again. */
  ghost predicate StrandsQueue(d: Desk, p: ProjectId, x: ResumeWeather)
    requires p < |d.projects| && Fits(x, d.projects[p].pending)
  {
    var q := d.projects[p].pending;
    && x.unfreezeWorks
    && if !x.commitWorks then q != []
       else exists k: nat :: StopsAt(d.store, q, x, k) && k < |q|
              && (!x.pops[k] || (k + 1 < |q| && !x.entries[k].freezeWritable))
  }

  /** Main result: a resume of a frozen project leaves its queue behind no freeze
      exactly when the commit of the human's resolution fails with entries queued,
      a pop fails with entries left, or a renewed freeze cannot be written while
      entries remain: the freeze was lifted first. */
  lemma ResumeStrandsExactlyWhen(d: Desk, p: ProjectId, x: ResumeWeather)
    requires p < |d.projects| && Fits(x, d.projects[p].pending)
    requires !d.stopped && d.projects[p].frozen && d.projects[p].hasDirectory
    ensures var (d', r) := ReplayPendingMerges(d, p, x);
            && p < |d'.projects|
            && (Stranded(d', p) <==> StrandsQueue(d, p, x))
            && (Stranded(d', p) ==> r.CommitFailed? || r.PopFailed? || (r.Replayed? && r.summary.refrozen))
  {
    var d1 := SetFrozen(d, p, false);
    hide Conflicts, ReplayFrom, StopsAt;
    if x.unfreezeWorks && x.commitWorks {
      var k := FirstStop(d.store, d.projects[p].pending, x);
      ReplayEndsAt(d1, p, x, EMPTY_SUMMARY, k);
      StrandsAtTheStop(d, p, x, k);
      hide StrandsQueue;
      var (d2, s, end) := ReplayFrom(d1, p, x.pops, x.entries, EMPTY_SUMMARY);
      assert ReplayPendingMerges(d, p, x) == (d2, if end.PopBroke? then PopFailed else Replayed(s));
    }
  }

  lemma StrandsAtTheStop(d: Desk, p: ProjectId, x: ResumeWeather, k: nat)
    requires p < |d.projects| && Fits(x, d.projects[p].pending) && x.unfreezeWorks && x.commitWorks
    requires StopsAt(d.store, d.projects[p].pending, x, k)
    ensures var q := d.projects[p].pending;
            k <= |q| && (StrandsQueue(d, p, x) <==>
              k < |q| && (!x.pops[k] || (k + 1 < |q| && !x.entries[k].freezeWritable)))
  {
    var q := d.projects[p].pending;
    forall other: nat | StopsAt(d.store, q, x, other) ensures other == k {
      StopIsUnique(d.store, q, x, k, other);
    }
    hide StopsAt;
  }

  lemma StopIsUnique(st: Store, q: seq<Pending>, x: ResumeWeather, j: nat, k: nat)
    requires Fits(x, q) && StopsAt(st, q, x, j) && StopsAt(st, q, x, k)
    ensures j == k
  {
    hide Conflicts;
  }

  lemma FirstStop(st: Store, q: seq<Pending>, x: ResumeWeather) returns (k: nat)
    requires Fits(x, q)
    ensures StopsAt(st, q, x, k)
  {
    hide Conflicts;
    k := 0;
    while k < |q| && x.pops[k] && !Conflicts(st, q[k], x.entries[k])
      invariant k <= |q| && forall j :: 0 <= j < k ==> x.pops[j] && !Conflicts(st, q[j], x.entries[j])
    {
      k := k + 1;
    }
  }

  /** Resuming a project that is not frozen does nothing. */
  lemma StrandedQueueIsNotResumed(d: Desk, p: ProjectId, x: ResumeWeather)
    requires p < |d.projects| && Fits(x, d.projects[p].pending) && Stranded(d, p)
    ensures ReplayPendingMerges(d, p, x).0 == d
  {
  }

  // ---- What every step keeps ----

  /** The dispatch is done, and the change set was made on the dispatch's own
      baseline. */
  ghost predicate Entitled(st: Store, t: TaskId, change: ChangeSet) {
    && t in st.dispatches && st.dispatches[t].state.Done?
    && t in st.baselines
    && (change.Files? ==> change.base == st.baselines[t])
  }

  ghost predicate MergesAreEntitled(d: Desk) {
    forall i :: 0 <= i < |d.trail| && d.trail[i].MergedIn? ==>
      Entitled(d.store, d.trail[i].task, d.trail[i].change) && d.trail[i].task in d.merged
  }

  ghost predicate QueuesAreEntitled(d: Desk) {
    forall p, i :: 0 <= p < |d.projects| && 0 <= i < |d.projects[p].pending| ==>
      Entitled(d.store, d.projects[p].pending[i].task, NoFiles)
  }

  ghost predicate EachOnce(d: Desk) {
    forall t :: Custody(d)[t] <= 1
  }

  ghost predicate MergedIsOnRecord(d: Desk) {
    forall t :: t in d.merged ==> OnRecord(d.trail, t)
  }

  ghost predicate OnRecord(trail: seq<Record>, t: TaskId) {
    exists i :: 0 <= i < |trail| && trail[i].MergedIn? && trail[i].task == t
  }

  ghost predicate Rightful(d: Desk) {
    MergesAreEntitled(d) && QueuesAreEntitled(d)
  }

  ghost predicate Inv(d: Desk) {
    EachOnce(d) && Rightful(d) && MergedIsOnRecord(d)
  }

  datatype Step =
    | Dispatched(task: TaskId, issue: IssueId, base: Option<Commit>)
    | Finished(task: TaskId, state: DispatchState)
    | Landed(task: TaskId, change: ChangeSet)
    | Trigger(task: TaskId, weather: Weather)
    | Stop
    | Release
    | Resume(project: ProjectId, answers: ResumeWeather)

  /** A task's archive lands once; a dispatch ends once. */
  predicate Enabled(d: Desk, s: Step) {
    match s
    case Dispatched(t, _, _) => t !in d.store.dispatches && t !in d.store.baselines
    case Finished(t, state) =>
      t in d.store.dispatches && d.store.dispatches[t].state.InFlight? && !state.InFlight?
    case Landed(t, _) => t in d.store.dispatches && t !in Custody(d)
    case Trigger(_, _) => true
    case Stop => true
    case Release => true
    case Resume(p, x) => p < |d.projects| ==> Fits(x, d.projects[p].pending)
  }

  function Next(d: Desk, s: Step): Desk
    requires Enabled(d, s)
  {
    match s
    case Dispatched(t, issue, base) =>
      d.(store := d.store.(dispatches := d.store.dispatches[t := Dispatch(issue, InFlight)],
                           baselines := if base.Some? then d.store.baselines[t := base.value] else d.store.baselines))
    case Finished(t, state) =>
      d.(store := d.store.(dispatches := d.store.dispatches[t := d.store.dispatches[t].(state := state)]))
    case Landed(t, change) => d.(placed := d.placed[t := change])
    case Trigger(t, w) => MergeAndMaybeReview(d, t, w).0
    case Stop => d.(stopped := true)
    case Release => d.(stopped := false)
    case Resume(p, x) => ReplayPendingMerges(d, p, x).0
  }

  lemma LandingTakesIn(d: Desk, t: TaskId, change: ChangeSet)
    requires Enabled(d, Landed(t, change))
    ensures Custody(Next(d, Landed(t, change))) == Custody(d) + multiset{t}
  {
    hide AllQueued, TrailTasks;
    assert t !in d.placed;
    assert d.placed[t := change].Keys == d.placed.Keys + {t};
    assert multiset(d.placed.Keys + {t}) == multiset(d.placed.Keys) + multiset{t};
    SwapSum(multiset(d.placed.Keys), multiset{t}, AllQueued(d.projects));
    SwapSum(multiset(d.placed.Keys) + AllQueued(d.projects), multiset{t}, TrailTasks(d.trail));
  }

  /** Main result: no step loses or copies a change set; only landing adds one. */
  lemma StepConserves(d: Desk, s: Step)
    requires Inv(d) && Enabled(d, s)
    ensures Custody(Next(d, s)) == Custody(d) + (if s.Landed? then multiset{s.task} else multiset{})
  {
    match s
    case Landed(t, change) => LandingTakesIn(d, t, change);
    case Trigger(t, w) => TriggerConserves(d, t, w);
    case Resume(p, x) => ResumeConserves(d, p, x);
    case _ =>
  }

  lemma SettlingIsRightful(d: Desk, t: TaskId, issue: IssueId, change: ChangeSet, w: Weather)
    requires Rightful(d) && Entitled(d.store, t, NoFiles)
    ensures Rightful(SettleTaken(d, t, issue, change, w).0)
  {
    SettlingKeepsQueuesEntitled(d, t, issue, change, w);
    SettlingKeepsMergesEntitled(d, t, issue, change, w);
  }

  lemma SettlingKeepsQueuesEntitled(d: Desk, t: TaskId, issue: IssueId, change: ChangeSet, w: Weather)
    requires QueuesAreEntitled(d) && Entitled(d.store, t, NoFiles)
    ensures QueuesAreEntitled(SettleTaken(d, t, issue, change, w).0)
  {
  }

  lemma ProjectsAloneChange(d: Desk, issue: IssueId, t: TaskId, change: ChangeSet)
    ensures var p := ProjectOf(d, issue);
            p.Some? ==>
              && Enqueue(d, p.value, Pending(t, issue, change)).(projects := d.projects) == d
              && SetFrozen(d, p.value, true).(projects := d.projects) == d
  {
  }

  lemma SettlingKeepsMergesEntitled(d: Desk, t: TaskId, issue: IssueId, change: ChangeSet, w: Weather)
    requires MergesAreEntitled(d) && Entitled(d.store, t, NoFiles)
    ensures MergesAreEntitled(SettleTaken(d, t, issue, change, w).0)
  {
    hide Enqueue, SetFrozen;
    ProjectsAloneChange(d, issue, t, change);
  }

  lemma TriggerIsRightful(d: Desk, t: TaskId, w: Weather)
    requires Rightful(d)
    ensures Rightful(MergeAndMaybeReview(d, t, w).0)
  {
    hide SettleTaken;
    if t in d.placed && t in d.store.dispatches && t in d.store.baselines && d.store.dispatches[t].state.Done? {
      SettlingIsRightful(d.(placed := d.placed - {t}), t, d.store.dispatches[t].issue, d.placed[t], w);
    }
  }

  lemma ReplayOneIsRightful(d: Desk, p: ProjectId, e: Pending, w: Weather)
    requires p < |d.projects| && Rightful(d) && Entitled(d.store, e.task, NoFiles)
    ensures Rightful(ReplayOne(d, p, e, w).0)
  {
    ReplayOneKeepsQueuesEntitled(d, p, e, w);
    ReplayOneKeepsMergesEntitled(d, p, e, w);
  }

  lemma ReplayOneKeepsQueuesEntitled(d: Desk, p: ProjectId, e: Pending, w: Weather)
    requires p < |d.projects| && QueuesAreEntitled(d)
    ensures QueuesAreEntitled(ReplayOne(d, p, e, w).0)
  {
  }

  lemma ReplayOneKeepsMergesEntitled(d: Desk, p: ProjectId, e: Pending, w: Weather)
    requires p < |d.projects| && MergesAreEntitled(d) && Entitled(d.store, e.task, NoFiles)
    ensures MergesAreEntitled(ReplayOne(d, p, e, w).0)
  {
    assert SetFrozen(d, p, true).(projects := d.projects) == d;
    hide SetFrozen;
  }

  lemma {:induction false} ReplayIsRightful(d: Desk, p: ProjectId, pops: seq<bool>, ws: seq<Weather>, sofar: Summary)
    requires p < |d.projects| && |ws| == |d.projects[p].pending| && |pops| == |ws| + 1 && Rightful(d)
    ensures Rightful(ReplayFrom(d, p, pops, ws, sofar).0)
    decreases |ws|
  {
    hide ReplayOne;
    if pops[0] && ws != [] {
      var e := d.projects[p].pending[0];
      var (d', r) := ReplayOne(Pop(d, p), p, e, ws[0]);
      ReplayOneIsRightful(Pop(d, p), p, e, ws[0]);
      ReplayOneKeepsQueues(Pop(d, p), p, e, ws[0]);
      if !r.RefrozenConflict? {
        ReplayIsRightful(d', p, pops[1..], ws[1..], Tally(sofar, e.task, r));
      }
    }
  }

  lemma StepIsRightful(d: Desk, s: Step)
    requires Rightful(d) && Enabled(d, s)
    ensures Rightful(Next(d, s))
  {
    hide MergeAndMaybeReview, ReplayFrom, Custody;
    match s
    case Trigger(t, w) => TriggerIsRightful(d, t, w);
    case Resume(p, x) =>
      if p < |d.projects| {
        ReplayIsRightful(SetFrozen(d, p, false), p, x.pops, x.entries, EMPTY_SUMMARY);
      }
    case _ =>
  }

  lemma RecordsOnlyGrow(d: Desk, d': Desk)
    requires MergedIsOnRecord(d) && d.trail <= d'.trail
    requires forall t :: t in d'.merged ==> t in d.merged || OnRecord(d'.trail, t)
    ensures MergedIsOnRecord(d')
  {
    forall t | t in d.merged ensures OnRecord(d'.trail, t) {
      var i :| 0 <= i < |d.trail| && d.trail[i].MergedIn? && d.trail[i].task == t;
      assert d'.trail[i] == d.trail[i];
    }
  }

  lemma TriggerRecords(d: Desk, t: TaskId, w: Weather)
    requires MergedIsOnRecord(d)
    ensures MergedIsOnRecord(MergeAndMaybeReview(d, t, w).0)
  {
    var d' := MergeAndMaybeReview(d, t, w).0;
    if d'.merged != d.merged {
      assert d'.trail[|d.trail|].MergedIn? && d'.trail[|d.trail|].task == t;
    }
    RecordsOnlyGrow(d, d');
  }

  lemma {:induction false} ReplayRecords(d: Desk, p: ProjectId, pops: seq<bool>, ws: seq<Weather>, sofar: Summary)
    requires p < |d.projects| && |ws| == |d.projects[p].pending| && |pops| == |ws| + 1 && MergedIsOnRecord(d)
    ensures MergedIsOnRecord(ReplayFrom(d, p, pops, ws, sofar).0)
    decreases |ws|
  {
    if pops[0] && ws != [] {
      var e := d.projects[p].pending[0];
      var (d', r) := ReplayOne(Pop(d, p), p, e, ws[0]);
      if d'.merged != d.merged {
        assert d'.trail[|d.trail|].MergedIn? && d'.trail[|d.trail|].task == e.task;
      }
      RecordsOnlyGrow(d, d');
      if !r.RefrozenConflict? {
        ReplayOneKeepsQueues(Pop(d, p), p, e, ws[0]);
        ReplayRecords(d', p, pops[1..], ws[1..], Tally(sofar, e.task, r));
      }
    }
  }

  lemma StepKeepsEachOnce(d: Desk, s: Step)
    requires Inv(d) && Enabled(d, s)
    ensures EachOnce(Next(d, s))
  {
    StepConserves(d, s);
    hide Custody, Rightful, MergedIsOnRecord;
    var landed := if s.Landed? then multiset{s.task} else multiset{};
    forall t ensures Custody(Next(d, s))[t] <= 1 {
      assert (Custody(d) + landed)[t] <= 1;
    }
  }

  lemma StepKeepsRecords(d: Desk, s: Step)
    requires MergedIsOnRecord(d) && Enabled(d, s)
    ensures MergedIsOnRecord(Next(d, s))
  {
    hide MergeAndMaybeReview, ReplayFrom, Custody;
    match s
    case Trigger(t, w) => TriggerRecords(d, t, w);
    case Resume(p, x) =>
      if p < |d.projects| {
        ReplayRecords(SetFrozen(d, p, false), p, x.pops, x.entries, EMPTY_SUMMARY);
      }
    case _ =>
  }

  lemma StepKeeps(d: Desk, s: Step)
    requires Inv(d) && Enabled(d, s)
    ensures Inv(Next(d, s))
  {
    hide EachOnce, Rightful, MergedIsOnRecord, Next, Enabled;
    StepKeepsEachOnce(d, s);
    StepIsRightful(d, s);
    StepKeepsRecords(d, s);
  }

  // ---- Runs ----

  ghost predicate CanRun(d: Desk, steps: seq<Step>)
    decreases |steps|
  {
    steps == [] || (Enabled(d, steps[0]) && CanRun(Next(d, steps[0]), steps[1..]))
  }

  ghost function Run(d: Desk, steps: seq<Step>): Desk
    requires CanRun(d, steps)
    decreases |steps|
  {
    if steps == [] then d else Run(Next(d, steps[0]), steps[1..])
  }

  function Landings(steps: seq<Step>): multiset<TaskId> {
    if steps == [] then multiset{}
    else (if steps[0].Landed? then multiset{steps[0].task} else multiset{}) + Landings(steps[1..])
  }

  /** Nothing has landed yet; projects may already be frozen. */
  ghost predicate IsOpening(d: Desk) {
    && d.placed == map[] && d.merged == {} && d.trail == []
    && forall p :: 0 <= p < |d.projects| ==> d.projects[p].pending == []
  }

  lemma {:induction false} NothingQueued(ps: seq<Project>)
    requires forall p :: 0 <= p < |ps| ==> ps[p].pending == []
    ensures AllQueued(ps) == multiset{}
  {
    if ps != [] {
      NothingQueued(ps[..|ps| - 1]);
    }
  }

  lemma OpeningInv(d: Desk)
    requires IsOpening(d)
    ensures Inv(d) && Custody(d) == multiset{}
  {
    NothingQueued(d.projects);
    assert multiset(d.placed.Keys) == multiset{};
  }

  lemma {:induction false} RunKeeps(d: Desk, steps: seq<Step>)
    requires Inv(d) && CanRun(d, steps)
    ensures Inv(Run(d, steps)) && Custody(Run(d, steps)) == Custody(d) + Landings(steps)
    decreases |steps|
  {
    hide Inv, Custody, Next, Enabled;
    if steps != [] {
      StepKeeps(d, steps[0]);
      StepConserves(d, steps[0]);
      RunKeeps(Next(d, steps[0]), steps[1..]);
    }
  }

  /** Main result: along every run, each landed change set is in exactly one
      place, and nothing else is anywhere. */
  lemma EveryLandingIsAccountedForOnce(d: Desk, steps: seq<Step>)
    requires IsOpening(d) && CanRun(d, steps)
    ensures Custody(Run(d, steps)) == Landings(steps)
    ensures forall t :: Landings(steps)[t] <= 1
  {
    OpeningInv(d);
    RunKeeps(d, steps);
    hide Custody;
    assert EachOnce(Run(d, steps));
    assert Custody(d) + Landings(steps) == Landings(steps);
  }

  lemma {:induction false} TwoRecordsCountTwice(trail: seq<Record>, i: nat, j: nat)
    requires i < j < |trail| && trail[i].task == trail[j].task
    ensures TrailTasks(trail)[trail[i].task] >= 2
  {
    var n := |trail| - 1;
    if j == n {
      TrailMember(trail[..n], trail[..n][i]);
    } else {
      TwoRecordsCountTwice(trail[..n], i, j);
    }
  }

  /** Main result: every merge was of a done dispatch and on its own baseline, no
      change set is merged twice, and one that was superseded, parked or handed
      over is not merged either. */
  lemma MergesAreEntitledAndSingle(d: Desk, steps: seq<Step>, i: nat, j: nat)
    requires IsOpening(d) && CanRun(d, steps)
    requires var trail := Run(d, steps).trail;
             i < |trail| && j < |trail| && trail[i].MergedIn?
    ensures var end := Run(d, steps);
            && Entitled(end.store, end.trail[i].task, end.trail[i].change)
            && (end.trail[i].task == end.trail[j].task ==> i == j)
  {
    OpeningInv(d);
    RunKeeps(d, steps);
    hide Custody, MergedIsOnRecord;
    var end := Run(d, steps);
    if i < j {
      RecordsAreDistinct(end, i, j);
    } else if j < i {
      RecordsAreDistinct(end, j, i);
    }
  }

  lemma RecordsAreDistinct(d: Desk, i: nat, j: nat)
    requires EachOnce(d) && i < j < |d.trail|
    ensures d.trail[i].task != d.trail[j].task
  {
    assert Custody(d)[d.trail[i].task] <= 1;
    if d.trail[i].task == d.trail[j].task {
      TwoRecordsCountTwice(d.trail, i, j);
    }
  }

  /** A done dispatch whose change set is at hand and may be looked at. */
  predicate Takes(d: Desk, t: TaskId) {
    && t in d.store.dispatches && d.store.dispatches[t].state.Done? && t in d.placed && t in d.store.baselines
    && t !in d.merged && !d.stopped
    && var p := ProjectOf(d, d.store.dispatches[t].issue);
       p.Some? && d.projects[p.value].hasDirectory
  }

  /** One trigger, from its guards: when it defers and freezes. */
  lemma TriggerDefersAndFreezesExactlyWhen(d: Desk, t: TaskId, w: Weather)
    requires Inv(d)
    ensures var d' := MergeAndMaybeReview(d, t, w).0;
            && |d'.projects| == |d.projects|
            && (Takes(d, t) ==>
                  var issue := d.store.dispatches[t].issue;
                  var p := ProjectOf(d, issue).value;
                  && d'.projects[p].pending == d.projects[p].pending
                       + (if d.projects[p].frozen && w.queueWritable then [Pending(t, issue, d.placed[t])] else [])
                  && (d'.projects[p].frozen <==>
                        d.projects[p].frozen
                        || (d.placed[t] == Files(d.store.baselines[t]) && w.repoReady && w.outcome.Conflict?
                            && !w.autoResolve && w.freezeWritable)))
            && (!Takes(d, t) ==> d'.projects == d.projects)
  {
    if Takes(d, t) {
      NotQueuedYet(d, t, ProjectOf(d, d.store.dispatches[t].issue).value);
    }
    hide Inv;
  }

  lemma NotQueuedYet(d: Desk, t: TaskId, p: ProjectId)
    requires EachOnce(d) && t in d.placed && p < |d.projects|
    ensures !Queued(d.projects[p].pending, t)
  {
    assert Custody(d)[t] <= 1;
    if Queued(d.projects[p].pending, t) {
      var i :| 0 <= i < |d.projects[p].pending| && d.projects[p].pending[i].task == t;
      QueueMember(d.projects[p].pending, i);
      AllQueuedMember(d.projects, p, t);
    }
  }

  // ---- What becomes of a change set along a run ----

  /** Entry j is popped and replayed before the round stops. */
  ghost predicate IsReplayed(st: Store, q: seq<Pending>, x: ResumeWeather, j: nat)
    requires Fits(x, q)
  {
    && j < |q|
    && (forall i :: 0 <= i <= j ==> x.pops[i])
    && (forall i :: 0 <= i < j ==> !Conflicts(st, q[i], x.entries[i]))
  }

  /** What ends the way of a change set. */
  datatype Fate = Merging | Superseding | Parking | HandingOver

  ghost predicate IsOnTrail(trail: seq<Record>, r: Record) {
    exists i :: 0 <= i < |trail| && trail[i] == r
  }

  ghost predicate IsFated(d: Desk, t: TaskId, f: Fate) {
    match f
    case Merging => t in d.merged
    case Superseding => IsOnTrail(d.trail, Superseded(t))
    case Parking => IsOnTrail(d.trail, Parked(t))
    case HandingOver => IsOnTrail(d.trail, HandedToResolver(t))
  }

  /** The change set was made on the base that its dispatch was given. */
  predicate IsOnBase(st: Store, t: TaskId, change: ChangeSet) {
    t in st.baselines && change == Files(st.baselines[t])
  }

  predicate IsOffBase(st: Store, t: TaskId, change: ChangeSet) {
    t in st.baselines && change.Files? && change.base != st.baselines[t]
  }

  /** What a trigger that has taken the change set meets, in a project it can work in. */
  predicate Faces(st: Store, t: TaskId, change: ChangeSet, frozen: bool, w: Weather, f: Fate) {
    match f
    case Merging => !frozen && (change.NoFiles? || (IsOnBase(st, t, change) && w.repoReady && w.outcome.Clean?))
    case Superseding => !frozen && IsOffBase(st, t, change)
    case HandingOver => !frozen && IsOnBase(st, t, change) && w.repoReady && w.outcome.Conflict? && w.autoResolve
    case Parking =>
      if frozen then !w.queueWritable
      else change.Corrupt?
           || (IsOnBase(st, t, change)
               && (!w.repoReady || w.outcome.Broken? || (w.outcome.Conflict? && !w.autoResolve)))
  }

  /** A trigger meets t so: dead, or done with nothing to stop it and its change set as
      it is. */
  predicate TriggerMeets(d: Desk, t: TaskId, w: Weather, f: Fate) {
    && t in d.store.baselines && t in d.store.dispatches && t in d.placed && t !in d.merged
    && match d.store.dispatches[t].state
       case InFlight => false
       case Done =>
         var p := ProjectOf(d, d.store.dispatches[t].issue);
         && !d.stopped
         && (if p.Some? && d.projects[p.value].hasDirectory
             then Faces(d.store, t, d.placed[t], d.projects[p.value].frozen, w, f) else f.Parking?)
       case _ => f.Superseding?
  }

  /** A replay meets an entry so. */
  predicate ReplayMeets(st: Store, e: Pending, w: Weather, f: Fate) {
    match f
    case Merging =>
      && e.issue in st.issues
      && (e.change.NoFiles? || (IsOnBase(st, e.task, e.change) && w.repoReady && w.outcome.Clean?))
    case Superseding => e.issue in st.issues && IsOffBase(st, e.task, e.change)
    case HandingOver => false
    case Parking =>
      || e.issue !in st.issues || e.change.Corrupt? || (e.change.Files? && e.task !in st.baselines)
      || (IsOnBase(st, e.task, e.change) && (!w.repoReady || !w.outcome.Clean?))
  }

  lemma OneMoreOnTrail(trail: seq<Record>, last: Record, r: Record)
    ensures IsOnTrail(trail + [last], r) <==> IsOnTrail(trail, r) || last == r
  {
    assert (trail + [last])[|trail|] == last;
    assert forall i :: 0 <= i < |trail| ==> (trail + [last])[i] == trail[i];
  }

  /** At most one record, of that fate. */
  ghost predicate Records(d: Desk, d': Desk, t: TaskId, met: Fate -> bool) {
    && d'.merged == (if met(Merging) then d.merged + {t} else d.merged)
    && (if met(Merging) then exists c :: d'.trail == d.trail + [MergedIn(t, c)]
        else if met(Superseding) then d'.trail == d.trail + [Superseded(t)]
        else if met(Parking) then d'.trail == d.trail + [Parked(t)]
        else if met(HandingOver) then d'.trail == d.trail + [HandedToResolver(t)]
        else d'.trail == d.trail)
    && forall f, g :: met(f) && met(g) ==> f == g
  }

  lemma RecordsFate(d: Desk, d': Desk, u: TaskId, met: Fate -> bool, t: TaskId, f: Fate)
    requires Records(d, d', u, met)
    ensures IsFated(d', t, f) <==> IsFated(d, t, f) || (u == t && met(f))
  {
    var n := |d.trail|;
    if d'.trail != d.trail {
      assert |d'.trail| == n + 1 && d'.trail == d.trail + [d'.trail[n]];
      OneMoreOnTrail(d.trail, d'.trail[n], Superseded(t));
      OneMoreOnTrail(d.trail, d'.trail[n], Parked(t));
      OneMoreOnTrail(d.trail, d'.trail[n], HandedToResolver(t));
    }
    hide IsOnTrail;
  }

  lemma TriggerRecordsSo(d: Desk, t: TaskId, w: Weather)
    ensures Records(d, MergeAndMaybeReview(d, t, w).0, t, f => TriggerMeets(d, t, w, f))
  {
    if TriggerMeets(d, t, w, Merging) {
      assert MergeAndMaybeReview(d, t, w).0.trail == d.trail + [MergedIn(t, d.placed[t])];
    }
  }

  lemma ReplayRecordsSo(d: Desk, p: ProjectId, e: Pending, w: Weather)
    requires p < |d.projects|
    ensures Records(d, ReplayOne(d, p, e, w).0, e.task, f => ReplayMeets(d.store, e, w, f))
  {
    if ReplayMeets(d.store, e, w, Merging) {
      assert ReplayOne(d, p, e, w).0.trail == d.trail + [MergedIn(e.task, e.change)];
    }
  }

  /** The round replays an entry of t and meets it so. */
  ghost predicate RoundMeets(st: Store, q: seq<Pending>, x: ResumeWeather, t: TaskId, f: Fate)
    requires Fits(x, q)
  {
    exists j: nat :: IsReplayed(st, q, x, j) && q[j].task == t && ReplayMeets(st, q[j], x.entries[j], f)
  }

  lemma ReplayedLater(st: Store, q: seq<Pending>, x: ResumeWeather, j: nat)
    requires Fits(x, q) && q != [] && x.pops[0]
    ensures var rest := x.(pops := x.pops[1..], entries := x.entries[1..]);
            && IsReplayed(st, q, x, 0)
            && (IsReplayed(st, q, x, j + 1) <==> !Conflicts(st, q[0], x.entries[0]) && IsReplayed(st, q[1..], rest, j))
  {
    hide Conflicts;
    var rest := x.(pops := x.pops[1..], entries := x.entries[1..]);
    if IsReplayed(st, q, x, j + 1) {
      assert forall i :: 0 <= i <= j ==> rest.pops[i] == x.pops[i + 1];
      assert forall i :: 0 <= i < j ==> q[1..][i] == q[i + 1] && rest.entries[i] == x.entries[i + 1];
    }
    if !Conflicts(st, q[0], x.entries[0]) && IsReplayed(st, q[1..], rest, j) {
      assert forall i :: 0 < i <= j + 1 ==> x.pops[i] == rest.pops[i - 1];
      assert forall i :: 0 < i < j + 1 ==> q[i] == q[1..][i - 1] && x.entries[i] == rest.entries[i - 1];
    }
  }

  lemma RoundStep(st: Store, q: seq<Pending>, x: ResumeWeather, t: TaskId, f: Fate)
    requires Fits(x, q) && q != [] && x.pops[0]
    ensures var rest := x.(pops := x.pops[1..], entries := x.entries[1..]);
            RoundMeets(st, q, x, t, f) <==>
              (q[0].task == t && ReplayMeets(st, q[0], x.entries[0], f))
              || (!Conflicts(st, q[0], x.entries[0]) && RoundMeets(st, q[1..], rest, t, f))
  {
    var rest := x.(pops := x.pops[1..], entries := x.entries[1..]);
    assert forall j: nat :: IsReplayed(st, q, x, j) ==> j < |q|;
    assert forall j: nat :: IsReplayed(st, q[1..], rest, j) ==> j < |q| - 1;
    ReplayedLater(st, q, x, 0);
    hide Conflicts, IsReplayed, ReplayMeets;
    if RoundMeets(st, q, x, t, f) {
      var j: nat :| IsReplayed(st, q, x, j) && q[j].task == t && ReplayMeets(st, q[j], x.entries[j], f);
      if j > 0 {
        ReplayedLater(st, q, x, j - 1);
        assert q[1..][j - 1] == q[j] && rest.entries[j - 1] == x.entries[j];
      }
    }
    if !Conflicts(st, q[0], x.entries[0]) && RoundMeets(st, q[1..], rest, t, f) {
      var j: nat :| IsReplayed(st, q[1..], rest, j) && q[1..][j].task == t
                    && ReplayMeets(st, q[1..][j], rest.entries[j], f);
      ReplayedLater(st, q, x, j);
      assert q[j + 1] == q[1..][j] && x.entries[j + 1] == rest.entries[j];
    }
  }

  lemma {:induction false} RoundFates(d: Desk, p: ProjectId, x: ResumeWeather, sofar: Summary, t: TaskId, f: Fate)
    requires p < |d.projects| && Fits(x, d.projects[p].pending)
    ensures IsFated(ReplayFrom(d, p, x.pops, x.entries, sofar).0, t, f)
            <==> IsFated(d, t, f) || RoundMeets(d.store, d.projects[p].pending, x, t, f)
    decreases |x.entries|
  {
    hide ReplayOne, Conflicts, ReplayMeets, IsFated, Records;
    var q := d.projects[p].pending;
    if x.pops[0] && q != [] {
      var popped := Pop(d, p);
      var (d1, r) := ReplayOne(popped, p, q[0], x.entries[0]);
      ReplayOneConflicts(popped, p, q[0], x.entries[0]);
      ReplayRecordsSo(popped, p, q[0], x.entries[0]);
      RecordsFate(popped, d1, q[0].task, g => ReplayMeets(popped.store, q[0], x.entries[0], g), t, f);
      assert IsFated(popped, t, f) == IsFated(d, t, f) by { PoppingSettlesNothing(d, p, t, f); }
      var rest := x.(pops := x.pops[1..], entries := x.entries[1..]);
      RoundStep(d.store, q, x, t, f);
      hide RoundMeets;
      if !r.RefrozenConflict? {
        RoundFates(d1, p, rest, Tally(sofar, q[0].task, r), t, f);
      }
    }
  }

  lemma PoppingSettlesNothing(d: Desk, p: ProjectId, t: TaskId, f: Fate)
    requires p < |d.projects| && d.projects[p].pending != []
    ensures IsFated(Pop(d, p), t, f) == IsFated(d, t, f)
  {
  }

  /** The resume gets as far as replaying the queue. */
  predicate Replays(d: Desk, p: ProjectId, x: ResumeWeather) {
    && p < |d.projects| && !d.stopped && d.projects[p].frozen && d.projects[p].hasDirectory
    && x.unfreezeWorks && x.commitWorks
  }

  /** A trigger, or the replay of a resume, meets t so. */
  ghost predicate Meets(d: Desk, s: Step, t: TaskId, f: Fate)
    requires Enabled(d, s)
  {
    match s
    case Trigger(u, w) => u == t && TriggerMeets(d, t, w, f)
    case Resume(p, x) => Replays(d, p, x) && RoundMeets(d.store, d.projects[p].pending, x, t, f)
    case _ => false
  }

  lemma StepFatesExactlyWhen(d: Desk, s: Step, t: TaskId, f: Fate)
    requires Enabled(d, s)
    ensures IsFated(Next(d, s), t, f) <==> IsFated(d, t, f) || Meets(d, s, t, f)
  {
    match s
    case Trigger(u, w) =>
      TriggerRecordsSo(d, u, w);
      RecordsFate(d, Next(d, s), u, g => TriggerMeets(d, u, w, g), t, f);
      hide TriggerMeets, IsFated, Records, MergeAndMaybeReview;
    case Resume(p, x) =>
      hide ReplayFrom, RoundMeets, IsOnTrail;
      if p < |d.projects| {
        RoundFates(SetFrozen(d, p, false), p, x, EMPTY_SUMMARY, t, f);
      }
    case _ => hide IsOnTrail;
  }

  /** Some trigger or resume has put t on record. */
  predicate IsDisposed(d: Desk, t: TaskId) {
    exists i :: 0 <= i < |d.trail| && d.trail[i].task == t
  }

  lemma MetIsNotDisposed(d: Desk, s: Step, t: TaskId, f: Fate)
    requires Inv(d) && Enabled(d, s) && Meets(d, s, t, f)
    ensures !IsDisposed(d, t)
  {
    assert Custody(d)[t] <= 1;
    if IsDisposed(d, t) {
      var i :| 0 <= i < |d.trail| && d.trail[i].task == t;
      TrailMember(d.trail, d.trail[i]);
    }
    hide Conflicts, ReplayMeets;
    if s.Resume? {
      var q := d.projects[s.project].pending;
      var j: nat :| IsReplayed(d.store, q, s.answers, j) && q[j].task == t;
      QueueMember(q, j);
      AllQueuedMember(d.projects, s.project, t);
    } else {
      assert t in d.placed;
    }
    hide TriggerMeets;
  }

  /** Somewhere along the run t is met so, and was not disposed of before. */
  ghost predicate IsMet(d: Desk, steps: seq<Step>, t: TaskId, f: Fate)
    requires CanRun(d, steps)
    decreases |steps|
  {
    steps != []
    && ((Meets(d, steps[0], t, f) && !IsDisposed(d, t)) || IsMet(Next(d, steps[0]), steps[1..], t, f))
  }

  lemma {:induction false} RunFatesExactlyWhen(d: Desk, steps: seq<Step>, t: TaskId, f: Fate)
    requires Inv(d) && CanRun(d, steps)
    ensures IsFated(Run(d, steps), t, f) <==> IsFated(d, t, f) || IsMet(d, steps, t, f)
    decreases |steps|
  {
    hide Inv, Next, Enabled, Meets, IsDisposed, IsFated;
    if steps != [] {
      StepKeeps(d, steps[0]);
      StepFatesExactlyWhen(d, steps[0], t, f);
      if Meets(d, steps[0], t, f) {
        MetIsNotDisposed(d, steps[0], t, f);
      }
      RunFatesExactlyWhen(Next(d, steps[0]), steps[1..], t, f);
    }
  }

  /** Main result: along every run a change set is merged, superseded, parked or handed
      to the resolver if and only if some trigger or resume met it so before anything
      else disposed of it; and only if it landed. */
  lemma SettledExactlyAsMetFirst(d: Desk, steps: seq<Step>, t: TaskId, f: Fate)
    requires IsOpening(d) && CanRun(d, steps)
    ensures var end := Run(d, steps);
            && (IsFated(end, t, f) <==> IsMet(d, steps, t, f))
            && (IsFated(end, t, f) ==> t in Landings(steps))
  {
    OpeningInv(d);
    RunFatesExactlyWhen(d, steps, t, f);
    RunKeeps(d, steps);
    EveryLandingIsAccountedForOnce(d, steps);
    hide CanRun, Run, Landings, IsMet;
    var end := Run(d, steps);
    if IsFated(end, t, f) {
      var i :| 0 <= i < |end.trail| && end.trail[i].task == t;
      TrailMember(end.trail, end.trail[i]);
    }
  }

  // ---- A project that nobody resumes ----

  /** The entry that a step adds to the queue of project p. */
  function DeferredBy(d: Desk, s: Step, p: ProjectId): seq<Pending>
    requires p < |d.projects|
  {
    if s.Trigger? && Takes(d, s.task) && ProjectOf(d, d.store.dispatches[s.task].issue) == Some(p)
       && d.projects[p].frozen && s.weather.queueWritable
    then [Pending(s.task, d.store.dispatches[s.task].issue, d.placed[s.task])] else []
  }

  /** A trigger meets a conflict that is left to a human. */
  predicate FreezesBy(d: Desk, s: Step, p: ProjectId) {
    && s.Trigger? && Takes(d, s.task) && ProjectOf(d, d.store.dispatches[s.task].issue) == Some(p)
    && d.placed[s.task] == Files(d.store.baselines[s.task]) && s.weather.repoReady && s.weather.outcome.Conflict?
    && !s.weather.autoResolve && s.weather.freezeWritable
  }

  lemma StepDefers(d: Desk, s: Step, p: ProjectId)
    requires Inv(d) && Enabled(d, s) && p < |d.projects| && !(s.Resume? && s.project == p)
    ensures var d' := Next(d, s);
            && p < |d'.projects|
            && d'.projects[p].pending == d.projects[p].pending + DeferredBy(d, s, p)
            && (d'.projects[p].frozen <==> d.projects[p].frozen || FreezesBy(d, s, p))
  {
    match s
    case Trigger(t, w) =>
      TriggerDefersAndFreezesExactlyWhen(d, t, w);
      TriggerTouchesOneProject(d, t, w, p);
      hide Inv, MergeAndMaybeReview;
    case Resume(other, x) => ResumeTouchesOneProject(d, other, x, p);
    case _ =>
  }

  lemma TriggerTouchesOneProject(d: Desk, t: TaskId, w: Weather, p: ProjectId)
    requires p < |d.projects|
    ensures var d' := MergeAndMaybeReview(d, t, w).0;
            && |d'.projects| == |d.projects|
            && (!Takes(d, t) || ProjectOf(d, d.store.dispatches[t].issue) != Some(p)
                ==> d'.projects[p] == d.projects[p])
  {
  }

  lemma {:induction false} ReplayTouchesOneProject(d: Desk, p: ProjectId, pops: seq<bool>, ws: seq<Weather>,
                                                   sofar: Summary, other: ProjectId)
    requires p < |d.projects| && |ws| == |d.projects[p].pending| && |pops| == |ws| + 1
    requires other < |d.projects| && other != p
    ensures var d' := ReplayFrom(d, p, pops, ws, sofar).0;
            other < |d'.projects| && d'.projects[other] == d.projects[other]
    decreases |ws|
  {
    if pops[0] && ws != [] {
      var e := d.projects[p].pending[0];
      var (d1, r) := ReplayOne(Pop(d, p), p, e, ws[0]);
      ReplayOneRecords(Pop(d, p), p, e, ws[0]);
      ReplayOneTouchesOneProject(Pop(d, p), p, e, ws[0], other);
      hide ReplayOne;
      if !r.RefrozenConflict? {
        ReplayTouchesOneProject(d1, p, pops[1..], ws[1..], Tally(sofar, e.task, r), other);
      }
    }
  }

  lemma ReplayOneTouchesOneProject(d: Desk, p: ProjectId, e: Pending, w: Weather, other: ProjectId)
    requires p < |d.projects| && other < |d.projects| && other != p
    ensures var d' := ReplayOne(d, p, e, w).0;
            other < |d'.projects| && d'.projects[other] == d.projects[other]
  {
  }

  lemma ResumeTouchesOneProject(d: Desk, p: ProjectId, x: ResumeWeather, other: ProjectId)
    requires other < |d.projects| && other != p && (p < |d.projects| ==> Fits(x, d.projects[p].pending))
    ensures var d' := ReplayPendingMerges(d, p, x).0;
            other < |d'.projects| && d'.projects[other] == d.projects[other]
  {
    if p < |d.projects| {
      ReplayTouchesOneProject(SetFrozen(d, p, false), p, x.pops, x.entries, EMPTY_SUMMARY, other);
    }
  }

  ghost function Deferred(d: Desk, steps: seq<Step>, p: ProjectId): seq<Pending>
    requires CanRun(d, steps)
    decreases |steps|
  {
    if steps == [] || p >= |d.projects| then []
    else DeferredBy(d, steps[0], p) + Deferred(Next(d, steps[0]), steps[1..], p)
  }

  ghost predicate EverFreezes(d: Desk, steps: seq<Step>, p: ProjectId)
    requires CanRun(d, steps)
    decreases |steps|
  {
    steps != [] && (FreezesBy(d, steps[0], p) || EverFreezes(Next(d, steps[0]), steps[1..], p))
  }

  /** Main result: while nobody resumes a project, its queue is what it was, followed
      by the change sets of the triggers that met it frozen, in their order; and it is
      frozen if and only if it was, or a conflict was left to a human. */
  lemma {:induction false} QueueIsWhatWasDeferred(d: Desk, steps: seq<Step>, p: ProjectId)
    requires Inv(d) && CanRun(d, steps) && p < |d.projects|
    requires forall k :: 0 <= k < |steps| ==> !(steps[k].Resume? && steps[k].project == p)
    ensures var end := Run(d, steps);
            && p < |end.projects|
            && end.projects[p].pending == d.projects[p].pending + Deferred(d, steps, p)
            && (end.projects[p].frozen <==> d.projects[p].frozen || EverFreezes(d, steps, p))
    decreases |steps|
  {
    hide Inv, Next, Enabled, DeferredBy, FreezesBy;
    if steps != [] {
      StepKeeps(d, steps[0]);
      StepDefers(d, steps[0], p);
      var d1 := Next(d, steps[0]);
      QueueIsWhatWasDeferred(d1, steps[1..], p);
      assert (d.projects[p].pending + DeferredBy(d, steps[0], p)) + Deferred(d1, steps[1..], p)
          == d.projects[p].pending + (DeferredBy(d, steps[0], p) + Deferred(d1, steps[1..], p));
    }
  }

  /** Main result: a stranded queue stays as it is, whatever triggers and resumes come,
      until a conflict that is left to a human freezes the project again. */
  lemma {:induction false} StrandedUntilFrozenAgain(d: Desk, steps: seq<Step>, p: ProjectId)
    requires Inv(d) && CanRun(d, steps) && p < |d.projects| && Stranded(d, p) && !EverFreezes(d, steps, p)
    ensures var end := Run(d, steps);
            p < |end.projects| && Stranded(end, p) && end.projects[p].pending == d.projects[p].pending
    decreases |steps|
  {
    hide Inv, Next, Enabled, FreezesBy, ReplayPendingMerges;
    if steps != [] {
      StepKeeps(d, steps[0]);
      StrandedStep(d, steps[0], p);
      StrandedUntilFrozenAgain(Next(d, steps[0]), steps[1..], p);
    }
  }

  lemma StrandedStep(d: Desk, s: Step, p: ProjectId)
    requires Inv(d) && Enabled(d, s) && p < |d.projects| && Stranded(d, p)
    ensures var d' := Next(d, s);
            && p < |d'.projects| && d'.projects[p].pending == d.projects[p].pending
            && (d'.projects[p].frozen <==> FreezesBy(d, s, p))
  {
    if s.Resume? && s.project == p {
      StrandedQueueIsNotResumed(d, p, s.answers);
    } else {
      StepDefers(d, s, p);
    }
    hide Inv, FreezesBy, ReplayPendingMerges, MergeAndMaybeReview;
  }

  // ---- A run into a stranded queue ----

  /** A desk whose one project is frozen, with t done and landed, or not yet. */
  function FrozenDesk(t: TaskId, landed: bool): Desk {
    Desk(Store(map[t := "c0"], map[t := Dispatch(7, Done)], map[7 := Some(0)]), [Project(true, true, [])],
         if landed then map[t := Files("c0")] else map[], {}, false, [])
  }

  const FROZEN_OPENING := Desk(Store(map[], map[], map[7 := Some(0)]), [Project(true, true, [])], map[], {}, false, [])

  lemma {:induction false} RunConcat(d: Desk, a: seq<Step>, b: seq<Step>)
    requires CanRun(d, a) && CanRun(Run(d, a), b)
    ensures CanRun(d, a + b) && Run(d, a + b) == Run(Run(d, a), b)
    decreases |a|
  {
    hide Next, Enabled;
    if a == [] {
      assert a + b == b;
    } else {
      assert (a + b)[1..] == a[1..] + b;
      RunConcat(Next(d, a[0]), a[1..], b);
    }
  }

  lemma Then(d: Desk, steps: seq<Step>, s: Step) returns (more: seq<Step>)
    requires CanRun(d, steps) && Enabled(Run(d, steps), s)
    ensures more == steps + [s] && CanRun(d, more) && Run(d, more) == Next(Run(d, steps), s)
  {
    more := steps + [s];
    hide Next, Enabled;
    assert [s][1..] == [];
    RunConcat(d, steps, [s]);
  }

  lemma DoneAndLanded(t: TaskId)
    ensures Enabled(FROZEN_OPENING, Dispatched(t, 7, Some("c0")))
    ensures var d1 := Next(FROZEN_OPENING, Dispatched(t, 7, Some("c0")));
            Enabled(d1, Finished(t, Done)) && Next(d1, Finished(t, Done)) == FrozenDesk(t, false)
    ensures Enabled(FrozenDesk(t, false), Landed(t, Files("c0")))
    ensures Next(FrozenDesk(t, false), Landed(t, Files("c0"))) == FrozenDesk(t, true)
  {
    var d := FrozenDesk(t, false);
    NothingQueued(d.projects);
    assert Custody(d) == multiset{};
    hide Custody;
  }

  const WORKING := Weather(true, true, true, Clean, false)

  lemma DeferredThenStranded(t: TaskId)
    ensures var d := Next(FrozenDesk(t, true), Trigger(t, WORKING));
            var x := ResumeWeather(true, false, [true, true], [WORKING]);
            && d.projects == [Project(true, true, [Pending(t, 7, Files("c0"))])]
            && Enabled(d, Resume(0, x))
            && Next(d, Resume(0, x)).projects == [Project(true, false, [Pending(t, 7, Files("c0"))])]
  {
    var d0, e := FrozenDesk(t, true), Pending(t, 7, Files("c0"));
    var d1 := d0.(placed := d0.placed - {t});
    assert ProjectOf(d1, 7) == Some(0) && d0.placed[t] == Files("c0");
    assert MergeAndMaybeReview(d0, t, WORKING) == SettleTaken(d1, t, 7, Files("c0"), WORKING);
    assert SettleTaken(d1, t, 7, Files("c0"), WORKING).0 == Enqueue(d1, 0, e);
    assert [Project(true, true, [])][0 := Project(true, true, [e])] == [Project(true, true, [e])];
    assert [] + [e] == [e];
    assert [Project(true, true, [e])][0 := Project(true, false, [e])] == [Project(true, false, [e])];
  }

  /** A change set lands while its project is frozen and is queued; the human resumes
      and the commit fails: the queue is left behind no freeze. */
  lemma ResumedIntoAStrandedQueue(t: TaskId) returns (steps: seq<Step>)
    ensures IsOpening(FROZEN_OPENING) && CanRun(FROZEN_OPENING, steps)
    ensures var end := Run(FROZEN_OPENING, steps);
            |end.projects| == 1 && Stranded(end, 0) && end.projects[0].pending == [Pending(t, 7, Files("c0"))]
  {
    var d := FROZEN_OPENING;
    NoSteps(d);
    DoneAndLanded(t);
    DeferredThenStranded(t);
    hide CanRun, Run, Next, Enabled, FrozenDesk;
    steps := Then(d, [], Dispatched(t, 7, Some("c0")));
    steps := Then(d, steps, Finished(t, Done));
    steps := Then(d, steps, Landed(t, Files("c0")));
    assert Enabled(FrozenDesk(t, true), Trigger(t, WORKING)) by { TriggersAreEnabled(FrozenDesk(t, true), t, WORKING); }
    steps := Then(d, steps, Trigger(t, WORKING));
    steps := Then(d, steps, Resume(0, ResumeWeather(true, false, [true, true], [WORKING])));
  }

  lemma TriggersAreEnabled(d: Desk, t: TaskId, w: Weather)
    ensures Enabled(d, Trigger(t, w))
  {
  }

  lemma NoSteps(d: Desk)
    ensures CanRun(d, []) && Run(d, []) == d
  {
  }
}
