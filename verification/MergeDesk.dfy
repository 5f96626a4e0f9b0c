/** The master's merge desk: a worker's change set is merged into the project
    once its dispatch is done and its archive has landed, whichever comes last.
    Emergency stop, a frozen project, a stale baseline or a conflict send the
    change set elsewhere; nothing may be lost or merged twice. */
module MergeDesk {
  import opened Wrappers

  type TaskId = string
  type IssueId = int
  type ProjectId = nat
  type Commit = string

  datatype DispatchState = InFlight | Done | Failed | Cancelled

  datatype Dispatch = Dispatch(issue: IssueId, state: DispatchState)

  /** What reading a placement directory finds. */
  datatype ChangeSet = NoFiles | Corrupt | Files(base: Commit)

  datatype Pending = Pending(task: TaskId, issue: IssueId, change: ChangeSet)

  datatype Project = Project(hasDirectory: bool, frozen: bool, pending: seq<Pending>)

  /** The rows of the board store that the desk reads. Issues map to their
      project, if any. */
  datatype Store = Store(baselines: map<TaskId, Commit>, dispatches: map<TaskId, Dispatch>,
                         issues: map<IssueId, Option<ProjectId>>)

  /** Where a change set ended up, as the audit trail and the resume summaries
      record it. */
  datatype Record =
    | MergedIn(task: TaskId, change: ChangeSet)
    | Superseded(task: TaskId)
    | Parked(task: TaskId)
    | HandedToResolver(task: TaskId)

  datatype Desk = Desk(store: Store, projects: seq<Project>, placed: map<TaskId, ChangeSet>, merged: set<TaskId>,
                       stopped: bool, trail: seq<Record>)

  datatype GitOutcome = Clean | Conflict | Broken

  /** What the outside world answers during one attempt. */
  datatype Weather = Weather(queueWritable: bool, freezeWritable: bool, repoReady: bool,
                             outcome: GitOutcome, autoResolve: bool)

  datatype Attempt =
    | NotArchivePipeline | WaitingDispatch | WaitingChangeset | EstopHalted
    | AttemptSuperseded | AttemptMerged | AttemptParked | FrozenDeferred | AutoResolveStarted

  // ---- The decisions, on values ----

  function Park(d: Desk, t: TaskId): Desk {
    d.(trail := d.trail + [Parked(t)])
  }

  function MarkMerged(d: Desk, t: TaskId, change: ChangeSet): Desk {
    d.(merged := d.merged + {t}, trail := d.trail + [MergedIn(t, change)])
  }

  function ProjectOf(d: Desk, issue: IssueId): Option<ProjectId> {
    if issue in d.store.issues && d.store.issues[issue].Some? && d.store.issues[issue].value < |d.projects|
    then d.store.issues[issue] else None
  }

  function SetFrozen(d: Desk, p: ProjectId, on: bool): Desk
    requires p < |d.projects|
  {
    d.(projects := d.projects[p := d.projects[p].(frozen := on)])
  }

  predicate Queued(q: seq<Pending>, t: TaskId) {
    exists i :: 0 <= i < |q| && q[i].task == t
  }

  /** Appending a task that is already queued leaves the queue as it is. */
  function Enqueue(d: Desk, p: ProjectId, e: Pending): Desk
    requires p < |d.projects|
  {
    if Queued(d.projects[p].pending, e.task) then d
    else d.(projects := d.projects[p := d.projects[p].(pending := d.projects[p].pending + [e])])
  }

  /** One trigger for task t, from either leg. */
  function MergeAndMaybeReview(d: Desk, t: TaskId, w: Weather): (Desk, Attempt) {
    if t !in d.store.baselines then (d, NotArchivePipeline)
    else if t in d.merged then (d, AttemptMerged)
    else if t !in d.store.dispatches then (d, NotArchivePipeline)
    else
      var dispatch := d.store.dispatches[t];
      if dispatch.state.Failed? || dispatch.state.Cancelled? then
        (if t in d.placed then d.(placed := d.placed - {t}, trail := d.trail + [Superseded(t)]) else d,
         AttemptSuperseded)
      else if dispatch.state.InFlight? then (d, WaitingDispatch)
      else if d.stopped then (d, EstopHalted)
      else if t !in d.placed then (d, WaitingChangeset)
      else SettleTaken(d.(placed := d.placed - {t}), t, dispatch.issue, d.placed[t], w)
  }

  /** The change set has been taken out of the placed table. */
  function SettleTaken(d: Desk, t: TaskId, issue: IssueId, change: ChangeSet, w: Weather): (Desk, Attempt) {
    var p := ProjectOf(d, issue);
    if p.None? || !d.projects[p.value].hasDirectory then (Park(d, t), AttemptParked)
    else if d.projects[p.value].frozen then
      if w.queueWritable then (Enqueue(d, p.value, Pending(t, issue, change)), FrozenDeferred)
      else (Park(d, t), AttemptParked)
    else if change.Corrupt? then (Park(d, t), AttemptParked)
    else if change.NoFiles? then (MarkMerged(d, t, change), AttemptMerged)
    else if t !in d.store.baselines || change.base != d.store.baselines[t] then
      (d.(trail := d.trail + [Superseded(t)]), AttemptSuperseded)
    else if !w.repoReady then (Park(d, t), AttemptParked)
    else
      match w.outcome
      case Clean => (MarkMerged(d, t, change), AttemptMerged)
      case Broken => (Park(d, t), AttemptParked)
      case Conflict =>
        if w.autoResolve then (d.(trail := d.trail + [HandedToResolver(t)]), AutoResolveStarted)
        else (Park(if w.freezeWritable then SetFrozen(d, p.value, true) else d, t), AttemptParked)
  }

  // ---- Resuming a frozen project ----

  datatype Replay = ReplayMerged | ReplaySuperseded | ReplayParked | RefrozenConflict

  datatype Summary = Summary(merged: nat, superseded: nat, parked: seq<TaskId>, refrozen: bool)

  datatype ResumeReply =
    | Refused | NotFrozen | UnfreezeFailed | CommitFailed | PopFailed | Replayed(summary: Summary)

  /** What the outside world answers during one resume: to the writes at its start,
      to each pop of the queue, the one that finds it empty included, and to each
      replayed entry. */
  datatype ResumeWeather = ResumeWeather(unfreezeWorks: bool, commitWorks: bool, pops: seq<bool>,
                                         entries: seq<Weather>)

  predicate Fits(x: ResumeWeather, q: seq<Pending>) {
    |x.entries| == |q| && |x.pops| == |q| + 1
  }

  /** One deferred change set, already popped from the queue of project p. */
  function ReplayOne(d: Desk, p: ProjectId, e: Pending, w: Weather): (Desk, Replay)
    requires p < |d.projects|
  {
    if e.issue !in d.store.issues then (Park(d, e.task), ReplayParked)
    else if e.change.NoFiles? then (MarkMerged(d, e.task, e.change), ReplayMerged)
    else if e.change.Corrupt? || e.task !in d.store.baselines then (Park(d, e.task), ReplayParked)
    else if e.change.base != d.store.baselines[e.task] then
      (d.(trail := d.trail + [Superseded(e.task)]), ReplaySuperseded)
    else if !w.repoReady then (Park(d, e.task), ReplayParked)
    else
      match w.outcome
      case Clean => (MarkMerged(d, e.task, e.change), ReplayMerged)
      case Broken => (Park(d, e.task), ReplayParked)
      case Conflict => (Park(if w.freezeWritable then SetFrozen(d, p, true) else d, e.task), RefrozenConflict)
  }

  function Pop(d: Desk, p: ProjectId): Desk
    requires p < |d.projects| && d.projects[p].pending != []
  {
    d.(projects := d.projects[p := d.projects[p].(pending := d.projects[p].pending[1..])])
  }

  function Tally(s: Summary, t: TaskId, r: Replay): Summary {
    match r
    case ReplayMerged => s.(merged := s.merged + 1)
    case ReplaySuperseded => s.(superseded := s.superseded + 1)
    case ReplayParked => s.(parked := s.parked + [t])
    case RefrozenConflict => s.(parked := s.parked + [t], refrozen := true)
  }

  lemma ReplayOneKeepsQueues(d: Desk, p: ProjectId, e: Pending, w: Weather)
    requires p < |d.projects|
    ensures var d' := ReplayOne(d, p, e, w).0;
            |d'.projects| == |d.projects| && d'.projects[p].pending == d.projects[p].pending
  {
  }

  /** How a round of pops ended. */
  datatype RoundEnd = QueueEmpty | PopBroke | Refroze

  /** Entries are popped one by one until the queue is empty, a pop fails or an
      entry conflicts; what is behind stays queued. */
  function ReplayFrom(d: Desk, p: ProjectId, pops: seq<bool>, ws: seq<Weather>, sofar: Summary)
    : (Desk, Summary, RoundEnd)
    requires p < |d.projects| && |ws| == |d.projects[p].pending| && |pops| == |ws| + 1
    decreases |ws|
  {
    if !pops[0] then (d, sofar, PopBroke)
    else if ws == [] then (d, sofar, QueueEmpty)
    else
      var e := d.projects[p].pending[0];
      var (d', r) := ReplayOne(Pop(d, p), p, e, ws[0]);
      ReplayOneKeepsQueues(Pop(d, p), p, e, ws[0]);
      if r.RefrozenConflict? then (d', Tally(sofar, e.task, r), Refroze)
      else ReplayFrom(d', p, pops[1..], ws[1..], Tally(sofar, e.task, r))
  }

  const EMPTY_SUMMARY := Summary(0, 0, [], false)

  function ReplayPendingMerges(d: Desk, p: ProjectId, x: ResumeWeather): (Desk, ResumeReply)
    requires p < |d.projects| ==> Fits(x, d.projects[p].pending)
  {
    if d.stopped || p >= |d.projects| then (d, Refused)
    else if !d.projects[p].frozen then (d, NotFrozen)
    else if !d.projects[p].hasDirectory then (d, Refused)
    else if !x.unfreezeWorks then (d, UnfreezeFailed)
    else
      var d1 := SetFrozen(d, p, false);
      if !x.commitWorks then (d1, CommitFailed)
      else
        var (d2, summary, end) := ReplayFrom(d1, p, x.pops, x.entries, EMPTY_SUMMARY);
        (d2, if end.PopBroke? then PopFailed else Replayed(summary))
  }

  /** The release watcher's round over the placed table, in some order. */
  function RetryAll(d: Desk, order: seq<TaskId>, ws: seq<Weather>): Desk
    requires |ws| == |order|
  {
    if order == [] then d
    else
      var n := |order| - 1;
      MergeAndMaybeReview(RetryAll(d, order[..n], ws[..n]), order[n], ws[n]).0
  }

  // ---- The tables, updated in place ----

  class MergeTables {
    var store: Store
    var projects: seq<Project>
    var placed: map<TaskId, ChangeSet>
    var merged: set<TaskId>
    var stopped: bool
    var trail: seq<Record>

    ghost function Value(): Desk
      reads this
    {
      Desk(store, projects, placed, merged, stopped, trail)
    }

    method RegisterPlaced(t: TaskId, change: ChangeSet)
      modifies this`placed
      ensures Value() == old(Value()).(placed := old(placed)[t := change])
    {
      placed := placed[t := change];
    }

    method ParkMerge(t: TaskId)
      modifies this`trail
      ensures Value() == Park(old(Value()), t)
    {
      trail := trail + [Parked(t)];
    }

    method RecordMerge(t: TaskId, change: ChangeSet)
      modifies this`trail, this`merged
      ensures Value() == MarkMerged(old(Value()), t, change)
    {
      merged := merged + {t};
      trail := trail + [MergedIn(t, change)];
    }

    method AppendPending(p: ProjectId, e: Pending)
      requires p < |projects|
      modifies this`projects
      ensures Value() == Enqueue(old(Value()), p, e)
    {
      if forall i :: 0 <= i < |projects[p].pending| ==> projects[p].pending[i].task != e.task {
        projects := projects[p := projects[p].(pending := projects[p].pending + [e])];
      }
    }

    method TryMerge(t: TaskId, w: Weather) returns (a: Attempt)
      modifies this
      ensures (Value(), a) == MergeAndMaybeReview(old(Value()), t, w)
    {
      if t !in store.baselines { return NotArchivePipeline; }
      if t in merged { return AttemptMerged; }
      if t !in store.dispatches { return NotArchivePipeline; }
      var dispatch := store.dispatches[t];
      if dispatch.state.Failed? || dispatch.state.Cancelled? {
        if t in placed {
          placed := placed - {t};
          trail := trail + [Superseded(t)];
        }
        return AttemptSuperseded;
      }
      if !dispatch.state.Done? { return WaitingDispatch; }
      if stopped { return EstopHalted; }
      if t !in placed { return WaitingChangeset; }
      var change := placed[t];
      placed := placed - {t};
      a := Settle(t, dispatch.issue, change, w);
    }

    method Settle(t: TaskId, issue: IssueId, change: ChangeSet, w: Weather) returns (a: Attempt)
      modifies this
      ensures (Value(), a) == SettleTaken(old(Value()), t, issue, change, w)
    {
      a := AttemptParked;
      if issue !in store.issues || store.issues[issue].None? || store.issues[issue].value >= |projects| {
        ParkMerge(t);
        return;
      }
      var p := store.issues[issue].value;
      if !projects[p].hasDirectory {
        ParkMerge(t);
        return;
      }
      if projects[p].frozen {
        if w.queueWritable {
          AppendPending(p, Pending(t, issue, change));
          return FrozenDeferred;
        }
        ParkMerge(t);
        return;
      }
      match change {
        case Corrupt =>
          ParkMerge(t);
        case NoFiles =>
          RecordMerge(t, change);
          a := AttemptMerged;
        case Files(base) =>
          if t !in store.baselines || base != store.baselines[t] {
            trail := trail + [Superseded(t)];
            return AttemptSuperseded;
          }
          if !w.repoReady || w.outcome.Broken? {
            ParkMerge(t);
          } else if w.outcome.Clean? {
            RecordMerge(t, change);
            a := AttemptMerged;
          } else if w.autoResolve {
            trail := trail + [HandedToResolver(t)];
            a := AutoResolveStarted;
          } else {
            if w.freezeWritable { projects := projects[p := projects[p].(frozen := true)]; }
            ParkMerge(t);
          }
      }
    }

    method ReplayEntry(p: ProjectId, e: Pending, w: Weather) returns (r: Replay)
      requires p < |projects|
      modifies this
      ensures (Value(), r) == ReplayOne(old(Value()), p, e, w)
    {
      r := ReplayParked;
      if e.issue !in store.issues || e.change.Corrupt? {
        ParkMerge(e.task);
      } else if e.change.NoFiles? {
        RecordMerge(e.task, e.change);
        r := ReplayMerged;
      } else if e.task !in store.baselines {
        ParkMerge(e.task);
      } else if e.change.base != store.baselines[e.task] {
        trail := trail + [Superseded(e.task)];
        r := ReplaySuperseded;
      } else if !w.repoReady || w.outcome.Broken? {
        ParkMerge(e.task);
      } else if w.outcome.Clean? {
        RecordMerge(e.task, e.change);
        r := ReplayMerged;
      } else {
        if w.freezeWritable { projects := projects[p := projects[p].(frozen := true)]; }
        ParkMerge(e.task);
        r := RefrozenConflict;
      }
    }

    method Resume(p: ProjectId, x: ResumeWeather) returns (r: ResumeReply)
      requires p < |projects| ==> Fits(x, projects[p].pending)
      modifies this
      ensures (Value(), r) == ReplayPendingMerges(old(Value()), p, x)
    {
      if stopped || p >= |projects| { return Refused; }
      if !projects[p].frozen { return NotFrozen; }
      if !projects[p].hasDirectory { return Refused; }
      if !x.unfreezeWorks { return UnfreezeFailed; }
      projects := projects[p := projects[p].(frozen := false)];
      if !x.commitWorks { return CommitFailed; }
      var s := EMPTY_SUMMARY;
      ghost var d1 := Value();
      var i := 0;
      assert x.pops[0..] == x.pops && x.entries[0..] == x.entries;
      while true
        invariant p < |projects| && i + |projects[p].pending| == |x.entries|
        invariant ReplayFrom(d1, p, x.pops, x.entries, EMPTY_SUMMARY)
               == ReplayFrom(Value(), p, x.pops[i..], x.entries[i..], s)
        decreases |projects[p].pending|
      {
        if !x.pops[i] { return PopFailed; }
        if projects[p].pending == [] { break; }
        var e := projects[p].pending[0];
        ghost var popped := Pop(Value(), p);
        projects := projects[p := projects[p].(pending := projects[p].pending[1..])];
        var one := ReplayEntry(p, e, x.entries[i]);
        ReplayOneKeepsQueues(popped, p, e, x.entries[i]);
        s := Tally(s, e.task, one);
        if one.RefrozenConflict? { return Replayed(s); }
        assert x.pops[i..][1..] == x.pops[i + 1..] && x.entries[i..][1..] == x.entries[i + 1..];
        i := i + 1;
      }
      r := Replayed(s);
    }

    /** `ws` is what the world answers to the i-th retry; the order of the table's
        keys is not defined and is handed back for the contract. */
    method RetryPlacedMerges(ws: seq<Weather>) returns (order: seq<TaskId>)
      requires |ws| == |placed|
      modifies this
      ensures |order| == |ws| && multiset(order) == multiset(old(placed).Keys)
      ensures Value() == RetryAll(old(Value()), order, ws)
    {
      var keys := placed.Keys;
      ghost var d0, keys0 := Value(), keys;
      assert |keys| == |ws|;
      order := [];
      while keys != {}
        invariant |order| + |keys| == |ws|
        invariant multiset(order) + multiset(keys) == multiset(keys0)
        invariant Value() == RetryAll(d0, order, ws[..|order|])
      {
        var t :| t in keys;
        keys := keys - {t};
        var n := |order|;
        var _ := TryMerge(t, ws[n]);
        assert (order + [t])[..n] == order && ws[..n + 1][..n] == ws[..n];
        order := order + [t];
      }
      assert ws[..|order|] == ws;
    }
  }
}
