/** What an emergency stop and a restart leave of a review: which issues are taken up
    again, and which are lost. */
module ReviewLoopStops {
  import opened Wrappers
  import opened PanelVote
  import opened ReviewLoop

  /** The guard of the replays: the newest decision is not older than the newest
      entry into review. */
  function LastDecision(log: seq<Activity>): int {
    if log == [] then -1 else if log[|log| - 1].Decided? then |log| - 1 else LastDecision(log[..|log| - 1])
  }

  function LastEntry(log: seq<Activity>): int {
    if log == [] then -1 else if log[|log| - 1].EnteredReview? then |log| - 1 else LastEntry(log[..|log| - 1])
  }

  predicate AlreadyConcluded(log: seq<Activity>) {
    LastDecision(log) >= 0 && (LastEntry(log) >= 0 ==> LastDecision(log) >= LastEntry(log))
  }

  /** A release of the stop takes the issue up again. */
  predicate IsResumed(c: Case) {
    c.parked || !AlreadyConcluded(c.log)
  }

  /** A review that runs, entered for a delivery or taken up again after a stop. */
  predicate IsUnderReview(c: Case) {
    c.stage.Reviewing? && !c.parked
  }

  predicate StoppedInSending(c: Case, p: Policy, r: Round) {
    && !r.stoppedAtEntry && r.answer.Some? && Decide(r.answer.value, RoundNumber(c), p).Redispatch?
    && !r.stoppedLater && r.sending.StoppedMeanwhile?
  }

  lemma DecidingConcludes(log: seq<Activity>, a: Action)
    ensures AlreadyConcluded(log + [Decided(a)])
  {
    EntryBelow(log);
    assert (log + [Decided(a)])[..|log|] == log;
  }

  lemma {:induction false} EntryBelow(log: seq<Activity>)
    ensures LastEntry(log) < |log| && LastDecision(log) < |log|
  {
    if log != [] {
      EntryBelow(log[..|log| - 1]);
    }
  }

  /** An emergency stop loses a running review exactly when it falls between the last
      checkpoint and the dispatch: the decision to redispatch is already on record, so
      the replays take the issue for concluded, and nothing has parked it. */
  lemma StopLosesAReviewExactlyWhen(c: Case, p: Policy, r: Round)
    requires IsUnderReview(c) && Reviewed(c, p, r).stage.Stopped?
    ensures !IsResumed(Reviewed(c, p, r)) <==> StoppedInSending(c, p, r)
  {
    hide PickRedispatchTarget;
    StopOnRecord(c, p, r);
  }

  /** The decision to redispatch is on record when the stop comes. */
  predicate Marks(c: Case, p: Policy, r: Round) {
    && Reviewed(c, p, r).stage.Stopped? && !r.stoppedAtEntry
    && r.answer.Some? && Decide(r.answer.value, RoundNumber(c), p).Redispatch?
  }

  lemma StopOnRecord(c: Case, p: Policy, r: Round)
    requires IsUnderReview(c) && Reviewed(c, p, r).stage.Stopped?
    ensures AlreadyConcluded(Reviewed(c, p, r).log) <==> AlreadyConcluded(c.log) || Marks(c, p, r)
  {
    hide PickRedispatchTarget;
    DecidingConcludes(c.log, Redispatch);
    hide AlreadyConcluded, Record;
  }

  // ---- Stops, releases and restarts ----

  datatype Happening = Examine(round: Round) | Release | Restart

  /** Until the issue is settled, handed over or yielded. */
  predicate CanHappen(c: Case, h: Happening) {
    match h
    case Examine(_) => c.stage.Reviewing?
    case Release => c.stage.Stopped?
    case Restart => c.stage.Stopped? || c.stage.Reviewing?
  }

  /** What is neither parked nor without a decision is left alone. */
  function TakeUp(c: Case): Case {
    if IsResumed(c) then c.(stage := Reviewing, retry := 0, parked := false) else c.(stage := Stopped)
  }

  /** A restart ends the review in flight and empties the stop queue and the ledger. */
  function Happens(c: Case, p: Policy, h: Happening): Case {
    match h
    case Examine(r) => Turn(c, p, r)
    case Release => TakeUp(c)
    case Restart => TakeUp(c.(parked := false, streak := None))
  }

  ghost predicate CanRun(c: Case, p: Policy, hs: seq<Happening>)
    decreases |hs|
  {
    hs == [] || (CanHappen(c, hs[0]) && CanRun(Happens(c, p, hs[0]), p, hs[1..]))
  }

  ghost function Run(c: Case, p: Policy, hs: seq<Happening>): Case
    requires CanRun(c, p, hs)
    decreases |hs|
  {
    if hs == [] then c else Run(Happens(c, p, hs[0]), p, hs[1..])
  }

  /** Stopped, and no release or restart takes it up again. */
  predicate IsLost(c: Case) {
    c.stage.Stopped? && !IsResumed(c)
  }

  predicate SendsOut(c: Case, p: Policy, h: Happening) {
    h.Examine? && Reviewed(c, p, h.round).stage.AtWorker?
  }

  ghost predicate EverSendsOut(c: Case, p: Policy, hs: seq<Happening>)
    requires CanRun(c, p, hs)
    decreases |hs|
  {
    hs != [] && (SendsOut(c, p, hs[0]) || EverSendsOut(Happens(c, p, hs[0]), p, hs[1..]))
  }

  /** Some review met the stop with its decision to redispatch on record, and the issue
      has not been sent out since. */
  ghost predicate IsMarked(c: Case, p: Policy, hs: seq<Happening>)
    requires CanRun(c, p, hs)
    decreases |hs|
  {
    hs != []
    && var c' := Happens(c, p, hs[0]);
       || (hs[0].Examine? && Marks(c, p, hs[0].round) && !EverSendsOut(c', p, hs[1..]))
       || IsMarked(c', p, hs[1..])
  }

  predicate IsOpen(c: Case) {
    c.stage.Stopped? || IsUnderReview(c)
  }

  lemma SendingEntersAnew(c: Case, p: Policy, r: Round)
    requires Reviewed(c, p, r).stage.AtWorker?
    ensures !AlreadyConcluded(Turn(c, p, r).log)
  {
    hide Reviewed;
    var c' := Reviewed(c, p, r);
    EntryBelow(c'.log);
    assert Deliver(c').log[..|c'.log|] == c'.log;
  }

  lemma ReviewOnRecord(c: Case, p: Policy, r: Round)
    requires IsUnderReview(c)
    ensures var c' := Turn(c, p, r);
            c'.stage.Stopped? || c'.stage.Reviewing? ==>
              && IsOpen(c')
              && (AlreadyConcluded(c'.log)
                  <==> Marks(c, p, r) || (AlreadyConcluded(c.log) && !Reviewed(c, p, r).stage.AtWorker?))
  {
    hide PickRedispatchTarget;
    if Reviewed(c, p, r).stage.AtWorker? {
      SendingEntersAnew(c, p, r);
    } else if Reviewed(c, p, r).stage.Stopped? {
      StopOnRecord(c, p, r);
    }
  }

  lemma HappeningOnRecord(c: Case, p: Policy, h: Happening)
    requires IsOpen(c) && CanHappen(c, h)
    ensures var c' := Happens(c, p, h);
            c'.stage.Stopped? || c'.stage.Reviewing? ==>
              && IsOpen(c')
              && (AlreadyConcluded(c'.log)
                  <==> (h.Examine? && Marks(c, p, h.round)) || (AlreadyConcluded(c.log) && !SendsOut(c, p, h)))
  {
    if h.Examine? {
      ReviewOnRecord(c, p, h.round);
    }
    hide Reviewed, Turn, AlreadyConcluded;
  }

  /** An issue that has left the automation stays there. */
  lemma OthersStay(c: Case, p: Policy, hs: seq<Happening>)
    requires CanRun(c, p, hs) && !c.stage.Stopped? && !c.stage.Reviewing?
    ensures hs == []
  {
  }

  lemma {:induction false} RunOnRecord(c: Case, p: Policy, hs: seq<Happening>)
    requires IsOpen(c) && CanRun(c, p, hs)
    ensures var end := Run(c, p, hs);
            end.stage.Stopped? || end.stage.Reviewing? ==>
              && IsOpen(end)
              && (AlreadyConcluded(end.log)
                  <==> IsMarked(c, p, hs) || (AlreadyConcluded(c.log) && !EverSendsOut(c, p, hs)))
    decreases |hs|
  {
    hide AlreadyConcluded, Happens, CanHappen, SendsOut, Marks;
    if hs != [] {
      var c' := Happens(c, p, hs[0]);
      HappeningOnRecord(c, p, hs[0]);
      if c'.stage.Stopped? || c'.stage.Reviewing? {
        RunOnRecord(c', p, hs[1..]);
      } else {
        OthersStay(c', p, hs[1..]);
      }
    }
  }

  /** Main result: whatever reviews, stops, releases and restarts came before, the next
      thing to happen loses the issue if and only if it is a review that the stop
      catches between the last checkpoint and the dispatch, or a restart after a
      review met the stop with its decision to redispatch on record and the issue
      has not been sent out since. */
  lemma IssueIsLostExactlyWhen(c: Case, p: Policy, hs: seq<Happening>, h: Happening)
    requires IsUnderReview(c) && !AlreadyConcluded(c.log) && CanRun(c, p, hs)
    requires var end := Run(c, p, hs); CanHappen(end, h) && !IsLost(end)
    ensures var end := Run(c, p, hs);
            IsLost(Happens(end, p, h)) <==>
              match h
              case Examine(r) => Reviewed(end, p, r).stage.Stopped? && StoppedInSending(end, p, r)
              case Release => false
              case Restart => IsMarked(c, p, hs)
  {
    RunOnRecord(c, p, hs);
    var end := Run(c, p, hs);
    hide Run, CanRun, IsMarked, EverSendsOut, AlreadyConcluded, Reviewed, StoppedInSending;
    if h.Examine? && Reviewed(end, p, h.round).stage.Stopped? {
      StopLosesAReviewExactlyWhen(end, p, h.round);
    }
  }

  /** And what is lost stays lost. */
  lemma {:induction false} LostForGood(c: Case, p: Policy, hs: seq<Happening>)
    requires IsLost(c) && CanRun(c, p, hs)
    ensures IsLost(Run(c, p, hs))
    decreases |hs|
  {
    hide AlreadyConcluded;
    if hs != [] {
      LostForGood(Happens(c, p, hs[0]), p, hs[1..]);
    }
  }

  /** What is taken up is a review with all its retries before it; a release keeps the
      streak, a restart forgets it, and neither touches the history. */
  lemma TakenUpAnew(c: Case, p: Policy, h: Happening)
    requires CanHappen(c, h) && !h.Examine?
    ensures var c' := Happens(c, p, h);
            && c'.rows == c.rows && c'.log == c.log && c'.streak == (if h.Release? then c.streak else None)
            && (c'.stage.Reviewing? <==> !AlreadyConcluded(c.log) || (h.Release? && c.parked))
            && (c'.stage.Reviewing? ==> c'.retry == 0 && !c'.parked)
  {
    hide AlreadyConcluded;
  }

  /** After a restart the stop queue is empty. A stopped review is then lost exactly
      when a decision is on record: one of its own, or one of an earlier review of
      the same delivery. */
  lemma RestartLosesParkedReviewExactlyWhen(c: Case, p: Policy, r: Round)
    requires IsUnderReview(c) && Reviewed(c, p, r).stage.Stopped?
    ensures !IsResumed(Reviewed(c, p, r).(parked := false)) <==>
              || AlreadyConcluded(c.log)
              || (!r.stoppedAtEntry && r.answer.Some? && Decide(r.answer.value, RoundNumber(c), p).Redispatch?)
  {
    StopOnRecord(c, p, r);
    hide AlreadyConcluded, Reviewed;
  }

  // ---- Three runs ----

  /** An issue that has been delivered once and is under review. */
  const DELIVERED := Case(["w1"], 0, None, [EnteredReview], false, Reviewing)

  /** The verdict is fail; the emergency stop falls after the last checkpoint, while
      the dispatch is under way: nothing resumes the issue on release. */
  lemma StoppedWhileSending(p: Policy)
    requires p.maxRedispatch > 0
    ensures var hs := [Examine(FAILS.(sending := StoppedMeanwhile))];
            CanRun(DELIVERED, p, hs) && IsLost(Run(DELIVERED, p, hs))
  {
    var hs := [Examine(FAILS.(sending := StoppedMeanwhile))];
    assert hs[1..] == [];
    assert CanRun(DELIVERED, p, []) && !AlreadyConcluded(DELIVERED.log);
    IssueIsLostExactlyWhen(DELIVERED, p, [], hs[0]);
    hide AlreadyConcluded;
  }

  /** The stop is seen at the last checkpoint and parks the issue, and then the
      process restarts. */
  lemma ParkedAndRestarted(p: Policy)
    requires p.maxRedispatch > 0
    ensures var hs := [Examine(FAILS.(stoppedLater := true))];
            && CanRun(DELIVERED, p, hs)
            && !IsLost(Run(DELIVERED, p, hs)) && IsLost(Happens(Run(DELIVERED, p, hs), p, Restart))
  {
    var hs := [Examine(FAILS.(stoppedLater := true))];
    assert hs[1..] == [];
    assert !AlreadyConcluded(DELIVERED.log);
    assert CanRun(DELIVERED, p, hs);
    IssueIsLostExactlyWhen(DELIVERED, p, hs, Restart);
  }

  /** It is parked there, released, stopped again as soon as its review is entered, and
      then the process restarts: the old decision is still the newest. */
  lemma ResumedAndRestarted(p: Policy)
    requires p.maxRedispatch > 0
    ensures var hs := [Examine(FAILS.(stoppedLater := true)), Release, Examine(FAILS.(stoppedAtEntry := true))];
            && CanRun(DELIVERED, p, hs)
            && !IsLost(Run(DELIVERED, p, hs)) && IsLost(Happens(Run(DELIVERED, p, hs), p, Restart))
  {
    var first, last := Examine(FAILS.(stoppedLater := true)), Examine(FAILS.(stoppedAtEntry := true));
    var hs := [first, Release, last];
    var c1 := Happens(DELIVERED, p, first);
    var c2 := Happens(c1, p, Release);
    assert c1.stage.Stopped? && c2.stage.Reviewing? && Happens(c2, p, last).parked;
    var end := Happens(c2, p, last);
    DecidingConcludes(DELIVERED.log, Redispatch);
    assert AlreadyConcluded(end.log);
    hide AlreadyConcluded, Happens;
    RunOfOne(DELIVERED, p, first);
    Extend(DELIVERED, p, [first], Release);
    Extend(DELIVERED, p, [first] + [Release], last);
    assert hs == [first] + [Release] + [last];
    hide CanRun, Run;
    assert Happens(end, p, Restart) == TakeUp(end.(parked := false, streak := None)) by { RestartTakesUp(end, p); }
  }

  lemma RestartTakesUp(c: Case, p: Policy)
    ensures Happens(c, p, Restart) == TakeUp(c.(parked := false, streak := None))
  {
  }

  lemma RunOfOne(c: Case, p: Policy, h: Happening)
    requires CanHappen(c, h)
    ensures CanRun(c, p, [h]) && Run(c, p, [h]) == Happens(c, p, h)
  {
    assert [h][1..] == [];
  }

  lemma {:induction false} Extend(c: Case, p: Policy, hs: seq<Happening>, h: Happening)
    requires CanRun(c, p, hs) && CanHappen(Run(c, p, hs), h)
    ensures CanRun(c, p, hs + [h]) && Run(c, p, hs + [h]) == Happens(Run(c, p, hs), p, h)
    decreases |hs|
  {
    hide Happens, CanHappen;
    if hs == [] {
      assert [h][1..] == [];
    } else {
      Extend(Happens(c, p, hs[0]), p, hs[1..], h);
      assert (hs + [h])[1..] == hs[1..] + [h];
    }
  }
}
