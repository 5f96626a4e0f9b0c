/** How a round of the review loop ends, told from the rounds before it: to whom the
    issue is sent next, or why the automation leaves it to a human, stops or yields. */
module ReviewLoopEnds {
  import opened Wrappers
  import opened PanelVote
  import opened ReviewLoop
  import opened ReviewLoopRuns

  // ---- What the rounds so far come to ----

  function SignatureOf(r: Round): Signature
    requires r.answer.Some?
  {
    Signature(r.answer.value, r.failed)
  }

  /** How many of the latest verdicts in a row carry this signature; reviews that failed
      themselves do not count. */
  function Alike(rounds: seq<Round>, g: Signature): nat {
    if rounds == [] then 0
    else
      var r := rounds[|rounds| - 1];
      if r.answer.None? then Alike(rounds[..|rounds| - 1], g)
      else if SignatureOf(r) == g then Alike(rounds[..|rounds| - 1], g) + 1
      else 0
  }

  /** How many reviews in a row have failed themselves. */
  function FailedInARow(rounds: seq<Round>): nat {
    if rounds == [] || rounds[|rounds| - 1].answer.Some? then 0 else FailedInARow(rounds[..|rounds| - 1]) + 1
  }

  /** A first delivery is reviewed: nothing has been counted yet. */
  predicate IsFirst(c: Case) {
    c.stage.Reviewing? && c.retry == 0 && c.streak == None && c.rows != []
  }

  function CountOf(s: Option<Streak>, g: Signature): nat {
    if s.Some? && s.value.signature == g then s.value.count else 0
  }

  /** The counters of the running review say what the rounds say. */
  ghost predicate IsCounted(c0: Case, c: Case, rounds: seq<Round>) {
    && c.stage.Reviewing? && c.rows != [] && |c.rows| == |c0.rows| + |Verdicts(rounds)|
    && c.retry == FailedInARow(rounds)
    && forall g :: Alike(rounds, g) == CountOf(c.streak, g)
  }

  lemma OneMoreRound(rounds: seq<Round>, r: Round, g: Signature)
    ensures Alike(rounds + [r], g) == (if r.answer.None? then Alike(rounds, g)
                                       else if SignatureOf(r) == g then Alike(rounds, g) + 1 else 0)
    ensures FailedInARow(rounds + [r]) == if r.answer.None? then FailedInARow(rounds) + 1 else 0
    ensures |Verdicts(rounds + [r])| == |Verdicts(rounds)| + (if r.answer.Some? then 1 else 0)
  {
    assert (rounds + [r])[..|rounds|] == rounds;
  }

  lemma TurnCountsOne(c: Case, p: Policy, r: Round)
    requires c.stage.Reviewing? && c.rows != [] && Turn(c, p, r).stage.Reviewing?
    ensures var c' := Turn(c, p, r);
            && c'.rows != [] && |c'.rows| == |c.rows| + (if r.answer.Some? then 1 else 0)
            && c'.retry == (if r.answer.None? then c.retry + 1 else 0)
            && c'.streak == (if r.answer.None? then c.streak else Some(Record(c.streak, SignatureOf(r))))
  {
    if r.answer.Some? {
      SendBackUsesARow(c, p, r, r.answer.value);
    }
    hide PickRedispatchTarget, Record;
  }

  lemma TurnCounts(c0: Case, c: Case, p: Policy, rounds: seq<Round>, r: Round)
    requires IsCounted(c0, c, rounds) && Turn(c, p, r).stage.Reviewing?
    ensures IsCounted(c0, Turn(c, p, r), rounds + [r])
  {
    TurnCountsOne(c, p, r);
    hide Turn, Alike, FailedInARow, Verdicts;
    var c' := Turn(c, p, r);
    forall g ensures Alike(rounds + [r], g) == CountOf(c'.streak, g) {
      OneMoreRound(rounds, r, g);
    }
    OneMoreRound(rounds, r, Signature(Pass, multiset{}));
  }

  lemma {:induction false} StretchCounts(c0: Case, c: Case, p: Policy, before: seq<Round>, rounds: seq<Round>)
    requires IsCounted(c0, c, before) && Cycles(c, p, rounds) && After(c, p, rounds).stage.Reviewing?
    ensures IsCounted(c0, After(c, p, rounds), before + rounds)
    decreases |rounds|
  {
    hide Turn, IsCounted;
    if rounds == [] {
      assert before + rounds == before;
    } else {
      var c' := Turn(c, p, rounds[0]);
      assert c'.stage.Reviewing? by { StaysUnderReview(c', p, rounds[1..]); }
      TurnCounts(c0, c, p, before, rounds[0]);
      StretchCounts(c0, c', p, before + [rounds[0]], rounds[1..]);
      assert before + [rounds[0]] + rounds[1..] == before + rounds;
    }
  }

  lemma StaysUnderReview(c: Case, p: Policy, rounds: seq<Round>)
    requires Cycles(c, p, rounds) && After(c, p, rounds).stage.Reviewing?
    ensures c.stage.Reviewing?
  {
  }

  // ---- The causes ----

  /** The verdict speaks against the delivery, and the policy sends it back: within the
      number of redispatches, or without end. */
  predicate WouldSendBack(p: Policy, sent: nat, r: Round) {
    && r.answer.Some?
    && (p.unlimited || (r.answer.value.Fail? && sent <= p.maxRedispatch))
    && !r.answer.value.Pass?
  }

  predicate FuseBlows(p: Policy, rounds: seq<Round>, r: Round)
    requires r.answer.Some?
  {
    var alike := Alike(rounds, SignatureOf(r)) + 1;
    r.tokenBudget || r.loopMarker || alike >= 3 || (r.answer.value.Unsure? && 0 < p.maxUnsureStreak <= alike)
  }

  /** The last worker has had two rows in a row. */
  predicate HadTwo(rows: seq<Worker>) {
    |rows| >= 2 && rows[|rows| - 1] == rows[|rows| - 2]
  }

  predicate IsBestUnused(rows: seq<Worker>, ranked: seq<Worker>, w: Worker) {
    exists i :: 0 <= i < |ranked| && ranked[i] == w && w !in rows && forall j :: 0 <= j < i ==> ranked[j] in rows
  }

  predicate SomebodyNew(rows: seq<Worker>, ranked: seq<Worker>) {
    HadTwo(rows) && exists i :: 0 <= i < |ranked| && ranked[i] !in rows
  }

  /** Whose turn it is: after two rows the best candidate not used yet, if there is one,
      and else the same worker again. */
  predicate IsNext(rows: seq<Worker>, ranked: seq<Worker>, w: Worker) {
    if SomebodyNew(rows, ranked) then IsBestUnused(rows, ranked, w) else rows != [] && w == rows[|rows| - 1]
  }

  /** The decision to send the issue back is made. */
  predicate Decided(p: Policy, rows: seq<Worker>, rounds: seq<Round>, r: Round) {
    && !r.stoppedAtEntry && WouldSendBack(p, |rows|, r) && !FuseBlows(p, rounds, r)
    && (r.capabilityFail && !p.unlimited ==> SomebodyNew(rows, r.ranked))
  }

  /** And it comes to the dispatch. */
  predicate Dispatches(p: Policy, rows: seq<Worker>, rounds: seq<Round>, r: Round) {
    && Decided(p, rows, rounds, r) && !r.stoppedLater && (r.overBudget ==> p.unlimited) && !r.busy
  }

  predicate Passes(r: Round) {
    !r.stoppedAtEntry && r.answer == Some(Pass)
  }

  /** The review failed itself and is repeated. */
  predicate Repeats(p: Policy, rounds: seq<Round>, r: Round) {
    !r.stoppedAtEntry && r.answer.None? && FailedInARow(rounds) < p.failureRetries && !r.stoppedLater
  }

  predicate Stops(p: Policy, rows: seq<Worker>, rounds: seq<Round>, r: Round) {
    || r.stoppedAtEntry
    || (r.stoppedLater && ((Passes(r) && p.autoAccept) || Decided(p, rows, rounds, r)))
    || (Dispatches(p, rows, rounds, r) && r.sending.StoppedMeanwhile?)
  }

  predicate Yields(p: Policy, rows: seq<Worker>, rounds: seq<Round>, r: Round) {
    || (Decided(p, rows, rounds, r) && !r.stoppedLater && (r.overBudget ==> p.unlimited) && r.busy)
    || (Dispatches(p, rows, rounds, r) && r.sending.TakenMeanwhile?)
  }

  predicate GoesToHuman(p: Policy, rows: seq<Worker>, rounds: seq<Round>, r: Round) {
    && !r.stoppedAtEntry
    && match r.answer
       case None => FailedInARow(rounds) >= p.failureRetries || r.stoppedLater
       case Some(v) =>
         if v.Pass? then !p.autoAccept
         else || !Decided(p, rows, rounds, r)
              || (!r.stoppedLater && r.overBudget && !p.unlimited)
              || (Dispatches(p, rows, rounds, r) && r.sending.Refused?)
  }

  // ---- The target ----

  lemma {:induction false} FirstUnusedIsBest(ranked: seq<Worker>, rows: seq<Worker>)
    ensures FirstUnused(ranked, rows).Some? <==> exists i :: 0 <= i < |ranked| && ranked[i] !in rows
    ensures FirstUnused(ranked, rows).Some? ==> IsBestUnused(rows, ranked, FirstUnused(ranked, rows).value)
  {
    if ranked != [] {
      FirstUnusedIsBest(ranked[1..], rows);
      if ranked[0] in rows && FirstUnused(ranked[1..], rows).Some? {
        var w := FirstUnused(ranked[1..], rows).value;
        var i :| 0 <= i < |ranked| - 1 && ranked[1..][i] == w && forall j :: 0 <= j < i ==> ranked[1..][j] in rows;
        assert forall j :: 0 < j <= i ==> ranked[j] == ranked[1..][j - 1];
        assert ranked[i + 1] == w;
      }
      if i :| 0 < i < |ranked| && ranked[i] !in rows {
        assert ranked[1..][i - 1] == ranked[i];
      }
    }
  }

  lemma TrailingTwo(rows: seq<Worker>)
    ensures Trailing(rows) >= 2 <==> HadTwo(rows)
    ensures rows != [] ==> Trailing(rows) >= 1
  {
    if |rows| >= 2 {
      var n := |rows| - 1;
      assert rows[..n] != [] && Trailing(rows[..n]) >= 1;
    }
  }

  lemma TargetIsNext(rows: seq<Worker>, ranked: seq<Worker>)
    requires rows != []
    ensures var pick := PickRedispatchTarget(rows, ranked);
            && pick.Ok? && IsNext(rows, ranked, pick.value.worker)
            && (pick.value.Switch? <==> SomebodyNew(rows, ranked))
  {
    TrailingTwo(rows);
    FirstUnusedIsBest(ranked, rows);
    hide Trailing, FirstUnused;
  }

  // ---- How a round ends ----

  /** What a round leaves: each end by its cause, and the rows. */
  ghost predicate EndsAsTold(p: Policy, c: Case, rounds: seq<Round>, r: Round, end: Case) {
    && (end.stage.AtWorker? <==> Dispatches(p, c.rows, rounds, r) && r.sending.Sent?)
    && (end.stage.Settled? <==> Passes(r) && p.autoAccept && !r.stoppedLater)
    && (end.stage.Reviewing? <==> Repeats(p, rounds, r))
    && (end.stage.Stopped? <==> Stops(p, c.rows, rounds, r))
    && (end.stage.Yielded? <==> Yields(p, c.rows, rounds, r))
    && (end.stage.WithHuman? <==> GoesToHuman(p, c.rows, rounds, r))
    && (end.stage.AtWorker? ==> exists w :: IsNext(c.rows, r.ranked, w) && end.rows == c.rows + [w])
    && (!end.stage.AtWorker? ==> end.rows == c.rows)
  }

  lemma StreakIsAlike(c0: Case, c: Case, rounds: seq<Round>, r: Round)
    requires IsCounted(c0, c, rounds) && r.answer.Some?
    ensures Record(c.streak, SignatureOf(r)) == Streak(SignatureOf(r), Alike(rounds, SignatureOf(r)) + 1)
  {
    hide Alike, FailedInARow, Verdicts;
  }

  /** Sending back is a decision, and then the launch. */
  lemma SendBackSplits(p: Policy, c0: Case, c: Case, rounds: seq<Round>, r: Round)
    requires IsCounted(c0, c, rounds) && !r.stoppedAtEntry && WouldSendBack(p, |c.rows|, r)
    ensures var g := SignatureOf(r);
            var counted := c.(streak := Some(Streak(g, Alike(rounds, g) + 1)));
            SendBack(c, p, r, r.answer.value) ==
              if Decided(p, c.rows, rounds, r)
              then Launch(Decides(counted, Redispatch), p, r, PickRedispatchTarget(c.rows, r.ranked))
              else HandOver(if FuseBlows(p, rounds, r) then c.(streak := None) else counted)
  {
    StreakIsAlike(c0, c, rounds, r);
    TargetIsNext(c.rows, r.ranked);
    hide PickRedispatchTarget, Alike, FailedInARow, Verdicts, IsNext, SomebodyNew, Record, Launch, IsCounted;
  }

  lemma LaunchEndsAsTold(p: Policy, c: Case, rounds: seq<Round>, r: Round, pick: Result<Choice, string>)
    requires c.stage.Reviewing? && Decided(p, c.rows, rounds, r)
    requires pick.Ok? && IsNext(c.rows, r.ranked, pick.value.worker)
    requires WouldSendBack(p, |c.rows|, r) && !r.stoppedAtEntry
    ensures EndsAsTold(p, c, rounds, r, Launch(Decides(c, Redispatch), p, r, pick))
  {
    hide Decided, IsNext;
  }

  lemma SendBackEndsAsTold(p: Policy, c0: Case, c: Case, rounds: seq<Round>, r: Round)
    requires IsCounted(c0, c, rounds) && !r.stoppedAtEntry && WouldSendBack(p, |c.rows|, r)
    ensures EndsAsTold(p, c, rounds, r, SendBack(c, p, r, r.answer.value))
  {
    assert c.rows != [] && c.stage.Reviewing?;
    hide FuseBlows, SomebodyNew, IsNext, IsCounted, SendBack, PickRedispatchTarget, Launch, Decided, Alike;
    SendBackSplits(p, c0, c, rounds, r);
    TargetIsNext(c.rows, r.ranked);
    if Decided(p, c.rows, rounds, r) {
      var counted := c.(streak := Some(Streak(SignatureOf(r), Alike(rounds, SignatureOf(r)) + 1)));
      LaunchEndsAsTold(p, counted, rounds, r, PickRedispatchTarget(c.rows, r.ranked));
    }
  }

  lemma ReviewedSendsBack(p: Policy, c: Case, r: Round)
    requires !r.stoppedAtEntry && WouldSendBack(p, |c.rows|, r) && c.rows != []
    ensures Reviewed(c, p, r) == SendBack(c, p, r, r.answer.value)
  {
    hide SendBack;
  }

  lemma OthersEndAsTold(p: Policy, c0: Case, c: Case, rounds: seq<Round>, r: Round)
    requires IsCounted(c0, c, rounds) && (r.stoppedAtEntry || !WouldSendBack(p, |c.rows|, r))
    ensures EndsAsTold(p, c, rounds, r, Reviewed(c, p, r))
  {
    hide SendBack, Alike, FailedInARow, Verdicts, IsNext, SomebodyNew, FuseBlows;
  }

  /** Main result: the end of the next round, with the causes read off the rounds since
      the first delivery, the rows and the round itself. A verdict against the
      delivery adds a row, to the worker whose turn it is, exactly when the policy
      still sends back, no fuse, stop or budget is in the way and the dispatch gets
      through; else the issue is with a human, stopped or yielded, each exactly for
      its own causes. */
  lemma RoundEndsExactlyAsTold(c0: Case, p: Policy, rounds: seq<Round>, r: Round)
    requires IsFirst(c0) && Cycles(c0, p, rounds) && After(c0, p, rounds).stage.Reviewing?
    ensures var c := After(c0, p, rounds);
            |c.rows| == |c0.rows| + |Verdicts(rounds)| && EndsAsTold(p, c, rounds, r, Reviewed(c, p, r))
  {
    assert IsCounted(c0, c0, []);
    StretchCounts(c0, c0, p, [], rounds);
    assert [] + rounds == rounds;
    var c := After(c0, p, rounds);
    assert c.rows != [];
    hide After, Cycles;
    hide Reviewed, EndsAsTold, IsCounted;
    if !r.stoppedAtEntry && WouldSendBack(p, |c.rows|, r) {
      ReviewedSendsBack(p, c, r);
      SendBackEndsAsTold(p, c0, c, rounds, r);
    } else {
      OthersEndAsTold(p, c0, c, rounds, r);
    }
  }

  /** And an issue that was never dispatched is not sent to anybody; a verdict against it
      is decided on like the first, and then a human has it. */
  lemma WithoutRowsNobodyIsSent(c: Case, p: Policy, r: Round)
    requires c.stage.Reviewing? && c.rows == []
    ensures Reviewed(c, p, r).rows == [] && !Reviewed(c, p, r).stage.AtWorker?
    ensures p.maxRedispatch >= 1 && r == FAILS && c.streak == None ==>
              Reviewed(c, p, r) == HandOver(Decides(c.(streak := Some(Streak(SignatureOf(r), 1))), Redispatch))
  {
  }

  // ---- What it leaves on record ----

  /** The activities a round adds to the log. */
  function Noted(p: Policy, rows: seq<Worker>, rounds: seq<Round>, r: Round): seq<Activity> {
    if r.stoppedAtEntry || r.answer.None? then []
    else if r.answer.value.Pass? then
      (if !p.autoAccept then [Activity.Decided(SuggestManual)] else if r.stoppedLater then []
       else [Activity.Decided(AutoAccept)])
    else if !Decided(p, rows, rounds, r) then [Activity.Decided(EscalateHuman)]
    else
      [Activity.Decided(Redispatch)]
      + (if GoesToHuman(p, rows, rounds, r) then [Activity.Decided(EscalateHuman)]
         else if Dispatches(p, rows, rounds, r) && r.sending.Sent? then [Activity.Decided(Redispatch)] else [])
  }

  /** The stop was seen at a checkpoint, so the issue is parked. */
  predicate IsParkedBy(p: Policy, rows: seq<Worker>, rounds: seq<Round>, r: Round) {
    || r.stoppedAtEntry
    || (r.stoppedLater
        && if r.answer.None? then FailedInARow(rounds) < p.failureRetries
           else (r.answer.value.Pass? && p.autoAccept) || Decided(p, rows, rounds, r))
  }

  /** The ledger forgets the issue at a stop at the entry, a verdict that is not sent
      back, or a blown fuse; it counts a verdict that would be; else it stays. */
  function Ledger(p: Policy, c: Case, rounds: seq<Round>, r: Round): Option<Streak> {
    if r.stoppedAtEntry then None
    else if r.answer.None? || (r.answer.value.Pass? && p.autoAccept && r.stoppedLater) then c.streak
    else if !WouldSendBack(p, |c.rows|, r) || FuseBlows(p, rounds, r) then None
    else Some(Streak(SignatureOf(r), Alike(rounds, SignatureOf(r)) + 1))
  }

  ghost predicate LeavesOnRecord(p: Policy, c: Case, rounds: seq<Round>, r: Round, end: Case) {
    && end.log == c.log + Noted(p, c.rows, rounds, r)
    && (end.parked <==> c.parked || IsParkedBy(p, c.rows, rounds, r))
    && end.streak == Ledger(p, c, rounds, r)
  }

  lemma LaunchLeaves(p: Policy, c: Case, rounds: seq<Round>, r: Round, pick: Result<Choice, string>)
    requires Decided(p, c.rows, rounds, r) && pick.Ok?
    ensures var end := Launch(Decides(c, Redispatch), p, r, pick);
            && end.log == c.log + Noted(p, c.rows, rounds, r) && end.streak == c.streak
            && (end.parked <==> c.parked || IsParkedBy(p, c.rows, rounds, r))
  {
    hide FuseBlows, SomebodyNew;
  }

  lemma SendBackLeaves(p: Policy, c0: Case, c: Case, rounds: seq<Round>, r: Round)
    requires IsCounted(c0, c, rounds) && !r.stoppedAtEntry && WouldSendBack(p, |c.rows|, r)
    ensures LeavesOnRecord(p, c, rounds, r, SendBack(c, p, r, r.answer.value))
  {
    assert c.rows != [];
    hide FuseBlows, SomebodyNew, IsNext, IsCounted, SendBack, PickRedispatchTarget, Alike, Launch;
    SendBackSplits(p, c0, c, rounds, r);
    TargetIsNext(c.rows, r.ranked);
    if Decided(p, c.rows, rounds, r) {
      LaunchLeaves(p, c.(streak := Ledger(p, c, rounds, r)), rounds, r, PickRedispatchTarget(c.rows, r.ranked));
    }
    hide Decided;
  }

  lemma OthersLeave(p: Policy, c0: Case, c: Case, rounds: seq<Round>, r: Round)
    requires IsCounted(c0, c, rounds) && (r.stoppedAtEntry || !WouldSendBack(p, |c.rows|, r))
    ensures LeavesOnRecord(p, c, rounds, r, Reviewed(c, p, r))
  {
    hide SendBack, Alike, FailedInARow, Verdicts, IsNext, SomebodyNew, FuseBlows;
  }

  /** What the next round leaves: the decisions on the log, whether the issue is parked,
      and its count in the ledger. */
  lemma RoundLeavesExactly(c0: Case, p: Policy, rounds: seq<Round>, r: Round)
    requires IsFirst(c0) && Cycles(c0, p, rounds) && After(c0, p, rounds).stage.Reviewing?
    ensures var c := After(c0, p, rounds); LeavesOnRecord(p, c, rounds, r, Reviewed(c, p, r))
  {
    assert IsCounted(c0, c0, []);
    StretchCounts(c0, c0, p, [], rounds);
    assert [] + rounds == rounds;
    var c := After(c0, p, rounds);
    assert c.rows != [];
    hide After, Cycles;
    hide Reviewed, LeavesOnRecord, IsCounted;
    if !r.stoppedAtEntry && WouldSendBack(p, |c.rows|, r) {
      ReviewedSendsBack(p, c, r);
      SendBackLeaves(p, c0, c, rounds, r);
    } else {
      OthersLeave(p, c0, c, rounds, r);
    }
  }
}
