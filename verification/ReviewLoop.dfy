/** The review loop of one issue: a delivery is reviewed, and a failure goes back
    to a worker until it passes, the budget is spent or a fuse blows. */
module ReviewLoop {
  import opened Wrappers
  import opened PanelVote

  type Worker = string

  /** The board settings the loop reads. */
  datatype Policy = Policy(maxRedispatch: nat, autoAccept: bool, unlimited: bool, failureRetries: nat,
                           maxUnsureStreak: nat)

  datatype Action = AutoAccept | SuggestManual | Redispatch | EscalateHuman

  function Decide(v: Verdict, round: nat, p: Policy): Action {
    match v
    case Pass => if p.autoAccept then AutoAccept else SuggestManual
    case Fail => if p.unlimited || round < p.maxRedispatch then Redispatch else EscalateHuman
    case Unsure => if p.unlimited then Redispatch else EscalateHuman
  }

  // ---- Whom to send it to ----

  datatype Choice = Same(worker: Worker) | Switch(worker: Worker)

  /** How many of the last rows went to the last worker. */
  function Trailing(rows: seq<Worker>): nat {
    var n := |rows| - 1;
    if rows == [] then 0
    else if n == 0 || rows[n - 1] != rows[n] then 1
    else Trailing(rows[..n]) + 1
  }

  function FirstUnused(ranked: seq<Worker>, rows: seq<Worker>): Option<Worker> {
    if ranked == [] then None
    else if ranked[0] !in rows then Some(ranked[0])
    else FirstUnused(ranked[1..], rows)
  }

  function PickRedispatchTarget(rows: seq<Worker>, ranked: seq<Worker>): Result<Choice, string> {
    if rows == [] then Err("无历史派发记录，无法确定重派目标")
    else
      var last := rows[|rows| - 1];
      if Trailing(rows) < 2 then Ok(Same(last))
      else match FirstUnused(ranked, rows)
           case Some(next) => Ok(Switch(next))
           case None => Ok(Same(last))
  }

  // ---- The failure streak ledger ----

  /** The verdict and the failed anchors, as the sorted signature text tells them
      apart. */
  datatype Signature = Signature(verdict: Verdict, failed: multiset<string>)

  datatype Streak = Streak(signature: Signature, count: nat)

  const FAIL_STREAK_THRESHOLD := 3

  function Record(s: Option<Streak>, g: Signature): Streak {
    if s.Some? && s.value.signature == g then Streak(g, s.value.count + 1) else Streak(g, 1)
  }

  class FailStreakLedger {
    var issues: map<int, Streak>

    ghost function Of(issue: int): Option<Streak>
      reads this
    {
      if issue in issues then Some(issues[issue]) else None
    }

    /** Returns the count and whether the caller must stop redispatching. */
    method RecordAndCheck(issue: int, g: Signature) returns (count: nat, tripped: bool)
      modifies this
      ensures Of(issue) == Some(Record(old(Of(issue)), g))
      ensures forall other :: other != issue ==> Of(other) == old(Of(other))
      ensures count == Record(old(Of(issue)), g).count && tripped == (count >= FAIL_STREAK_THRESHOLD)
    {
      var entry := if issue in issues then issues[issue] else Streak(g, 0);
      if entry.signature != g {
        entry := Streak(g, 0);
      }
      entry := entry.(count := entry.count + 1);
      issues := issues[issue := entry];
      count := entry.count;
      tripped := count >= FAIL_STREAK_THRESHOLD;
    }

    method Clear(issue: int)
      modifies this
      ensures Of(issue) == None && forall other :: other != issue ==> Of(other) == old(Of(other))
    {
      issues := issues - {issue};
    }
  }

  // ---- One review ----

  datatype Stage = Reviewing | AtWorker | Settled | WithHuman | Yielded | Stopped

  datatype Activity = EnteredReview | Decided(action: Action)

  /** One issue: its dispatch rows, the retry count of the running review, its
      ledger entry, its activity log, and whether it sits in the stop queue. */
  datatype Case = Case(rows: seq<Worker>, retry: nat, streak: Option<Streak>, log: seq<Activity>, parked: bool,
                       stage: Stage)

  datatype Sending = Sent | StoppedMeanwhile | TakenMeanwhile | Refused

  /** What one review meets: no answer is a failure of the review itself. */
  datatype Round = Round(stoppedAtEntry: bool, answer: Option<Verdict>, failed: multiset<string>, tokenBudget: bool,
                         loopMarker: bool, capabilityFail: bool, stoppedLater: bool, overBudget: bool,
                         ranked: seq<Worker>, busy: bool, sending: Sending)

  function Decides(c: Case, a: Action): Case {
    c.(log := c.log + [Decided(a)])
  }

  function HandOver(c: Case): Case {
    Decides(c, EscalateHuman).(stage := WithHuman)
  }

  function RoundNumber(c: Case): nat {
    if c.rows == [] then 0 else |c.rows| - 1
  }

  function Reviewed(c: Case, p: Policy, r: Round): Case {
    if r.stoppedAtEntry then c.(streak := None, stage := Stopped, parked := true)
    else match r.answer
         case None => ReviewFailed(c, p, r)
         case Some(v) =>
           match Decide(v, RoundNumber(c), p)
           case AutoAccept =>
             if r.stoppedLater then c.(stage := Stopped, parked := true)
             else Decides(c.(streak := None), AutoAccept).(stage := Settled)
           case SuggestManual => Decides(c.(streak := None), SuggestManual).(stage := WithHuman)
           case EscalateHuman => HandOver(c.(streak := None))
           case Redispatch => SendBack(c, p, r, v)
  }

  /** The review itself failed: it is repeated while retries are left, and the
      worker is never blamed. */
  function ReviewFailed(c: Case, p: Policy, r: Round): Case {
    if c.retry >= p.failureRetries then c.(stage := WithHuman)
    else if r.stoppedLater then c.(stage := WithHuman, parked := true)
    else c.(retry := c.retry + 1)
  }

  function SendBack(c: Case, p: Policy, r: Round, v: Verdict): Case {
    var s := Record(c.streak, Signature(v, r.failed));
    if r.tokenBudget || r.loopMarker then HandOver(c.(streak := None))
    else if s.count >= FAIL_STREAK_THRESHOLD || (v.Unsure? && 0 < p.maxUnsureStreak <= s.count) then
      HandOver(c.(streak := None))
    else
      var pick := PickRedispatchTarget(c.rows, r.ranked);
      var c1 := c.(streak := Some(s));
      if r.capabilityFail && !(pick.Ok? && pick.value.Switch?) && !p.unlimited then HandOver(c1)
      else Launch(Decides(c1, Redispatch), p, r, pick)
  }

  /** The decision is on record; now the stop, the budget, the target and the
      dispatch itself can still get in the way. */
  function Launch(c: Case, p: Policy, r: Round, pick: Result<Choice, string>): Case {
    if r.stoppedLater then c.(stage := Stopped, parked := true)
    else if r.overBudget && !p.unlimited then HandOver(c)
    else if pick.Err? then HandOver(c)
    else if r.busy then c.(stage := Yielded)
    else
      match r.sending
      case Sent => Decides(c.(rows := c.rows + [pick.value.worker], stage := AtWorker), Redispatch)
      case StoppedMeanwhile => c.(stage := Stopped)
      case TakenMeanwhile => c.(stage := Yielded)
      case Refused => HandOver(c)
  }

  class IssueReview {
    const issue: int
    const ledger: FailStreakLedger
    var rows: seq<Worker>
    var retry: nat
    var log: seq<Activity>
    var parked: bool
    var stage: Stage

    constructor (issue: int, ledger: FailStreakLedger, rows: seq<Worker>)
      ensures this.issue == issue && this.ledger == ledger
      ensures Value() == Case(rows, 0, ledger.Of(issue), [EnteredReview], false, Reviewing)
    {
      this.issue, this.ledger := issue, ledger;
      this.rows, retry, log, parked, stage := rows, 0, [EnteredReview], false, Reviewing;
    }

    ghost function Value(): Case
      reads this, ledger
    {
      Case(rows, retry, ledger.Of(issue), log, parked, stage)
    }

    method RecordAutoDecide(a: Action)
      modifies this`log
      ensures Value() == Decides(old(Value()), a)
    {
      log := log + [Decided(a)];
    }

    /** Parks the issue when the stop is on. */
    method EstopFuseEngaged(stopped: bool) returns (engaged: bool)
      modifies this`parked
      ensures Value() == old(Value()).(parked := old(parked) || stopped) && engaged == stopped
    {
      if stopped { parked := true; }
      engaged := stopped;
    }

    method ToHuman()
      modifies this`log, this`stage
      ensures Value() == HandOver(old(Value()))
    {
      RecordAutoDecide(EscalateHuman);
      stage := WithHuman;
    }

    method ReviewIssue(p: Policy, r: Round)
      modifies this, ledger
      ensures Value() == Reviewed(old(Value()), p, r)
      ensures forall other :: other != issue ==> ledger.Of(other) == old(ledger.Of(other))
    {
      hide SendBack;
      var engaged := EstopFuseEngaged(r.stoppedAtEntry);
      if engaged {
        ledger.Clear(issue);
        stage := Stopped;
        return;
      }
      if r.answer.None? {
        if p.failureRetries > 0 && retry < p.failureRetries {
          engaged := EstopFuseEngaged(r.stoppedLater);
          if !engaged {
            retry := retry + 1;
            return;
          }
        }
        stage := WithHuman;
        return;
      }
      match Decide(r.answer.value, if |rows| == 0 then 0 else |rows| - 1, p) {
        case AutoAccept =>
          engaged := EstopFuseEngaged(r.stoppedLater);
          if engaged {
            stage := Stopped;
          } else {
            ledger.Clear(issue);
            stage := Settled;
            RecordAutoDecide(AutoAccept);
          }
        case SuggestManual =>
          ledger.Clear(issue);
          stage := WithHuman;
          RecordAutoDecide(SuggestManual);
        case Redispatch =>
          RedispatchArm(p, r);
        case EscalateHuman =>
          ledger.Clear(issue);
          ToHuman();
      }
    }

    method RedispatchArm(p: Policy, r: Round)
      requires r.answer.Some?
      modifies this, ledger
      ensures Value() == SendBack(old(Value()), p, r, r.answer.value)
      ensures forall other :: other != issue ==> ledger.Of(other) == old(ledger.Of(other))
    {
      hide PickRedispatchTarget, Record;
      if r.tokenBudget || r.loopMarker {
        ledger.Clear(issue);
        ToHuman();
        return;
      }
      var count, tripped := ledger.RecordAndCheck(issue, Signature(r.answer.value, r.failed));
      if tripped || (r.answer.value.Unsure? && p.maxUnsureStreak > 0 && count >= p.maxUnsureStreak) {
        ledger.Clear(issue);
        ToHuman();
        return;
      }
      var pick := PickRedispatchTarget(rows, r.ranked);
      if r.capabilityFail && (pick.Err? || pick.value.Same?) && !p.unlimited {
        ToHuman();
        return;
      }
      RecordAutoDecide(Redispatch);
      LaunchArm(p, r, pick);
    }

    method LaunchArm(p: Policy, r: Round, pick: Result<Choice, string>)
      modifies this
      ensures Value() == Launch(old(Value()), p, r, pick)
    {
      var engaged := EstopFuseEngaged(r.stoppedLater);
      if engaged {
        stage := Stopped;
      } else if (r.overBudget && !p.unlimited) || pick.Err? {
        ToHuman();
      } else if r.busy {
        stage := Yielded;
      } else {
        match r.sending {
          case Sent =>
            rows, stage := rows + [pick.value.worker], AtWorker;
            RecordAutoDecide(Redispatch);
          case StoppedMeanwhile =>
            stage := Stopped;
          case TakenMeanwhile =>
            stage := Yielded;
          case Refused =>
            ToHuman();
        }
      }
    }
  }

  /** The worker delivers again: a new review, with its own retries. */
  function Deliver(c: Case): Case {
    c.(stage := Reviewing, retry := 0, log := c.log + [EnteredReview])
  }

  /** One turn of the loop, up to the next review. */
  function Turn(c: Case, p: Policy, r: Round): Case {
    var c' := Reviewed(c, p, r);
    if c'.stage.AtWorker? then Deliver(c') else c'
  }

  /** The reviews of one uninterrupted stretch of automation. */
  predicate Cycles(c: Case, p: Policy, rounds: seq<Round>)
    decreases |rounds|
  {
    rounds == [] || (c.stage.Reviewing? && Cycles(Turn(c, p, rounds[0]), p, rounds[1..]))
  }

  function After(c: Case, p: Policy, rounds: seq<Round>): Case
    decreases |rounds|
  {
    if rounds == [] then c else After(Turn(c, p, rounds[0]), p, rounds[1..])
  }

  // ---- The loop ends ----

  function Over(a: int, b: int): nat {
    if a > b then a - b else 0
  }

  /** Reviews still possible: each row left has its own retries. */
  function ReviewsLeft(c: Case, p: Policy): nat {
    Over(p.maxRedispatch + 1, |c.rows|) * (p.failureRetries + 1) + Over(p.failureRetries, c.retry) + 1
  }

  /** A turn that leads to another review has used a retry or a row. */
  lemma TurnUsesARetryOrARow(c: Case, p: Policy, r: Round)
    requires !p.unlimited && c.stage.Reviewing?
    ensures var c' := Turn(c, p, r);
            && (c'.stage.Reviewing? ==>
                  if c'.rows == c.rows then c'.retry == c.retry + 1 <= p.failureRetries
                  else |c'.rows| == |c.rows| + 1 <= p.maxRedispatch + 1 && c'.retry == 0)
            && (c'.rows != c.rows ==> c'.stage.Reviewing?)
  {
    hide SendBack;
    if r.answer.Some? {
      SendBackUsesARow(c, p, r, r.answer.value);
    }
  }

  lemma SendBackUsesARow(c: Case, p: Policy, r: Round, v: Verdict)
    ensures var c' := SendBack(c, p, r, v);
            && (c.stage.Reviewing? ==>
                  !c'.stage.Reviewing? && !c'.stage.Settled? && (c'.stage.AtWorker? <==> c'.rows != c.rows))
            && (c'.rows != c.rows ==> c.rows != [] && |c'.rows| == |c.rows| + 1)
  {
    assert PickRedispatchTarget(c.rows, r.ranked).Ok? ==> c.rows != [];
    hide PickRedispatchTarget, Record;
  }

  lemma TurnUsesAReview(c: Case, p: Policy, r: Round)
    requires !p.unlimited && c.stage.Reviewing?
    ensures var c' := Turn(c, p, r);
            && (c'.stage.Reviewing? ==> ReviewsLeft(c', p) < ReviewsLeft(c, p))
            && (|c'.rows| > |c.rows| ==> |c'.rows| <= p.maxRedispatch + 1)
  {
    hide Turn;
    TurnUsesARetryOrARow(c, p, r);
    var c' := Turn(c, p, r);
    if c'.rows != c.rows {
      var left := Over(p.maxRedispatch + 1, |c.rows|);
      assert Over(p.maxRedispatch + 1, |c'.rows|) == left - 1;
      assert left * (p.failureRetries + 1) == (left - 1) * (p.failureRetries + 1) + (p.failureRetries + 1);
    }
  }

  /** Main result: outside unlimited mode the loop ends, after at most
      (max_redispatch + 1) * (failure_retries + 1) reviews of a first delivery, and
      never sends the issue out more than max_redispatch + 1 times by itself. */
  lemma {:induction false} LoopIsBounded(c: Case, p: Policy, rounds: seq<Round>)
    requires !p.unlimited && Cycles(c, p, rounds)
    ensures c.stage.Reviewing? ==> |rounds| <= ReviewsLeft(c, p)
    ensures |c.rows| == 1 && c.retry == 0 ==> |rounds| <= (p.maxRedispatch + 1) * (p.failureRetries + 1)
    ensures |After(c, p, rounds).rows| <= if |c.rows| <= p.maxRedispatch + 1 then p.maxRedispatch + 1 else |c.rows|
    decreases |rounds|
  {
    hide Turn;
    if rounds != [] {
      TurnUsesAReview(c, p, rounds[0]);
      LoopIsBounded(Turn(c, p, rounds[0]), p, rounds[1..]);
      TurnAddsARow(c, p, rounds[0]);
    }
    assert p.maxRedispatch * (p.failureRetries + 1) + (p.failureRetries + 1)
        == (p.maxRedispatch + 1) * (p.failureRetries + 1);
  }

  lemma TurnAddsARow(c: Case, p: Policy, r: Round)
    ensures var c' := Turn(c, p, r);
            c.rows == c'.rows || (|c'.rows| == |c.rows| + 1 && c.rows == c'.rows[..|c.rows|])
  {
    hide PickRedispatchTarget, Record;
  }

  const SELF_FAILURE := Round(false, None, multiset{}, false, false, false, false, false, [], false, Sent)

  /** A fail with nothing else in the way. */
  const FAILS := Round(false, Some(Fail), multiset{}, false, false, false, false, false, [], false, Sent)

  /** A failure with a signature that differs from the one before. */
  function FreshFailure(n: nat): Round {
    SELF_FAILURE.(answer := Some(Fail), failed := if n % 2 == 0 then multiset{"a"} else multiset{"b"})
  }

  /** And the bound is exact: a run that meets it. */
  lemma {:induction false} BoundIsReached(c: Case, p: Policy) returns (rounds: seq<Round>)
    requires !p.unlimited && c.stage.Reviewing? && c.rows != [] && c.retry <= p.failureRetries
    requires c.streak.Some? ==> c.streak.value.signature != Signature(Fail, FreshFailure(|c.rows|).failed)
    ensures Cycles(c, p, rounds) && |rounds| == ReviewsLeft(c, p)
    decreases ReviewsLeft(c, p)
  {
    var r := if c.retry < p.failureRetries then SELF_FAILURE else FreshFailure(|c.rows|);
    var c' := Turn(c, p, r);
    TurnUsesAReview(c, p, r);
    if c'.stage.Reviewing? {
      FreshTurn(c, p);
      var rest := BoundIsReached(c', p);
      rounds := [r] + rest;
      assert rounds[1..] == rest;
    } else {
      FreshTurn(c, p);
      rounds := [r];
      assert rounds[1..] == [];
    }
  }

  lemma FreshTurn(c: Case, p: Policy)
    requires !p.unlimited && c.stage.Reviewing? && c.rows != [] && c.retry <= p.failureRetries
    requires c.streak.Some? ==> c.streak.value.signature != Signature(Fail, FreshFailure(|c.rows|).failed)
    ensures var c' := Turn(c, p, if c.retry < p.failureRetries then SELF_FAILURE else FreshFailure(|c.rows|));
            && (c'.stage.Reviewing? <==> c.retry < p.failureRetries || |c.rows| <= p.maxRedispatch)
            && (c'.stage.Reviewing? ==>
                  && c'.rows != [] && c'.retry <= p.failureRetries && ReviewsLeft(c', p) + 1 == ReviewsLeft(c, p)
                  && (c'.streak.Some? ==>
                        c'.streak.value.signature != Signature(Fail, FreshFailure(|c'.rows|).failed)))
            && (!c'.stage.Reviewing? ==> ReviewsLeft(c, p) == 1)
  {
    hide Trailing, FirstUnused;
    if c.retry == p.failureRetries && |c.rows| <= p.maxRedispatch {
      var left := Over(p.maxRedispatch + 1, |c.rows|);
      assert left * (p.failureRetries + 1) == (left - 1) * (p.failureRetries + 1) + (p.failureRetries + 1);
      assert multiset{"a"}["a"] == 1 && multiset{"b"}["a"] == 0;
    }
  }
}
