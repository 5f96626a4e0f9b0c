/** Whole runs of the review loop: what verdicts lead to, the history of workers, and
    the streak fuse. */
module ReviewLoopRuns {
  import opened Wrappers
  import opened PanelVote
  import opened ReviewLoop

  // ---- What a verdict is worth ----

  predicate IsAccepted(p: Policy, r: Round) {
    !r.stoppedAtEntry && r.answer == Some(Pass) && p.autoAccept && !r.stoppedLater
  }

  /** A round the loop outlives: the review failed itself, or its verdict spoke
      against the delivery. */
  predicate SpeaksAgainst(p: Policy, r: Round) {
    r.answer.None? || r.answer == Some(Fail) || (r.answer == Some(Unsure) && p.unlimited)
  }

  /** One round. */
  lemma OnlyVerdictsDecide(c: Case, p: Policy, r: Round)
    requires c.stage.Reviewing?
    ensures var c' := Turn(c, p, r);
            && (c'.stage.Settled? <==> IsAccepted(p, r))
            && (if c'.stage.Reviewing? then SpeaksAgainst(p, r) && |c'.rows| == |c.rows| + |Verdicts([r])|
                else c'.rows == c.rows)
  {
    OneVerdict(r);
    hide SendBack, Verdicts;
    if r.answer.Some? {
      SendBackUsesARow(c, p, r, r.answer.value);
    }
  }

  /** The verdicts given in these rounds. */
  function Verdicts(rounds: seq<Round>): seq<Verdict> {
    if rounds == [] then []
    else
      Verdicts(rounds[..|rounds| - 1])
      + (if rounds[|rounds| - 1].answer.Some? then [rounds[|rounds| - 1].answer.value] else [])
  }

  lemma OneVerdict(r: Round)
    ensures |Verdicts([r])| == if r.answer.Some? then 1 else 0
  {
    assert [r][..0] == [];
  }

  lemma {:induction false} VerdictsConcat(a: seq<Round>, b: seq<Round>)
    ensures Verdicts(a + b) == Verdicts(a) + Verdicts(b)
  {
    if b == [] {
      assert a + b == a;
    } else {
      var n := |b| - 1;
      assert (a + b)[..|a| + n] == a + b[..n];
      VerdictsConcat(a, b[..n]);
    }
  }

  /** Main result: over a whole stretch of automation each verdict but the last sent
      the issue to a worker once and spoke against the delivery, reviews that
      failed themselves sent it nowhere, and the issue ends accepted if and only if
      the last round is an accepted pass. */
  lemma {:induction false} EveryVerdictIsAccountedFor(c: Case, p: Policy, rounds: seq<Round>)
    requires Cycles(c, p, rounds) && rounds != []
    ensures var n := |rounds| - 1;
            var end := After(c, p, rounds);
            && |end.rows| == |c.rows| + |Verdicts(if end.stage.Reviewing? then rounds else rounds[..n])|
            && (end.stage.Settled? <==> IsAccepted(p, rounds[n]))
            && (forall k :: 0 <= k < n ==> SpeaksAgainst(p, rounds[k]))
            && (end.stage.Reviewing? ==> SpeaksAgainst(p, rounds[n]))
    decreases |rounds|
  {
    var n := |rounds| - 1;
    var r, rest := rounds[0], rounds[1..];
    OnlyVerdictsDecide(c, p, r);
    hide Turn, IsAccepted, SpeaksAgainst, Verdicts;
    if rest == [] {
      assert rounds == [r] && Verdicts(rounds[..0]) == [] by { NoVerdicts(rounds[..0]); }
    } else {
      EveryVerdictIsAccountedFor(Turn(c, p, r), p, rest);
      VerdictsBehindTheFirst(rounds);
      RestSpeaks(p, rounds);
    }
  }

  lemma NoVerdicts(rounds: seq<Round>)
    ensures rounds == [] ==> Verdicts(rounds) == []
  {
  }

  lemma VerdictsBehindTheFirst(rounds: seq<Round>)
    requires |rounds| > 1
    ensures var n, first, rest := |rounds| - 1, [rounds[0]], rounds[1..];
            && |Verdicts(rounds)| == |Verdicts(first)| + |Verdicts(rest)|
            && |Verdicts(rounds[..n])| == |Verdicts(first)| + |Verdicts(rest[..n - 1])|
  {
    hide Verdicts;
    var n, first, rest := |rounds| - 1, [rounds[0]], rounds[1..];
    assert rounds == first + rest && rounds[..n] == first + rest[..n - 1];
    VerdictsConcat(first, rest);
    VerdictsConcat(first, rest[..n - 1]);
  }

  lemma RestSpeaks(p: Policy, rounds: seq<Round>)
    requires |rounds| > 1 && SpeaksAgainst(p, rounds[0])
    requires forall k :: 0 <= k < |rounds| - 2 ==> SpeaksAgainst(p, rounds[1..][k])
    ensures forall k :: 0 <= k < |rounds| - 1 ==> SpeaksAgainst(p, rounds[k])
  {
    hide SpeaksAgainst;
    forall k | 1 <= k < |rounds| - 1 ensures SpeaksAgainst(p, rounds[k]) {
      assert rounds[1..][k - 1] == rounds[k];
    }
  }

  // ---- The streak fuse ----

  /** Every verdict of these reviews carries the same signature. */
  predicate OneSignature(rounds: seq<Round>, g: Signature) {
    forall k :: 0 <= k < |rounds| && rounds[k].answer.Some? ==>
      Signature(rounds[k].answer.value, rounds[k].failed) == g
  }

  /** How often one signature may still be sent back. */
  function SendsLeft(c: Case, p: Policy, g: Signature): nat {
    var limit := if g.verdict.Unsure? && 0 < p.maxUnsureStreak < FAIL_STREAK_THRESHOLD
                 then p.maxUnsureStreak else FAIL_STREAK_THRESHOLD;
    var seen := if c.streak.Some? && c.streak.value.signature == g then c.streak.value.count else 0;
    Over(limit - 1, seen)
  }

  lemma TurnUsesASend(c: Case, p: Policy, r: Round, g: Signature)
    requires c.stage.Reviewing? && OneSignature([r], g)
    ensures var c' := Turn(c, p, r);
            c'.stage.Reviewing? ==>
              if r.answer.Some? then SendsLeft(c', p, g) < SendsLeft(c, p, g) && c'.retry == 0
              else SendsLeft(c', p, g) == SendsLeft(c, p, g) && c'.retry == c.retry + 1 && c.retry < p.failureRetries
  {
    assert r.answer.Some? ==> Signature([r][0].answer.value, [r][0].failed) == g;
    hide PickRedispatchTarget;
  }

  /** Main result: in every mode, unlimited too, one and the same failure goes back
      to a worker at most twice, and an unsure verdict fewer times still when
      max_unsure_streak says so; then the loop has ended. */
  lemma {:induction false} SameFailureStops(c: Case, p: Policy, rounds: seq<Round>, g: Signature)
    requires Cycles(c, p, rounds) && c.stage.Reviewing? && OneSignature(rounds, g)
    ensures |rounds| <= SendsLeft(c, p, g) * (p.failureRetries + 1) + Over(p.failureRetries, c.retry) + 1
    ensures |After(c, p, rounds).rows| <= |c.rows| + SendsLeft(c, p, g)
    decreases |rounds|
  {
    hide Turn, SendsLeft;
    if rounds != [] {
      var c' := Turn(c, p, rounds[0]);
      assert OneSignature([rounds[0]], g);
      TurnUsesASend(c, p, rounds[0], g);
      TurnAddsARow(c, p, rounds[0]);
      RetriesKeepRows(c, p, rounds[0]);
      if c'.stage.Reviewing? {
        SameFailureStops(c', p, rounds[1..], g);
        if rounds[0].answer.Some? {
          LessTimes(SendsLeft(c', p, g), SendsLeft(c, p, g), p.failureRetries + 1);
        }
      } else {
        assert rounds[1..] == [];
      }
    }
  }

  lemma RetriesKeepRows(c: Case, p: Policy, r: Round)
    ensures r.answer.None? || !Turn(c, p, r).stage.Reviewing? ==> Turn(c, p, r).rows == c.rows
  {
    hide PickRedispatchTarget;
  }

  lemma {:induction false} LessTimes(a: nat, b: nat, n: nat)
    requires a < b
    ensures a * n + n <= b * n
    decreases b
  {
    assert b * n == (b - 1) * n + n;
    if a < b - 1 {
      LessTimes(a, b - 1, n);
    }
  }

  // ---- The history of workers ----

  /** Rows that came from a first dispatch and automatic redispatches, each with
      the candidates ranked at that moment. */
  ghost predicate IsAutomatic(rows: seq<Worker>, rankings: seq<seq<Worker>>) {
    && |rows| == |rankings| + 1
    && forall k :: 0 <= k < |rankings| ==> IsPicked(rows, rankings, k)
  }

  ghost predicate IsPicked(rows: seq<Worker>, rankings: seq<seq<Worker>>, k: nat)
    requires k < |rankings| && |rows| == |rankings| + 1
  {
    var pick := PickRedispatchTarget(rows[..k + 1], rankings[k]);
    pick.Ok? && pick.value.worker == rows[k + 1]
  }

  datatype Block = Block(worker: Worker, length: nat)

  function AddRow(bs: seq<Block>, w: Worker): seq<Block> {
    var n := |bs| - 1;
    if bs != [] && bs[n].worker == w then bs[..n] + [Block(w, bs[n].length + 1)] else bs + [Block(w, 1)]
  }

  /** The runs of equal workers. */
  function Blocks(rows: seq<Worker>): seq<Block> {
    if rows == [] then [] else AddRow(Blocks(rows[..|rows| - 1]), rows[|rows| - 1])
  }

  function Repeat(w: Worker, n: nat): seq<Worker> {
    seq(n, k requires 0 <= k < n => w)
  }

  function Flatten(bs: seq<Block>): seq<Worker> {
    if bs == [] then [] else Flatten(bs[..|bs| - 1]) + Repeat(bs[|bs| - 1].worker, bs[|bs| - 1].length)
  }

  ghost predicate DistinctWorkers(bs: seq<Block>) {
    forall i, j :: 0 <= i < j < |bs| ==> bs[i].worker != bs[j].worker
  }

  /** All but the last block have at least two rows. */
  ghost predicate FairChances(bs: seq<Block>) {
    forall i :: 0 <= i < |bs| - 1 ==> bs[i].length >= 2
  }

  lemma AddRowFlattens(bs: seq<Block>, w: Worker)
    ensures Flatten(AddRow(bs, w)) == Flatten(bs) + [w]
  {
    var n := |bs| - 1;
    if bs != [] && bs[n].worker == w {
      assert AddRow(bs, w)[..n] == bs[..n];
      assert Repeat(w, bs[n].length + 1) == Repeat(w, bs[n].length) + [w];
    } else {
      assert AddRow(bs, w)[..|bs|] == bs;
      assert Repeat(w, 1) == [w];
    }
  }

  lemma BlocksSnoc(before: seq<Worker>, w: Worker)
    ensures Blocks(before + [w]) == AddRow(Blocks(before), w)
  {
    assert (before + [w])[..|before|] == before;
    hide AddRow;
  }

  lemma OneBlock(w: Worker)
    ensures Blocks([w]) == [Block(w, 1)]
  {
    assert [w][..0] == [];
    assert Blocks([w][..0]) == [];
  }

  lemma {:induction false} BlocksFlatten(rows: seq<Worker>)
    ensures Flatten(Blocks(rows)) == rows
  {
    if rows == [] {
      assert Blocks(rows) == [];
    } else {
      hide Blocks, AddRow, Flatten;
      var before, w := rows[..|rows| - 1], rows[|rows| - 1];
      assert rows == before + [w];
      BlocksFlatten(before);
      BlocksSnoc(before, w);
      AddRowFlattens(Blocks(before), w);
    }
  }

  /** The last block is the trailing run. */
  lemma {:induction false} LastBlock(rows: seq<Worker>)
    requires rows != []
    ensures Blocks(rows) != [] && Blocks(rows)[|Blocks(rows)| - 1] == Block(rows[|rows| - 1], Trailing(rows))
  {
    if |rows| > 1 {
      LastBlock(rows[..|rows| - 1]);
    }
  }

  lemma {:induction false} BlocksAreOfRows(rows: seq<Worker>)
    ensures forall i :: 0 <= i < |Blocks(rows)| ==> Blocks(rows)[i].worker in rows
  {
    if rows != [] {
      var n := |rows| - 1;
      BlocksAreOfRows(rows[..n]);
      var bs := Blocks(rows[..n]);
      forall i | 0 <= i < |Blocks(rows)| ensures Blocks(rows)[i].worker in rows {
        assert i < |bs| ==> Blocks(rows)[i].worker == bs[i].worker && bs[i].worker in rows[..n];
        assert i >= |bs| ==> Blocks(rows)[i].worker == rows[n];
      }
    }
  }

  lemma AddRowKeeps(bs: seq<Block>, w: Worker)
    requires DistinctWorkers(bs) && FairChances(bs)
    requires bs != [] && bs[|bs| - 1].worker != w ==>
               bs[|bs| - 1].length >= 2 && forall i :: 0 <= i < |bs| ==> bs[i].worker != w
    ensures DistinctWorkers(AddRow(bs, w)) && FairChances(AddRow(bs, w))
  {
  }

  /** A new worker, and everybody ranked above it has had the issue. */
  ghost predicate IsBestUnused(w: Worker, ranked: seq<Worker>, rows: seq<Worker>) {
    w !in rows && exists i :: 0 <= i < |ranked| && ranked[i] == w && forall j :: 0 <= j < i ==> ranked[j] in rows
  }

  lemma {:induction false} FirstUnusedIsUnused(ranked: seq<Worker>, rows: seq<Worker>)
    ensures var u := FirstUnused(ranked, rows);
            && (u.Some? ==> IsBestUnused(u.value, ranked, rows))
            && (u.None? <==> forall w :: w in ranked ==> w in rows)
  {
    if ranked != [] {
      var rest := ranked[1..];
      FirstUnusedIsUnused(rest, rows);
      var u := FirstUnused(rest, rows);
      if ranked[0] !in rows {
        assert IsBestUnused(ranked[0], ranked, rows);
      } else if u.Some? {
        var i :| 0 <= i < |rest| && rest[i] == u.value && forall j :: 0 <= j < i ==> rest[j] in rows;
        assert ranked[i + 1] == u.value && forall j :: 0 <= j < i + 1 ==> ranked[j] in rows;
      }
    }
  }

  lemma BlocksGrow(before: seq<Worker>, w: Worker)
    requires before != [] && DistinctWorkers(Blocks(before)) && FairChances(Blocks(before))
    requires w != before[|before| - 1] ==> Trailing(before) >= 2 && w !in before
    ensures DistinctWorkers(Blocks(before + [w])) && FairChances(Blocks(before + [w]))
  {
    hide Trailing, AddRow, Blocks, DistinctWorkers, FairChances;
    LastBlock(before);
    BlocksAreOfRows(before);
    BlocksSnoc(before, w);
    AddRowKeeps(Blocks(before), w);
  }

  /** Main result: automatic redispatch never goes back to a worker it has left,
      and leaves none before it had two chances. */
  lemma {:induction false} WorkersComeInBlocks(rows: seq<Worker>, rankings: seq<seq<Worker>>)
    requires IsAutomatic(rows, rankings)
    ensures Flatten(Blocks(rows)) == rows && DistinctWorkers(Blocks(rows)) && FairChances(Blocks(rows))
    decreases |rankings|
  {
    hide Flatten, Trailing, Blocks, IsPicked;
    BlocksFlatten(rows);
    var n := |rankings|;
    if n == 0 {
      OneBlock(rows[0]);
      assert rows == [rows[0]];
    } else {
      hide DistinctWorkers, FairChances;
      var before := rows[..n];
      ShorterIsAutomatic(rows, rankings);
      WorkersComeInBlocks(before, rankings[..n - 1]);
      NextRow(rows, rankings, n - 1);
      BlocksGrow(before, rows[n]);
      assert rows == before + [rows[n]];
    }
  }

  /** The next row goes to the same worker, or after two chances to a new one. */
  lemma NextRow(rows: seq<Worker>, rankings: seq<seq<Worker>>, k: nat)
    requires IsAutomatic(rows, rankings) && k < |rankings|
    ensures rows[k + 1] != rows[k] ==> Trailing(rows[..k + 1]) >= 2 && rows[k + 1] !in rows[..k + 1]
  {
    FirstUnusedIsUnused(rankings[k], rows[..k + 1]);
    assert IsPicked(rows, rankings, k);
    hide Trailing, FirstUnused;
  }

  lemma ShorterIsAutomatic(rows: seq<Worker>, rankings: seq<seq<Worker>>)
    requires IsAutomatic(rows, rankings) && rankings != []
    ensures IsAutomatic(rows[..|rows| - 1], rankings[..|rankings| - 1])
  {
    hide PickRedispatchTarget;
    var rows', rankings' := rows[..|rows| - 1], rankings[..|rankings| - 1];
    forall k | 0 <= k < |rankings'| ensures IsPicked(rows', rankings', k) {
      assert IsPicked(rows, rankings, k);
      assert rows'[..k + 1] == rows[..k + 1];
    }
  }

  /** Some ranked candidate has not had the issue yet. */
  ghost predicate OffersUnused(rows: seq<Worker>, rankings: seq<seq<Worker>>, k: nat) {
    k < |rankings| && k < |rows| && exists w :: w in rankings[k] && w !in rows[..k + 1]
  }

  /** A third row in a row for one worker means that nobody new was on offer. */
  lemma ThirdChanceOnlyWithoutAlternative(rows: seq<Worker>, rankings: seq<seq<Worker>>, k: nat)
    requires IsAutomatic(rows, rankings) && k < |rankings|
    ensures Trailing(rows[..k + 1]) >= 2 ==> (rows[k + 1] == rows[k] <==> !OffersUnused(rows, rankings, k))
    ensures Trailing(rows[..k + 1]) < 2 ==> rows[k + 1] == rows[k]
    ensures rows[k + 1] != rows[k] ==> IsBestUnused(rows[k + 1], rankings[k], rows[..k + 1])
  {
    FirstUnusedIsUnused(rankings[k], rows[..k + 1]);
    assert IsPicked(rows, rankings, k);
    hide Trailing, FirstUnused;
    assert rows[..k + 1][k] == rows[k];
  }

  ghost predicate TwoChances(bs: seq<Block>) {
    && (forall i :: 0 <= i < |bs| - 1 ==> bs[i].length == 2)
    && (bs != [] ==> 1 <= bs[|bs| - 1].length <= 2)
  }

  lemma AddRowKeepsTwo(bs: seq<Block>, w: Worker)
    requires TwoChances(bs)
    requires bs != [] ==> (bs[|bs| - 1].worker == w <==> bs[|bs| - 1].length < 2)
    ensures TwoChances(AddRow(bs, w))
  {
  }

  lemma BlocksGrowByTwo(before: seq<Worker>, w: Worker)
    requires before != [] && TwoChances(Blocks(before))
    requires w == before[|before| - 1] <==> Trailing(before) < 2
    ensures TwoChances(Blocks(before + [w]))
  {
    hide Trailing, AddRow, Blocks, TwoChances;
    LastBlock(before);
    BlocksSnoc(before, w);
    AddRowKeepsTwo(Blocks(before), w);
  }

  ghost predicate AlwaysOffersUnused(rows: seq<Worker>, rankings: seq<seq<Worker>>) {
    forall k :: 0 <= k < |rankings| ==> OffersUnused(rows, rankings, k)
  }

  /** Main result: with somebody new always on offer, every worker that is left
      was given exactly two chances. */
  lemma {:induction false} ExactlyTwoChances(rows: seq<Worker>, rankings: seq<seq<Worker>>)
    requires IsAutomatic(rows, rankings) && AlwaysOffersUnused(rows, rankings)
    ensures TwoChances(Blocks(rows))
    decreases |rankings|
  {
    hide Trailing, Blocks, IsPicked, OffersUnused;
    var n := |rankings|;
    if n == 0 {
      OneBlock(rows[0]);
      assert rows == [rows[0]];
    } else {
      assert OffersUnused(rows, rankings, n - 1);
      hide TwoChances;
      var before := rows[..n];
      ShorterIsAutomatic(rows, rankings);
      ShorterOffers(rows, rankings);
      ExactlyTwoChances(before, rankings[..n - 1]);
      ThirdChanceOnlyWithoutAlternative(rows, rankings, n - 1);
      hide AlwaysOffersUnused, IsAutomatic;
      BlocksGrowByTwo(before, rows[n]);
      assert rows == before + [rows[n]];
    }
  }

  lemma ShorterOffers(rows: seq<Worker>, rankings: seq<seq<Worker>>)
    requires rankings != [] && |rows| == |rankings| + 1 && AlwaysOffersUnused(rows, rankings)
    ensures AlwaysOffersUnused(rows[..|rows| - 1], rankings[..|rankings| - 1])
  {
    var rows', rankings' := rows[..|rows| - 1], rankings[..|rankings| - 1];
    forall k | 0 <= k < |rankings'| ensures OffersUnused(rows', rankings', k) {
      assert OffersUnused(rows, rankings, k);
      assert rows'[..k + 1] == rows[..k + 1];
    }
  }

  /** The rows of a run are such a history. */
  lemma {:induction false} RunsAreAutomatic(c: Case, p: Policy, rounds: seq<Round>, before: seq<seq<Worker>>)
      returns (rankings: seq<seq<Worker>>)
    requires IsAutomatic(c.rows, before)
    ensures before <= rankings && IsAutomatic(After(c, p, rounds).rows, rankings)
    decreases |rounds|
  {
    hide Turn;
    if rounds == [] {
      rankings := before;
    } else {
      var c' := Turn(c, p, rounds[0]);
      TurnPicks(c, p, rounds[0]);
      var now := before;
      if c'.rows != c.rows {
        now := before + [rounds[0].ranked];
        LongerIsAutomatic(c.rows, before, c'.rows[|c.rows|], rounds[0].ranked);
      }
      rankings := RunsAreAutomatic(c', p, rounds[1..], now);
    }
  }

  lemma TurnPicks(c: Case, p: Policy, r: Round)
    ensures var c' := Turn(c, p, r);
            c'.rows != c.rows ==>
              var pick := PickRedispatchTarget(c.rows, r.ranked);
              pick.Ok? && c'.rows == c.rows + [pick.value.worker]
  {
    hide PickRedispatchTarget;
  }

  lemma LongerIsAutomatic(rows: seq<Worker>, rankings: seq<seq<Worker>>, w: Worker, ranked: seq<Worker>)
    requires IsAutomatic(rows, rankings)
    requires PickRedispatchTarget(rows, ranked).Ok? && PickRedispatchTarget(rows, ranked).value.worker == w
    ensures IsAutomatic(rows + [w], rankings + [ranked])
  {
    hide PickRedispatchTarget;
    var rows', rankings' := rows + [w], rankings + [ranked];
    forall k | 0 <= k < |rankings'| ensures IsPicked(rows', rankings', k) {
      assert rows'[..k + 1] == rows[..k + 1];
      if k < |rankings| {
        assert IsPicked(rows, rankings, k);
      } else {
        assert rows[..k + 1] == rows;
      }
    }
  }
}
