/** What each prompt gets, told from the steps of a run: which prompts are heard, what
    the driver of a turn has sent and returned, and what the client reads for it. */
module AcpAnswers {
  import opened Wrappers
  import opened AcpTurns
  import opened AcpCancels

  // ---- Which prompts are heard ----

  function SessionsOpened(steps: seq<Step>): nat {
    if steps == [] then 0
    else SessionsOpened(steps[..|steps| - 1]) + (if steps[|steps| - 1].SessionNew? then 1 else 0)
  }

  predicate IsHeard(before: seq<Step>, s: Step) {
    s.Prompt? && s.wellFormed && s.session < SessionsOpened(before)
  }

  /** Session and request number of each prompt that is heard, in order. */
  function Heard(steps: seq<Step>): seq<(nat, int)> {
    if steps == [] then []
    else
      var n := |steps| - 1;
      Heard(steps[..n]) + (if IsHeard(steps[..n], steps[n]) then [(steps[n].session, steps[n].id)] else [])
  }

  /** The answers outside all turns: a greeting for each new session, a rejection for
      each prompt that is not heard. */
  function Outside(steps: seq<Step>): seq<Frame> {
    if steps == [] then []
    else
      var n := |steps| - 1;
      var s := steps[n];
      Outside(steps[..n])
      + (if s.SessionNew? then [Created(SessionsOpened(steps[..n]))]
         else if s.Prompt? && !IsHeard(steps[..n], s) then [Rejected(s.id)] else [])
  }

  function OutsideOf(out: seq<Frame>): seq<Frame> {
    if out == [] then []
    else
      var f := out[|out| - 1];
      OutsideOf(out[..|out| - 1]) + (if f.Created? || f.Rejected? then [f] else [])
  }

  lemma OutsideSnoc(out: seq<Frame>, f: Frame)
    ensures OutsideOf(out + [f]) == OutsideOf(out) + (if f.Created? || f.Rejected? then [f] else [])
  {
    assert (out + [f])[..|out|] == out;
  }

  ghost predicate IsHeardSo(w: Server, steps: seq<Step>) {
    && |w.sessions| == SessionsOpened(steps)
    && |w.turns| == |Heard(steps)|
    && (forall k :: 0 <= k < |w.turns| ==> (w.turns[k].session, w.turns[k].id) == Heard(steps)[k])
    && OutsideOf(w.outbound) == Outside(steps)
  }

  lemma StepIsHeardSo(w: Server, steps: seq<Step>, s: Step)
    requires Enabled(w, s) && IsHeardSo(w, steps)
    ensures IsHeardSo(Next(w, s), steps + [s])
  {
    hide SessionsOpened, Heard, Outside, OutsideOf, Next, Enabled;
    HistorySnoc(steps, s);
    TurnsAreHeard(w, s);
    OutsideGrows(w, s);
  }

  /** A prompt is heard when its session is there and it is well formed. */
  predicate Hears(w: Server, s: Step) {
    s.Prompt? && s.wellFormed && s.session < |w.sessions|
  }

  lemma TurnsAreHeard(w: Server, s: Step)
    requires Enabled(w, s)
    ensures var w' := Next(w, s);
            && |w'.sessions| == |w.sessions| + (if s.SessionNew? then 1 else 0)
            && |w'.turns| == |w.turns| + (if Hears(w, s) then 1 else 0)
            && (forall k :: 0 <= k < |w.turns| ==>
                  w'.turns[k].session == w.turns[k].session && w'.turns[k].id == w.turns[k].id)
            && (Hears(w, s) ==> w'.turns[|w.turns|].session == s.session && w'.turns[|w.turns|].id == s.id)
  {
    hide Fold, Closing;
  }

  lemma OutsideGrows(w: Server, s: Step)
    requires Enabled(w, s)
    ensures OutsideOf(Next(w, s).outbound) == OutsideOf(w.outbound)
              + (if s.SessionNew? then [Created(|w.sessions|)]
                 else if s.Prompt? && !Hears(w, s) then [Rejected(s.id)] else [])
  {
    var w' := Next(w, s);
    if w'.outbound != w.outbound {
      OutsideSnoc(w.outbound, w'.outbound[|w.outbound|]);
    }
    hide OutsideOf, Fold;
  }

  lemma HistorySnoc(steps: seq<Step>, s: Step)
    ensures var more := steps + [s];
            && SessionsOpened(more) == SessionsOpened(steps) + (if s.SessionNew? then 1 else 0)
            && Heard(more) == Heard(steps) + (if IsHeard(steps, s) then [(s.session, s.id)] else [])
            && Outside(more) == Outside(steps)
                 + (if s.SessionNew? then [Created(SessionsOpened(steps))]
                    else if s.Prompt? && !IsHeard(steps, s) then [Rejected(s.id)] else [])
  {
    assert (steps + [s])[..|steps|] == steps;
  }

  lemma {:induction false} RunIsHeardSo(steps: seq<Step>)
    requires CanRun(OPENING, steps)
    ensures IsHeardSo(Run(OPENING, steps), steps)
    decreases |steps|
  {
    if steps == [] {
      assert IsHeardSo(OPENING, []);
    } else {
      hide Next, Enabled, IsHeardSo;
      var n := |steps| - 1;
      LastStep(OPENING, steps);
      RunIsHeardSo(steps[..n]);
      hide CanRun, Run;
      StepIsHeardSo(Run(OPENING, steps[..n]), steps[..n], steps[n]);
      assert steps[..n] + [steps[n]] == steps;
    }
  }

  /** Main result: in every interleaving each well-formed prompt to a session that has
      been opened becomes one turn of that session under its own request number, in
      order, and every other prompt is rejected once, under its own number. */
  lemma EachPromptIsHeardOrRejected(steps: seq<Step>)
    requires CanRun(OPENING, steps)
    ensures var w := Run(OPENING, steps);
            && |w.turns| == |Heard(steps)|
            && (forall k :: 0 <= k < |w.turns| ==> (w.turns[k].session, w.turns[k].id) == Heard(steps)[k])
            && OutsideOf(w.outbound) == Outside(steps)
  {
    RunIsHeardSo(steps);
    hide CanRun, Run;
  }

  // ---- What the driver sends and returns ----

  /** The updates that the driver of turn k sends, in order. */
  function Emitted(steps: seq<Step>, k: nat): seq<Update> {
    if steps == [] then []
    else
      var s := steps[|steps| - 1];
      Emitted(steps[..|steps| - 1], k) + (if s.Emit? && s.k == k then [s.update] else [])
  }

  /** Of what it has sent, at most 64 updates wait to be passed on. */
  lemma {:induction false} AtMost64Wait(steps: seq<Step>, k: nat)
    requires CanRun(OPENING, steps)
    ensures k < |Run(OPENING, steps).turns| ==> |Run(OPENING, steps).turns[k].channel| <= 64
    decreases |steps|
  {
    if steps != [] {
      var n := |steps| - 1;
      LastStep(OPENING, steps);
      AtMost64Wait(steps[..n], k);
      hide CanRun, Run, Fold;
    }
  }

  /** What the driver of turn k returns with, if it has returned. */
  function Returned(steps: seq<Step>, k: nat): Option<(Option<string>, Option<string>)> {
    if steps == [] then None
    else
      var s := steps[|steps| - 1];
      if IsReturn(s, k) then Some((s.done, s.error)) else Returned(steps[..|steps| - 1], k)
  }

  lemma DriverSnoc(steps: seq<Step>, s: Step, k: nat)
    ensures Emitted(steps + [s], k) == Emitted(steps, k) + (if s.Emit? && s.k == k then [s.update] else [])
    ensures Returned(steps + [s], k) == if IsReturn(s, k) then Some((s.done, s.error)) else Returned(steps, k)
  {
    assert (steps + [s])[..|steps|] == steps;
  }

  /** What a turn that is not cancelled comes to: the reply, or else the error, or else
      that nothing came. */
  predicate ComesTo(o: Outcome, done: Option<string>, error: Option<string>) {
    if done.Some? then o == Completed(done.value)
    else o == AcpTurns.Failed(if error.Some? then error.value else "agent produced no output")
  }

  ghost predicate IsToldSo(w: Server, steps: seq<Step>, k: nat) {
    if k >= |w.turns| then Emitted(steps, k) == [] && Returned(steps, k) == None
    else
      var t := w.turns[k];
      && t.produced == Emitted(steps, k)
      && (t.phase.Waiting? || t.phase.Locked? || t.phase.Running? <==> Returned(steps, k) == None)
      && (Returned(steps, k).Some? && !t.outcome.Cancelled? ==>
            ComesTo(t.outcome, Returned(steps, k).value.0, Returned(steps, k).value.1))
  }

  lemma StepIsToldSo(w: Server, steps: seq<Step>, s: Step, k: nat)
    requires Enabled(w, s) && IsToldSo(w, steps, k)
    ensures IsToldSo(Next(w, s), steps + [s], k)
  {
    DriverSnoc(steps, s, k);
    hide Emitted, Returned;
  }

  lemma {:induction false} RunIsToldSo(steps: seq<Step>, k: nat)
    requires CanRun(OPENING, steps)
    ensures IsToldSo(Run(OPENING, steps), steps, k)
    decreases |steps|
  {
    if steps == [] {
      assert IsToldSo(OPENING, [], k);
    } else {
      hide Next, Enabled, IsToldSo;
      var n := |steps| - 1;
      LastStep(OPENING, steps);
      RunIsToldSo(steps[..n], k);
      hide CanRun, Run;
      StepIsToldSo(Run(OPENING, steps[..n]), steps[..n], steps[n], k);
      assert steps[..n] + [steps[n]] == steps;
    }
  }

  /** What the client reads for an ended turn, literally. */
  function Reading(n: nat, id: int, updates: seq<Update>, cancelled: bool, done: Option<string>, error: Option<string>)
    : seq<Frame>
  {
    Notes(n, updates)
    + (if cancelled then [Answer(n, id, "cancelled")]
       else if done.Some? then [Chunk(n, done.value), Answer(n, id, "end_turn")]
       else [Chunk(n, if error.Some? then error.value else "agent produced no output"), Answer(n, id, "refusal")])
  }

  /** Main result: along every run the client reads for an ended turn every update its
      driver sent, in order, and then: only "cancelled" if a cancel came in time, the
      reply and "end_turn" if the driver returned one, and else the error, or that
      nothing came, and "refusal". */
  lemma EndedTurnIsAnsweredAsReturned(steps: seq<Step>, k: nat)
    requires CanRun(OPENING, steps) && At(Run(OPENING, steps), k, Ended)
    ensures var t, r := Run(OPENING, steps).turns[k], Returned(steps, k);
            && r.Some?
            && Block(t) == Reading(t.session, t.id, Emitted(steps, k), IsCancelledBetween(steps, t.session, k),
                                   r.value.0, r.value.1)
  {
    EndedBlocksAreComplete(steps, k);
    AnsweredCancelledExactlyWhen(steps, k);
    RunIsToldSo(steps, k);
    assert "cancelled"[0] != "end_turn"[0] && "cancelled"[0] != "refusal"[0];
    hide CanRun, Run, IsCancelledBetween, Emitted, Returned, Block, Notes;
  }

  // ---- Turns end ----

  function PhaseNumber(p: Phase): nat {
    match p
    case Waiting => 0
    case Locked => 1
    case Running => 2
    case Returned => 3
    case Cleared => 4
    case Closed => 5
    case Answered => 6
    case Ended => 7
  }

  /** The steps of turn k. */
  function Moves(steps: seq<Step>, k: nat): nat {
    if steps == [] then 0
    else Moves(steps[..|steps| - 1], k) + (if Mover(steps[|steps| - 1]) == Some(k) then 1 else 0)
  }

  ghost predicate IsSoFar(w: Server, moves: nat, k: nat) {
    if k < |w.turns|
    then moves == PhaseNumber(w.turns[k].phase) + |w.turns[k].produced| + |w.turns[k].passed|
    else moves == 0
  }

  lemma StepIsSoFar(w: Server, s: Step, moves: nat, k: nat)
    requires Enabled(w, s) && IsSoFar(w, moves, k)
    ensures IsSoFar(Next(w, s), moves + (if Mover(s) == Some(k) then 1 else 0), k)
  {
    hide Fold, Closing;
  }

  lemma {:induction false} RunIsSoFar(steps: seq<Step>, k: nat)
    requires CanRun(OPENING, steps)
    ensures IsSoFar(Run(OPENING, steps), Moves(steps, k), k)
    decreases |steps|
  {
    if steps == [] {
      assert IsSoFar(OPENING, 0, k);
    } else {
      hide Next, Enabled, IsSoFar;
      var n := |steps| - 1;
      LastStep(OPENING, steps);
      RunIsSoFar(steps[..n], k);
      hide CanRun, Run;
      StepIsSoFar(Run(OPENING, steps[..n]), steps[n], Moves(steps[..n], k), k);
    }
  }

  /** Main result: every move of a turn brings it on. It takes at most seven moves and two
      more for each update its driver sends, and has ended exactly when it has taken
      them all. */
  lemma TurnsEndAfterTheirMoves(steps: seq<Step>, k: nat)
    requires CanRun(OPENING, steps) && k < |Run(OPENING, steps).turns|
    ensures Moves(steps, k) <= 7 + 2 * |Emitted(steps, k)|
    ensures Run(OPENING, steps).turns[k].phase.Ended? <==> Moves(steps, k) == 7 + 2 * |Emitted(steps, k)|
  {
    RunIsSoFar(steps, k);
    RunIsToldSo(steps, k);
    RunKeeps(OPENING, steps);
    assert TurnOk(Run(OPENING, steps), k);
    hide CanRun, Run, Moves, Emitted, Returned;
  }

  // ---- A conversation ----

  lemma {:induction false} Extend(w: Server, steps: seq<Step>, s: Step)
    requires CanRun(w, steps) && Enabled(Run(w, steps), s)
    ensures CanRun(w, steps + [s]) && Run(w, steps + [s]) == Next(Run(w, steps), s)
    decreases |steps|
  {
    hide Next, Enabled;
    if steps == [] {
      assert [s][1..] == [];
    } else {
      Extend(Next(w, steps[0]), steps[1..], s);
      assert (steps + [s])[1..] == steps[1..] + [s];
    }
  }

  /** A session is opened and a prompt sent in it; the turn is set up. */
  lemma Prompted(id: int) returns (steps: seq<Step>)
    ensures CanRun(OPENING, steps)
    ensures Run(OPENING, steps) == Server([Session(Some(0), Some(0), [0])],
                                          [Turn(0, id, Running, [], [], [], Cancelled)], {}, {}, [Created(0)])
  {
    steps := [];
    assert CanRun(OPENING, steps) && Run(OPENING, steps) == OPENING;
    hide CanRun, Run;
    Extend(OPENING, steps, SessionNew);
    steps := steps + [SessionNew];
    Extend(OPENING, steps, Prompt(0, id, true));
    steps := steps + [Prompt(0, id, true)];
    Extend(OPENING, steps, Lock(0));
    steps := steps + [Lock(0)];
    Extend(OPENING, steps, Register(0));
    steps := steps + [Register(0)];
    var w := Run(OPENING, steps);
    assert w.turns == [Turn(0, id, Running, [], [], [], Cancelled)];
    assert |w.sessions| == 1 && w.sessions[0].served == [0] && w.sessions[0] == Session(Some(0), Some(0), [0]);
    assert w.sessions == [Session(Some(0), Some(0), [0])] && w.outbound == [Created(0)];
  }

  /** The driver sends an update and returns a reply, and a cancel comes too late. */
  lemma OnePromptIsAnswered(id: int, u: Update, m: string) returns (steps: seq<Step>)
    ensures CanRun(OPENING, steps) && At(Run(OPENING, steps), 0, Ended)
    ensures Run(OPENING, steps).outbound == [Created(0), Notify(0, u), Chunk(0, m), Answer(0, id, "end_turn")]
  {
    steps := Prompted(id);
    hide CanRun, Run;
    Extend(OPENING, steps, Emit(0, u));
    steps := steps + [Emit(0, u)];
    Extend(OPENING, steps, Return(0, Some(m), None));
    steps := steps + [Return(0, Some(m), None)];
    Extend(OPENING, steps, Cancel(0));
    steps := steps + [Cancel(0)];
    Extend(OPENING, steps, Pump(0));
    steps := steps + [Pump(0)];
    Extend(OPENING, steps, ClearCancel(0));
    steps := steps + [ClearCancel(0)];
    Extend(OPENING, steps, Close(0));
    steps := steps + [Close(0)];
    Extend(OPENING, steps, SendAnswer(0));
    steps := steps + [SendAnswer(0)];
    Extend(OPENING, steps, Unlock(0));
    steps := steps + [Unlock(0)];
  }

  /** The same prompt, cancelled in time. */
  lemma OnePromptIsCancelled(id: int) returns (steps: seq<Step>)
    ensures CanRun(OPENING, steps) && At(Run(OPENING, steps), 0, Ended)
    ensures Run(OPENING, steps).outbound == [Created(0), Answer(0, id, "cancelled")]
  {
    steps := Prompted(id);
    hide CanRun, Run;
    Extend(OPENING, steps, Cancel(0));
    steps := steps + [Cancel(0)];
    Extend(OPENING, steps, Fire(0));
    steps := steps + [Fire(0)];
    Extend(OPENING, steps, Return(0, Some("late"), None));
    steps := steps + [Return(0, Some("late"), None)];
    Extend(OPENING, steps, ClearCancel(0));
    steps := steps + [ClearCancel(0)];
    Extend(OPENING, steps, Close(0));
    steps := steps + [Close(0)];
    Extend(OPENING, steps, SendAnswer(0));
    steps := steps + [SendAnswer(0)];
    Extend(OPENING, steps, Unlock(0));
    steps := steps + [Unlock(0)];
  }
}
