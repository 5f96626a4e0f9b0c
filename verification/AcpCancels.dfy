/** Cancels over whole runs: which turns are answered "cancelled". */
module AcpCancels {
  import opened Wrappers
  import opened AcpTurns

  predicate IsReturn(s: Step, k: nat) {
    s.Return? && s.k == k
  }

  /** Turn k has had its token put in place. */
  predicate IsRegistered(steps: seq<Step>, k: nat) {
    exists a :: 0 <= a < |steps| && steps[a] == Register(k)
  }

  /** A cancel of session n has come since. */
  predicate IsCancelledSince(steps: seq<Step>, n: nat, k: nat) {
    exists b :: 0 <= b < |steps| && steps[b] == Cancel(n) && IsRegistered(steps[..b], k)
  }

  /** And the token of turn k has been fired after that cancel. */
  predicate IsFiredSince(steps: seq<Step>, n: nat, k: nat) {
    exists d :: 0 <= d < |steps| && steps[d] == Fire(k) && IsCancelledSince(steps[..d], n, k)
  }

  /** A cancel of session n lies between the registration of turn k and the return of
      its driver, and so does the firing of the token. */
  predicate IsCancelledBetween(steps: seq<Step>, n: nat, k: nat) {
    exists c :: 0 <= c < |steps| && IsReturn(steps[c], k) && IsFiredSince(steps[..c], n, k)
  }

  lemma OneMoreStep(steps: seq<Step>, s: Step, n: nat, k: nat)
    ensures IsRegistered(steps + [s], k) <==> IsRegistered(steps, k) || s == Register(k)
    ensures IsCancelledSince(steps + [s], n, k)
            <==> IsCancelledSince(steps, n, k) || (s == Cancel(n) && IsRegistered(steps, k))
    ensures IsFiredSince(steps + [s], n, k)
            <==> IsFiredSince(steps, n, k) || (s == Fire(k) && IsCancelledSince(steps, n, k))
    ensures IsCancelledBetween(steps + [s], n, k)
            <==> IsCancelledBetween(steps, n, k) || (IsReturn(s, k) && IsFiredSince(steps, n, k))
  {
    var more := steps + [s];
    assert more[|steps|] == s;
    assert forall i :: 0 <= i < |steps| ==> more[i] == steps[i];
    assert forall i :: 0 <= i <= |steps| ==> more[..i] == steps[..i];
    assert steps[..|steps|] == steps;
  }

  /** The slot of a session holds the token of its running turn until a cancel takes
      it. */
  ghost predicate SlotHolds(w: Server, k: nat)
    requires k < |w.turns|
  {
    var t := w.turns[k];
    && t.session < |w.sessions|
    && (t.phase.Running? && k !in w.taken && k !in w.fired ==> w.sessions[t.session].cancel == Some(k))
  }

  ghost predicate Accounts(w: Server, steps: seq<Step>, k: nat) {
    if k >= |w.turns| then !IsRegistered(steps, k)
    else
      var t := w.turns[k];
      if t.phase.Waiting? || t.phase.Locked? then !IsRegistered(steps, k) && t.session < |w.sessions|
      else if t.phase.Running? then
        && IsRegistered(steps, k) && SlotHolds(w, k) && !IsCancelledBetween(steps, t.session, k)
        && (k in w.taken || k in w.fired <==> IsCancelledSince(steps, t.session, k))
        && (k in w.fired <==> IsFiredSince(steps, t.session, k))
      else t.outcome.Cancelled? <==> IsCancelledBetween(steps, t.session, k)
  }

  lemma RegisteredFirst(steps: seq<Step>, n: nat, k: nat)
    requires !IsRegistered(steps, k)
    ensures !IsCancelledSince(steps, n, k) && !IsFiredSince(steps, n, k) && !IsCancelledBetween(steps, n, k)
  {
    forall b | 0 <= b <= |steps| ensures !IsRegistered(steps[..b], k) {
      assert forall i :: 0 <= i < b ==> steps[..b][i] == steps[i];
    }
    forall c | 0 <= c <= |steps| ensures !IsCancelledSince(steps[..c], n, k) && !IsFiredSince(steps[..c], n, k) {
      assert forall b :: 0 <= b < c ==> steps[..c][..b] == steps[..b];
    }
    assert steps[..|steps|] == steps;
  }

  lemma StepAccounts(w: Server, steps: seq<Step>, s: Step, k: nat)
    requires Inv(w) && Enabled(w, s) && Accounts(w, steps, k)
    ensures Accounts(Next(w, s), steps + [s], k)
  {
    hide IsRegistered, IsCancelledSince, IsFiredSince, IsCancelledBetween, Says;
    var w' := Next(w, s);
    if k < |w.turns| {
      var n := w.turns[k].session;
      OneMoreStep(steps, s, n, k);
      if !IsRegistered(steps, k) {
        RegisteredFirst(steps, n, k);
      }
      assert TurnOk(w, k);
      if Mover(s).Some? {
        MoveAccounts(w, steps, s, k);
      } else if s.Cancel? && s.session < |w.sessions| {
        assert SessionOk(w, s.session);
      }
    } else {
      OneMoreStep(steps, s, 0, k);
    }
  }

  lemma MoveAccounts(w: Server, steps: seq<Step>, s: Step, k: nat)
    requires Inv(w) && Enabled(w, s) && Mover(s).Some? && k < |w.turns| && Accounts(w, steps, k)
    requires var n := w.turns[k].session;
             && (IsRegistered(steps + [s], k) <==> IsRegistered(steps, k) || s == Register(k))
             && (IsCancelledSince(steps + [s], n, k) <==> IsCancelledSince(steps, n, k))
             && (IsFiredSince(steps + [s], n, k) <==> IsFiredSince(steps, n, k))
             && (IsCancelledBetween(steps + [s], n, k)
                 <==> IsCancelledBetween(steps, n, k) || (IsReturn(s, k) && IsFiredSince(steps, n, k)))
             && (!IsRegistered(steps, k) ==>
                   !IsCancelledSince(steps, n, k) && !IsFiredSince(steps, n, k) && !IsCancelledBetween(steps, n, k))
    ensures Accounts(Next(w, s), steps + [s], k)
  {
    hide IsRegistered, IsCancelledSince, IsFiredSince, IsCancelledBetween, Inv;
    CancelledExactlyWhenFiredInTime(w, s, k);
    if s.k == k {
      OwnPhase(w, s, k);
    } else {
      OtherStays(w, s, k);
    }
    hide Next, Enabled, Fold;
  }

  /** What a step of its own does to a turn, as far as cancels go. */
  lemma OwnPhase(w: Server, s: Step, k: nat)
    requires Enabled(w, s) && Mover(s) == Some(k) && k < |w.turns| && Inv(w)
    ensures var w' := Next(w, s);
            && k < |w'.turns| && w'.turns[k].session == w.turns[k].session < |w'.sessions|
            && w'.taken == w.taken && w'.fired == w.fired
            && (w'.turns[k].phase.Locked? ==> w.turns[k].phase.Waiting? || w.turns[k].phase.Locked?)
            && !w'.turns[k].phase.Waiting?
            && (w'.turns[k].phase.Running? <==> s.Register? || (w.turns[k].phase.Running? && !s.Return?))
            && (s.Register? ==> w.turns[k].phase.Locked? && k !in w.taken && k !in w.fired && SlotHolds(w', k))
            && (s.Return? ==> w.turns[k].phase.Running?)
            && (SlotHolds(w, k) && w.turns[k].phase.Running? && !s.Return? ==> SlotHolds(w', k))
  {
    assert TurnOk(w, k);
    hide Inv, ChannelOk, Closing, Fold;
  }

  /** A step of another turn leaves a running turn and its slot alone: it has the lock. */
  lemma OtherStays(w: Server, s: Step, k: nat)
    requires Enabled(w, s) && Mover(s).Some? && s.k != k && k < |w.turns| && Inv(w)
    ensures var w' := Next(w, s);
            && k < |w'.turns| && w'.turns[k] == w.turns[k] && |w'.sessions| == |w.sessions|
            && w'.taken == w.taken && w'.fired == w.fired
            && (SlotHolds(w, k) ==> SlotHolds(w', k))
  {
    assert TurnOk(w, k) && TurnOk(w, s.k) && SessionOk(w, w.turns[s.k].session);
    MoversFrame(w, s, s.k);
    hide Inv, ChannelOk, Closing, Fold, ServedOk;
  }

  lemma {:induction false} LastStep(w: Server, steps: seq<Step>)
    requires CanRun(w, steps) && steps != []
    ensures var n := |steps| - 1;
            && CanRun(w, steps[..n]) && Enabled(Run(w, steps[..n]), steps[n])
            && Run(w, steps) == Next(Run(w, steps[..n]), steps[n])
    decreases |steps|
  {
    hide Next, Enabled;
    var n := |steps| - 1;
    if n == 0 {
      assert steps[..0] == [] && steps[1..] == [];
    } else {
      var w1 := Next(w, steps[0]);
      LastStep(w1, steps[1..]);
      assert steps[..n][1..] == steps[1..][..n - 1];
    }
  }

  lemma {:induction false} RunAccounts(steps: seq<Step>, k: nat)
    requires CanRun(OPENING, steps)
    ensures Accounts(Run(OPENING, steps), steps, k)
    decreases |steps|
  {
    assert Inv(OPENING);
    hide Next, Enabled, Inv;
    if steps != [] {
      var n := |steps| - 1;
      LastStep(OPENING, steps);
      RunAccounts(steps[..n], k);
      hide CanRun, Run, Accounts;
      RunKeeps(OPENING, steps[..n]);
      StepAccounts(Run(OPENING, steps[..n]), steps[..n], steps[n], k);
      assert steps[..n] + [steps[n]] == steps;
    }
  }

  /** Main result: along every run, a turn is answered "cancelled" if and only if a
      cancel of its session, and the firing of the token it took, came between its
      registration and the return of its driver; earlier and later ones do not count. */
  lemma AnsweredCancelledExactlyWhen(steps: seq<Step>, k: nat)
    requires CanRun(OPENING, steps) && k < |Run(OPENING, steps).turns|
    requires var phase := Run(OPENING, steps).turns[k].phase;
             !phase.Waiting? && !phase.Locked? && !phase.Running?
    ensures var t := Run(OPENING, steps).turns[k];
            StopReason(t.outcome) == "cancelled" <==> IsCancelledBetween(steps, t.session, k)
  {
    RunAccounts(steps, k);
    assert "cancelled"[0] != "end_turn"[0] && "cancelled"[0] != "refusal"[0];
    hide CanRun, Run, IsCancelledBetween, IsRegistered, IsCancelledSince, IsFiredSince;
  }
}
