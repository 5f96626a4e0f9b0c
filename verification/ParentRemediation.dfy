/** Automatic rework of a parent issue: a failed closing review opens a rework
    child, at most so many times between two resets by a human. */
module ParentRemediation {
  datatype Child = Child(title: string, createdAt: int)

  /** The children of the parent and the time of the last reset. */
  datatype Parent = Parent(children: seq<Child>, epoch: int)

  datatype AutoDispatch = Dispatched | Deferred | Failed

  datatype Remediation = Declined | Taken(round: nat, dispatched: bool)

  const PREFIX := "返工："
  const OLD_PREFIX := "返工: "

  /** Children count by their title, in the current or the older spelling, and by
      their time. */
  predicate Counts(c: Child, epoch: int) {
    (PREFIX <= c.title || OLD_PREFIX <= c.title) && c.createdAt >= epoch
  }

  function Spent(children: seq<Child>, epoch: int): nat {
    if children == [] then 0
    else Spent(children[..|children| - 1], epoch) + (if Counts(children[|children| - 1], epoch) then 1 else 0)
  }

  predicate Allows(p: Parent, max: nat, stopped: bool) {
    max > 0 && !stopped && Spent(p.children, p.epoch) + 1 <= max
  }

  /** The child is opened before it is dispatched, and stays when that fails. */
  function TryRemediation(p: Parent, max: nat, stopped: bool, rest: string, now: int, d: AutoDispatch)
    : (Parent, Remediation)
  {
    if !Allows(p, max, stopped) then (p, Declined)
    else
      (p.(children := p.children + [Child(PREFIX + rest, now)]),
       if d.Failed? then Declined else Taken(Spent(p.children, p.epoch) + 1, d.Dispatched?))
  }

  class ParentIssue {
    var children: seq<Child>
    var epoch: int

    ghost function Value(): Parent
      reads this
    {
      Parent(children, epoch)
    }

    method TryParentRemediation(max: nat, stopped: bool, rest: string, now: int, d: AutoDispatch)
        returns (r: Remediation)
      modifies this`children
      ensures (Value(), r) == TryRemediation(old(Value()), max, stopped, rest, now, d)
    {
      if max == 0 || stopped { return Declined; }
      var round := Spent(children, epoch) + 1;
      if round > max { return Declined; }
      children := children + [Child(PREFIX + rest, now)];
      match d {
        case Dispatched => r := Taken(round, true);
        case Deferred => r := Taken(round, false);
        case Failed => r := Declined;
      }
    }
  }

  /** The children that count, told from their titles, in either spelling, and times. */
  predicate IsRework(c: Child, epoch: int) {
    && c.createdAt >= epoch
    && |c.title| >= 3 && c.title[0] == '返' && c.title[1] == '工'
    && (c.title[2] == '：' || (|c.title| >= 4 && c.title[2] == ':' && c.title[3] == ' '))
  }

  function Reworks(children: seq<Child>, epoch: int): set<int> {
    set i | 0 <= i < |children| && IsRework(children[i], epoch)
  }

  /** The budget spent is the number of such children. */
  lemma {:induction false} SpentIsTheNumberOfReworks(children: seq<Child>, epoch: int)
    ensures Spent(children, epoch) == |Reworks(children, epoch)|
  {
    if children != [] {
      var n := |children| - 1;
      SpentIsTheNumberOfReworks(children[..n], epoch);
      ReworkIsCounted(children[n], epoch);
      OneMoreRework(children, epoch);
      hide IsRework, Counts, Reworks;
    }
  }

  lemma OneMoreRework(children: seq<Child>, epoch: int)
    requires children != []
    ensures var n := |children| - 1;
            && n !in Reworks(children[..n], epoch)
            && Reworks(children, epoch)
               == if IsRework(children[n], epoch) then Reworks(children[..n], epoch) + {n}
                  else Reworks(children[..n], epoch)
  {
    hide IsRework;
    var n := |children| - 1;
    assert forall i :: 0 <= i < n ==> children[..n][i] == children[i];
  }

  lemma ReworkIsCounted(c: Child, epoch: int)
    ensures Counts(c, epoch) <==> IsRework(c, epoch)
  {
    if PREFIX <= c.title {
      assert c.title[0] == PREFIX[0] && c.title[1] == PREFIX[1] && c.title[2] == PREFIX[2];
    }
    if OLD_PREFIX <= c.title {
      assert c.title[0] == OLD_PREFIX[0] && c.title[1] == OLD_PREFIX[1] && c.title[2] == OLD_PREFIX[2]
          && c.title[3] == OLD_PREFIX[3];
    }
  }

  /** Main result: the reply names the round exactly when a child was opened and its
      dispatch did not fail: it is the number of reworks now counted, within the
      budget, when the clock is on time. */
  lemma ReplyTellsTheRound(p: Parent, max: nat, stopped: bool, rest: string, now: int, d: AutoDispatch)
    ensures var (p', r) := TryRemediation(p, max, stopped, rest, now, d);
            && (r.Taken? <==> p'.children != p.children && !d.Failed?)
            && (r.Taken? ==> r.dispatched == d.Dispatched? && 1 <= r.round <= max)
            && (r.Taken? && now >= p.epoch ==> r.round == Spent(p'.children, p.epoch))
            && (p'.children != p.children <==> max > 0 && !stopped && Spent(p.children, p.epoch) < max)
            && (p'.children != p.children ==> p'.children == p.children + [Child(PREFIX + rest, now)])
            && p'.epoch == p.epoch
  {
    var c := Child(PREFIX + rest, now);
    SpentGrows(p.children, c, p.epoch);
    assert PREFIX <= c.title;
    assert |p.children + [c]| > |p.children|;
  }

  // ---- Runs between two resets ----

  datatype Step =
    | Attempt(stopped: bool, rest: string, now: int, dispatch: AutoDispatch)
    | ByHand(child: Child)

  function Next(p: Parent, max: nat, s: Step): Parent {
    match s
    case Attempt(stopped, rest, now, d) => TryRemediation(p, max, stopped, rest, now, d).0
    case ByHand(c) => p.(children := p.children + [c])
  }

  /** How many children the attempts of a run open, those of late clocks or the others. */
  function Opened(p: Parent, max: nat, steps: seq<Step>, late: bool): nat
    decreases |steps|
  {
    if steps == [] then 0
    else (if steps[0].Attempt? && Allows(p, max, steps[0].stopped) && (steps[0].now < p.epoch) == late then 1 else 0)
         + Opened(Next(p, max, steps[0]), max, steps[1..], late)
  }

  lemma SpentGrows(children: seq<Child>, c: Child, epoch: int)
    ensures Spent(children + [c], epoch) == Spent(children, epoch) + (if Counts(c, epoch) then 1 else 0)
  {
    assert (children + [c])[..|children|] == children;
  }

  predicate AnyLate(steps: seq<Step>, epoch: int) {
    exists k :: 0 <= k < |steps| && steps[k].Attempt? && steps[k].now < epoch
  }

  /** Main result: between two resets no more rework children are opened than the
      budget has left, whatever else is opened by hand, and also when dispatching
      them fails; only attempts whose clock runs behind the reset are not counted. */
  lemma {:induction false} BudgetHolds(p: Parent, max: nat, steps: seq<Step>)
    ensures Opened(p, max, steps, false)
            <= (if Spent(p.children, p.epoch) < max then max - Spent(p.children, p.epoch) else 0)
    ensures !AnyLate(steps, p.epoch) ==> Opened(p, max, steps, true) == 0
    decreases |steps|
  {
    if steps != [] {
      var p' := Next(p, max, steps[0]);
      if p'.children != p.children {
        var c := p'.children[|p.children|];
        SpentGrows(p.children, c, p.epoch);
        if steps[0].Attempt? {
          assert PREFIX <= PREFIX + steps[0].rest;
        }
      }
      BudgetHolds(p', max, steps[1..]);
      if AnyLate(steps[1..], p.epoch) {
        var k :| 0 <= k < |steps| - 1 && steps[1..][k].Attempt? && steps[1..][k].now < p.epoch;
        assert steps[k + 1] == steps[1..][k];
      }
    }
  }

  /** One attempt spends nothing if and only if its clock runs behind the reset. */
  lemma LateClockSpendsNothing(p: Parent, max: nat, stopped: bool, rest: string, now: int, d: AutoDispatch)
    requires Allows(p, max, stopped)
    ensures var p' := TryRemediation(p, max, stopped, rest, now, d).0;
            Spent(p'.children, p.epoch) == Spent(p.children, p.epoch) <==> now < p.epoch
  {
    var c := Child(PREFIX + rest, now);
    SpentGrows(p.children, c, p.epoch);
    assert PREFIX <= c.title;
  }

  /** So with late clocks rework goes on for ever: any number of attempts on a budget
      of one. */
  lemma {:induction false} LateClocksOverspend(p: Parent, rest: string, n: nat) returns (steps: seq<Step>)
    requires Spent(p.children, p.epoch) == 0
    ensures |steps| == n && forall k :: 0 <= k < n ==> steps[k] == Attempt(false, rest, p.epoch - 1, Dispatched)
    ensures Opened(p, 1, steps, true) == n
    decreases n
  {
    steps := [];
    if n > 0 {
      LateClockSpendsNothing(p, 1, false, rest, p.epoch - 1, Dispatched);
      var s := Attempt(false, rest, p.epoch - 1, Dispatched);
      var more := LateClocksOverspend(Next(p, 1, s), rest, n - 1);
      steps := [s] + more;
      assert steps[1..] == more;
    }
  }
}
