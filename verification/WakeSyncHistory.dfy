/** Who is woken, told from the history of a run alone: what has arrived in the inbox,
    when the snapshot was written, and when the worker restarted. */
module WakeSyncHistory {
  import opened Wrappers
  import opened WakeSync
  import opened WakeSyncTicks
  import opened WakeSyncRuns

  /** What one step adds to the history. */
  datatype Mark = Mark(arrived: Option<Event>, saved: bool, restarted: bool)

  function MarkOf(me: NodeId, w: World, s: Step): Mark
    requires Enabled(w, s)
  {
    var w' := Next(me, w, s);
    var arrived := if |w'.inbox| > |w.inbox| then Some(w'.inbox[|w.inbox|]) else None;
    var saved := match s
                 case Push(_, _, persisted) => arrived.Some? && persisted
                 case ScanNext(_, persisted) => arrived.Some? && persisted
                 case EndTick(persisted) => persisted
                 case _ => false;
    Mark(arrived, saved, s.Restart?)
  }

  ghost function History(me: NodeId, w: World, steps: seq<Step>): seq<Mark>
    requires CanRun(me, w, steps)
    decreases |steps|
  {
    if steps == [] then []
    else [MarkOf(me, w, steps[0])] + History(me, Next(me, w, steps[0]), steps[1..])
  }

  /** An event of thread k with at least number n has arrived. */
  predicate IsArrival(m: Mark, k: Key, n: int) {
    m.arrived.Some? && m.arrived.value.key == k && m.arrived.value.sn >= n
  }

  predicate IsSavedIn(h: seq<Mark>, a: nat, b: nat)
    requires b <= |h|
  {
    exists p :: a <= p < b && h[p].saved
  }

  /** What arrived at moment a has outlived every restart since: a snapshot was written
      in between. */
  predicate Lasts(h: seq<Mark>, a: nat) {
    forall b :: a < b < |h| && h[b].restarted ==> IsSavedIn(h, a, b)
  }

  predicate Remembers(h: seq<Mark>, k: Key, n: int) {
    exists a :: 0 <= a < |h| && IsArrival(h[a], k, n) && Lasts(h, a)
  }

  predicate HasStored(h: seq<Mark>, k: Key, n: int) {
    exists a :: 0 <= a < |h| && IsArrival(h[a], k, n) && Lasts(h, a) && IsSavedIn(h, a, |h|)
  }

  // ---- One more mark ----

  lemma SavedStep(h: seq<Mark>, m: Mark, a: nat, b: nat)
    requires b <= |h|
    ensures IsSavedIn(h + [m], a, b) <==> IsSavedIn(h, a, b)
    ensures a <= |h| ==> (IsSavedIn(h + [m], a, |h| + 1) <==> IsSavedIn(h, a, |h|) || m.saved)
  {
    var h' := h + [m];
    assert h'[|h|] == m && forall p :: 0 <= p < |h| ==> h'[p] == h[p];
  }

  lemma LastsStep(h: seq<Mark>, m: Mark, a: nat)
    requires a < |h|
    ensures Lasts(h + [m], a) <==> Lasts(h, a) && (m.restarted ==> IsSavedIn(h, a, |h|))
  {
    var h' := h + [m];
    assert h'[|h|] == m && forall p :: 0 <= p < |h| ==> h'[p] == h[p];
    forall b: nat | b <= |h| ensures IsSavedIn(h', a, b) <==> IsSavedIn(h, a, b) {
      SavedStep(h, m, a, b);
    }
    hide IsSavedIn;
  }

  lemma RemembersStep(h: seq<Mark>, m: Mark, k: Key, n: int)
    requires m.arrived.Some? ==> !m.restarted
    ensures Remembers(h + [m], k, n)
            <==> (if m.restarted then HasStored(h, k, n) else Remembers(h, k, n) || IsArrival(m, k, n))
    ensures HasStored(h + [m], k, n) <==> if m.saved then Remembers(h + [m], k, n) else HasStored(h, k, n)
  {
    var h' := h + [m];
    assert h'[|h|] == m && forall p :: 0 <= p < |h| ==> h'[p] == h[p];
    forall a: nat | a < |h|
      ensures Lasts(h', a) <==> Lasts(h, a) && (m.restarted ==> IsSavedIn(h, a, |h|))
      ensures IsSavedIn(h', a, |h'|) <==> IsSavedIn(h, a, |h|) || m.saved
    {
      LastsStep(h, m, a);
      SavedStep(h, m, a, |h|);
    }
    assert Lasts(h', |h|);
    SavedStep(h, m, |h|, |h|);
    assert !IsSavedIn(h, |h|, |h|);
    hide Lasts, IsSavedIn, IsArrival;
  }

  // ---- Levels and history ----

  /** The threads taken part in are those with a level, and levels are positive. */
  predicate IsSound(c: Cursor) {
    c.participated == c.threads.Keys && forall k :: k in c.threads ==> c.threads[k] > 0
  }

  /** Memory and disk hold exactly what the history says of thread k and number n. */
  ghost predicate Accounts(w: World, h: seq<Mark>, k: Key, n: int) {
    && IsSound(w.cursor) && IsSound(Restore(w.disk))
    && (w.cursor.Level(k) >= n <==> Remembers(h, k, n))
    && (Restore(w.disk).Level(k) >= n <==> HasStored(h, k, n))
  }

  lemma StepAccounts(me: NodeId, w: World, h: seq<Mark>, s: Step, k: Key, n: int)
    requires Enabled(w, s) && n > 0 && Accounts(w, h, k, n)
    ensures Accounts(Next(me, w, s), h + [MarkOf(me, w, s)], k, n)
  {
    RemembersStep(h, MarkOf(me, w, s), k, n);
    hide Remembers, HasStored;
    CommitIsSound(w.cursor);
    match s
    case Push(_, _, _) =>
    case ScanNext(_, _) =>
    case _ =>
  }

  lemma CommitIsSound(c: Cursor)
    requires IsSound(c)
    ensures forall k, sn :: c.Fresh(k, sn) ==> IsSound(c.Commit(k, sn))
  {
  }

  lemma {:induction false} RunAccounts(me: NodeId, w: World, h: seq<Mark>, steps: seq<Step>, k: Key, n: int)
    requires CanRun(me, w, steps) && n > 0 && Accounts(w, h, k, n)
    ensures Accounts(Run(me, w, steps), h + History(me, w, steps), k, n)
    decreases |steps|
  {
    hide Accounts, Next, Enabled, MarkOf;
    if steps == [] {
      assert h + [] == h;
    } else {
      var m, w1 := MarkOf(me, w, steps[0]), Next(me, w, steps[0]);
      StepAccounts(me, w, h, steps[0], k, n);
      RunAccounts(me, w1, h + [m], steps[1..], k, n);
      assert h + ([m] + History(me, w1, steps[1..])) == (h + [m]) + History(me, w1, steps[1..]);
    }
  }

  lemma HistoryTells(me: NodeId, ledger: seq<Entry>, steps: seq<Step>, k: Key, n: int)
    requires CanRun(me, Start(ledger), steps) && n > 0
    ensures Accounts(Run(me, Start(ledger), steps), History(me, Start(ledger), steps), k, n)
  {
    RunAccounts(me, Start(ledger), [], steps, k, n);
    assert [] + History(me, Start(ledger), steps) == History(me, Start(ledger), steps);
  }

  /** Main result: whatever was pushed, pulled, lost or restarted before, a row that is
      scanned with a working inbox is enqueued if and only if someone else wrote it, it
      names this worker or an event of its thread has arrived before and outlived the
      restarts, and no event of its thread at least as new has. */
  lemma ScannedRowWakesExactlyWhen(me: NodeId, ledger: seq<Entry>, steps: seq<Step>, persisted: bool)
    requires ValidLedger(ledger) && CanRun(me, Start(ledger), steps)
    requires Enabled(Run(me, Start(ledger), steps), ScanNext(true, persisted))
    ensures var w, h := Run(me, Start(ledger), steps), History(me, Start(ledger), steps);
            var e := w.tick.value.reply.messages[w.tick.value.next];
            Next(me, w, ScanNext(true, persisted)).inbox
            == w.inbox + (if e.sender != me && (e.mentionsMe || Remembers(h, e.key, 1)) && !Remembers(h, e.key, e.sn)
                          then [Event(e.key, e.sn)] else [])
  {
    var w := Run(me, Start(ledger), steps);
    var e := w.tick.value.reply.messages[w.tick.value.next];
    StartInv(ledger);
    RunKeeps(me, Start(ledger), steps);
    assert e.sn > 0 by { assert e in w.tick.value.reply.messages; }
    HistoryTells(me, ledger, steps, e.key, 1);
    HistoryTells(me, ledger, steps, e.key, e.sn);
    hide Inv, Remembers, HasStored, Run, CanRun, History;
  }

  /** And a pushed event is enqueued if and only if its number is positive and no event
      of its thread at least as new has arrived and outlived the restarts. */
  lemma PushWakesExactlyWhen(me: NodeId, ledger: seq<Entry>, steps: seq<Step>, ev: Event, persisted: bool)
    requires CanRun(me, Start(ledger), steps)
    ensures var w, h := Run(me, Start(ledger), steps), History(me, Start(ledger), steps);
            Next(me, w, Push(ev, true, persisted)).inbox
            == w.inbox + (if ev.sn > 0 && !Remembers(h, ev.key, ev.sn) then [ev] else [])
  {
    HistoryTells(me, ledger, steps, ev.key, if ev.sn > 0 then ev.sn else 1);
    hide Remembers, HasStored, Run, CanRun, History;
  }

  // ---- After a failed send ----

  ghost predicate NoRestart(steps: seq<Step>) {
    forall i :: 0 <= i < |steps| ==> !steps[i].Restart?
  }

  /** An event of thread k at least as new as n has arrived since the inbox held m. */
  predicate HasPassed(inbox: seq<Event>, m: nat, k: Key, n: int) {
    exists i :: m <= i < |inbox| && inbox[i].key == k && inbox[i].sn >= n
  }

  /** A row that was due when its send failed, with what came since. */
  ghost predicate IsWaiting(me: NodeId, w: World, m: nat, e: Entry) {
    && m <= |w.inbox| && w.cursor.Targets(me, e) && e in w.due
    && (w.cursor.Fresh(e.key, e.sn) <==> !HasPassed(w.inbox, m, e.key, e.sn))
  }

  lemma PassedStep(inbox: seq<Event>, ev: Event, m: nat, k: Key, n: int)
    requires m <= |inbox|
    ensures HasPassed(inbox + [ev], m, k, n) <==> HasPassed(inbox, m, k, n) || (ev.key == k && ev.sn >= n)
  {
    assert (inbox + [ev])[|inbox|] == ev;
    assert forall i :: 0 <= i < |inbox| ==> (inbox + [ev])[i] == inbox[i];
  }

  lemma StepKeepsWaiting(me: NodeId, w: World, s: Step, m: nat, e: Entry)
    requires Enabled(w, s) && !s.Restart? && IsWaiting(me, w, m, e)
    ensures IsWaiting(me, Next(me, w, s), m, e)
  {
    hide HasPassed;
    match s
    case Push(ev, _, _) => PassedStep(w.inbox, ev, m, e.key, e.sn);
    case ScanNext(_, _) =>
      var row := w.tick.value.reply.messages[w.tick.value.next];
      PassedStep(w.inbox, Event(row.key, row.sn), m, e.key, e.sn);
    case _ =>
  }

  lemma {:induction false} RunKeepsWaiting(me: NodeId, w: World, steps: seq<Step>, m: nat, e: Entry)
    requires CanRun(me, w, steps) && NoRestart(steps) && IsWaiting(me, w, m, e)
    ensures IsWaiting(me, Run(me, w, steps), m, e)
    decreases |steps|
  {
    hide IsWaiting, Next, Enabled;
    if steps != [] {
      StepKeepsWaiting(me, w, steps[0], m, e);
      RunKeepsWaiting(me, Next(me, w, steps[0]), steps[1..], m, e);
    }
  }

  predicate IsNext(w: World, e: Entry) {
    && w.tick.Some? && w.tick.value.next < |w.tick.value.reply.messages|
    && w.tick.value.reply.messages[w.tick.value.next] == e
  }

  /** Until it is passed, each pull that reads the row has it on its page. */
  lemma WaitingRowIsOnThePage(me: NodeId, w: World, m: nat, e: Entry, p: nat, l: nat)
    requires Inv(w) && IsWaiting(me, w, m, e) && !HasPassed(w.inbox, m, e.key, e.sn)
    requires Enabled(w, BeginTick(p, l)) && e in w.ledger[..l]
    ensures e in ReplyAt(w, p, l).messages
  {
    CompleteReplyIsTheBacklog(w, p, l);
    AboveHolds(w.ledger[..l], w.cursor.watermark);
    assert e.sn > w.cursor.watermark;
  }

  lemma WaitingRowIsDelivered(me: NodeId, w: World, m: nat, e: Entry, persisted: bool)
    requires IsWaiting(me, w, m, e) && IsNext(w, e)
    ensures Next(me, w, ScanNext(true, persisted)).inbox
         == w.inbox + (if HasPassed(w.inbox, m, e.key, e.sn) then [] else [Event(e.key, e.sn)])
  {
    hide HasPassed;
  }

  lemma FailedRowWaits(me: NodeId, w: World, e: Entry, persisted: bool)
    requires IsNext(w, e) && w.cursor.Targets(me, e) && w.cursor.Fresh(e.key, e.sn)
    ensures IsWaiting(me, Next(me, w, ScanNext(false, persisted)), |w.inbox|, e)
  {
  }

  /** Main result: after the send of a due row has failed, and whatever comes until the
      row is scanned again, short of a restart, it is delivered if and only if no event
      of its thread at least as new has arrived since, by a pull or by a push. Until
      one does, every pull that reads the row has it on its page. */
  lemma FailedRowIsRedeliveredExactlyWhen(me: NodeId, w: World, e: Entry, persisted: bool, steps: seq<Step>,
                                          again: bool, p: nat, l: nat)
    requires Inv(w) && IsNext(w, e) && w.cursor.Targets(me, e) && w.cursor.Fresh(e.key, e.sn)
    requires NoRestart(steps) && CanRun(me, Next(me, w, ScanNext(false, persisted)), steps)
    ensures var end := Run(me, Next(me, w, ScanNext(false, persisted)), steps);
            var passed := HasPassed(end.inbox, |w.inbox|, e.key, e.sn);
            && (IsNext(end, e) ==>
                  Next(me, end, ScanNext(true, again)).inbox
                  == end.inbox + (if passed then [] else [Event(e.key, e.sn)]))
            && (!passed && Enabled(end, BeginTick(p, l)) && e in end.ledger[..l] ==>
                  e in ReplyAt(end, p, l).messages)
  {
    hide Inv, IsWaiting, HasPassed, ReplyAt, Next, Cursor.Targets, Cursor.Fresh;
    var w1 := Next(me, w, ScanNext(false, persisted));
    StepKeeps(me, w, ScanNext(false, persisted));
    FailedRowWaits(me, w, e, persisted);
    RunKeeps(me, w1, steps);
    RunKeepsWaiting(me, w1, steps, |w.inbox|, e);
    var end := Run(me, w1, steps);
    hide Run, CanRun;
    if IsNext(end, e) {
      WaitingRowIsDelivered(me, end, |w.inbox|, e, again);
    }
    if !HasPassed(end.inbox, |w.inbox|, e.key, e.sn) && Enabled(end, BeginTick(p, l)) && e in end.ledger[..l] {
      WaitingRowIsOnThePage(me, end, |w.inbox|, e, p, l);
    }
  }

  // ---- A push in between ----

  lemma {:induction false} Extend(me: NodeId, w: World, steps: seq<Step>, s: Step)
    requires CanRun(me, w, steps) && Enabled(Run(me, w, steps), s)
    ensures CanRun(me, w, steps + [s]) && Run(me, w, steps + [s]) == Next(me, Run(me, w, steps), s)
    decreases |steps|
  {
    hide Next, Enabled;
    if steps == [] {
      assert [s][1..] == [];
    } else {
      Extend(me, Next(me, w, steps[0]), steps[1..], s);
      assert (steps + [s])[1..] == steps[1..] + [s];
    }
  }

  /** The tick holds the cursor back as it should, but a newer post of the same thread
      is pushed before the next tick, which then enqueues neither row and lets the
      cursor pass both: the failed one never arrives. */
  lemma OvertakenByAPush(me: NodeId, a: Entry, b: Entry) returns (steps: seq<Step>)
    requires me != "master"
    requires a == Entry(1, "issue:7", "master", true) && b == Entry(2, "issue:7", "master", true)
    ensures CanRun(me, Start([a]), steps) && NoRestart(steps)
    ensures var end := Run(me, Start([a]), steps);
            && end.ledger == [a, b] && end.cursor.watermark == 2 && end.tick.None?
            && end.inbox == [Event("issue:7", 2)]
  {
    hide CanRun, Run;
    var w0 := Start([a]);
    var first := [BeginTick(1, 1), ScanNext(false, true), EndTick(true)];
    FirstTickFails(me, a);
    Extend(me, w0, first, Post(b));
    steps := first + [Post(b)];
    Extend(me, w0, steps, Push(Event("issue:7", 2), true, true));
    steps := steps + [Push(Event("issue:7", 2), true, true)];
    var w2 := Run(me, w0, steps);
    assert [a] + [b] == [a, b];
    BothRowsArePulled(me, w2, a, b);
    Extend(me, w0, steps, BeginTick(2, 2));
    steps := steps + [BeginTick(2, 2)];
    Extend(me, w0, steps, ScanNext(true, true));
    steps := steps + [ScanNext(true, true)];
    Extend(me, w0, steps, ScanNext(true, true));
    steps := steps + [ScanNext(true, true)];
    Extend(me, w0, steps, EndTick(true));
    steps := steps + [EndTick(true)];
  }

  lemma FirstTickFails(me: NodeId, a: Entry)
    requires me != "master" && a == Entry(1, "issue:7", "master", true)
    ensures var steps := [BeginTick(1, 1), ScanNext(false, true), EndTick(true)];
            && CanRun(me, Start([a]), steps)
            && var w := Run(me, Start([a]), steps);
               && w.ledger == [a] && w.cursor == Restore(None) && w.inbox == [] && w.tick.None?
  {
    hide CanRun, Run, ReplyAt, Complete;
    var w0 := Start([a]);
    OneRowIsPulled(a);
    NoSteps(me, w0);
    Extend(me, w0, [], BeginTick(1, 1));
    var s1: seq<Step> := [BeginTick(1, 1)];
    assert [] + s1 == s1;
    Extend(me, w0, s1, ScanNext(false, true));
    var s2 := s1 + [ScanNext(false, true)];
    Extend(me, w0, s2, EndTick(true));
    assert s2 + [EndTick(true)] == [BeginTick(1, 1), ScanNext(false, true), EndTick(true)];
  }

  lemma NoSteps(me: NodeId, w: World)
    ensures CanRun(me, w, []) && Run(me, w, []) == w
  {
  }

  lemma OneRowIsPulled(a: Entry)
    requires a.sn == 1
    ensures Enabled(Start([a]), BeginTick(1, 1)) && ReplyAt(Start([a]), 1, 1) == Reply([a], 1)
  {
    hide HandleSync, Above;
    assert Start([a]).ledger == [a] && [a][..1] == [a];
    PageOfOne(a);
  }

  lemma PageOfOne(a: Entry)
    requires a.sn == 1
    ensures HandleSync([a], [a], 0, Some(PULL_LIMIT)) == Reply([a], 1) && Above([a], 0) == [a]
  {
    AboveOfOne(a);
    hide Above;
  }

  lemma AboveOfOne(a: Entry)
    requires a.sn == 1
    ensures Above([a], 0) == [a]
  {
    assert [a][..0] == [];
    assert Above([a], 0) == Above([a][..0], 0) + [a];
  }

  lemma BothRowsArePulled(me: NodeId, w: World, a: Entry, b: Entry)
    requires w.ledger == [a, b] && w.cursor.watermark == 0 && w.tick.None? && 0 < a.sn < b.sn
    ensures Enabled(w, BeginTick(2, 2)) && ReplyAt(w, 2, 2) == Reply([a, b], b.sn)
  {
    assert [a, b][..2] == [a, b];
    AboveOfTwo(a, b, 0);
  }
}
