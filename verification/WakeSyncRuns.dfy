/** Every interleaving of wake pushes, pull ticks, new rows, failing sends,
    failing snapshot writes and worker restarts. Peek, send and commit of one
    event are one step; everything else may come in between. */
module WakeSyncRuns {
  import opened Wrappers
  import opened WakeSync
  import opened WakeSyncTicks

  /** A pull tick between the arrival of its reply and its last step. */
  datatype InFlight = InFlight(reply: Reply, next: nat, failed: Option<int>)

  /** `seen` and `due` are history: the rows some tick has scanned, and those of
      them that were for this worker when last scanned. */
  datatype World = World(ledger: seq<Entry>, cursor: Cursor, disk: Option<Snapshot>, inbox: seq<Event>,
                         tick: Option<InFlight>, seen: set<Entry>, due: set<Entry>)

  datatype Step =
    | Post(row: Entry)
    | Push(ev: Event, up: bool, persisted: bool)
    | BeginTick(pageAt: nat, latestAt: nat)
    | ScanNext(up: bool, persisted: bool)
    | EndTick(persisted: bool)
    | Restart

  function Start(ledger: seq<Entry>): World {
    World(ledger, Restore(None), None, [], None, {}, {})
  }

  /** The reply a tick gets when its page is read with pageAt rows written and
      its latest number with latestAt rows written. */
  function ReplyAt(w: World, pageAt: nat, latestAt: nat): Reply
    requires pageAt <= latestAt <= |w.ledger|
  {
    HandleSync(w.ledger[..pageAt], w.ledger[..latestAt], w.cursor.watermark, Some(PULL_LIMIT))
  }

  predicate Complete(w: World, pageAt: nat, latestAt: nat)
    requires pageAt <= latestAt <= |w.ledger|
  {
    |ReplyAt(w, pageAt, latestAt).messages| == |Above(w.ledger[..latestAt], w.cursor.watermark)|
  }

  predicate Enabled(w: World, s: Step) {
    match s
    case Post(row) => row.sn > Latest(w.ledger)
    case Push(_, _, _) => true
    case BeginTick(p, l) => w.tick.None? && p <= l <= |w.ledger| && Complete(w, p, l)
    case ScanNext(_, _) => w.tick.Some? && w.tick.value.next < |w.tick.value.reply.messages|
    case EndTick(_) => w.tick.Some? && w.tick.value.next == |w.tick.value.reply.messages|
    case Restart => true
  }

  function Saved(w: World, c: Cursor, persisted: bool): Option<Snapshot> {
    if persisted then Some(c.Snap()) else w.disk
  }

  function Next(me: NodeId, w: World, s: Step): World
    requires Enabled(w, s)
  {
    match s
    case Post(row) => w.(ledger := w.ledger + [row])
    case Push(ev, up, persisted) =>
      if !w.cursor.Fresh(ev.key, ev.sn) || !up then w
      else
        var c := w.cursor.Commit(ev.key, ev.sn);
        w.(cursor := c, inbox := w.inbox + [ev], disk := Saved(w, c, persisted))
    case BeginTick(p, l) => w.(tick := Some(InFlight(ReplyAt(w, p, l), 0, None)))
    case ScanNext(up, persisted) =>
      var t := w.tick.value;
      var e := t.reply.messages[t.next];
      var r := ScanStep(me, Scan(w.cursor, w.inbox, t.failed), e, up);
      w.(cursor := r.cursor, inbox := r.enqueued,
         disk := if r.cursor == w.cursor then w.disk else Saved(w, r.cursor, persisted),
         tick := Some(InFlight(t.reply, t.next + 1, r.failed)),
         seen := w.seen + {e},
         due := if w.cursor.Targets(me, e) then w.due + {e} else w.due - {e})
    case EndTick(persisted) =>
      var t := w.tick.value;
      var c := w.cursor.AdvanceWatermark(SyncAdvanceTarget(t.failed, t.reply.latest));
      w.(cursor := c, disk := Saved(w, c, persisted), tick := None)
    case Restart => w.(cursor := Restore(w.disk), tick := None)
  }

  ghost predicate CanRun(me: NodeId, w: World, steps: seq<Step>)
    decreases |steps|
  {
    steps == [] || (Enabled(w, steps[0]) && CanRun(me, Next(me, w, steps[0]), steps[1..]))
  }

  ghost function Run(me: NodeId, w: World, steps: seq<Step>): World
    requires CanRun(me, w, steps)
    decreases |steps|
  {
    if steps == [] then w else Run(me, Next(me, w, steps[0]), steps[1..])
  }

  // ---- A tick nobody interrupts ----

  function RestOfTick(up: seq<bool>, persisted: seq<bool>, k: nat): (steps: seq<Step>)
    requires k <= |up| && |persisted| == |up| + 1
    ensures steps != []
    decreases |up| - k
  {
    if k == |up| then [EndTick(persisted[k])]
    else [ScanNext(up[k], persisted[k])] + RestOfTick(up, persisted, k + 1)
  }

  /** The k first rows of the reply of w's tick are scanned, by a tick that began with
      cursor c0, snapshot file disk0 and inbox inbox0. */
  ghost predicate HasScanned(me: NodeId, c0: Cursor, disk0: Option<Snapshot>, inbox0: seq<Event>, w: World,
                             up: seq<bool>, persisted: seq<bool>, k: nat)
    requires k <= |up| <= |persisted|
  {
    && w.tick.Some? && w.tick.value.next == k && |w.tick.value.reply.messages| == |up|
    && var rows := w.tick.value.reply.messages[..k];
       var s := ScanEntries(me, c0, rows, up[..k]);
       && s == Scan(w.cursor, s.enqueued, w.tick.value.failed) && w.inbox == inbox0 + s.enqueued
       && w.disk == ScanDisk(me, c0, disk0, rows, up[..k], persisted[..k])
  }

  lemma ScansOne(me: NodeId, c0: Cursor, disk0: Option<Snapshot>, inbox0: seq<Event>, w: World, up: seq<bool>,
                 persisted: seq<bool>, k: nat)
    requires k < |up| < |persisted| && HasScanned(me, c0, disk0, inbox0, w, up, persisted, k)
    ensures Enabled(w, ScanNext(up[k], persisted[k]))
    ensures HasScanned(me, c0, disk0, inbox0, Next(me, w, ScanNext(up[k], persisted[k])), up, persisted, k + 1)
  {
    var rows := w.tick.value.reply.messages;
    assert rows[..k + 1][..k] == rows[..k] && up[..k + 1][..k] == up[..k] && persisted[..k + 1][..k] == persisted[..k];
  }

  /** What one call of the pull method leaves on disk. */
  function TickDisk(me: NodeId, c: Cursor, disk: Option<Snapshot>, r: Reply, up: seq<bool>, persisted: seq<bool>)
    : Option<Snapshot>
    requires |up| == |r.messages| && |persisted| == |up| + 1
  {
    if persisted[|up|] then Some(Tick(me, c, r, up).cursor.Snap())
    else ScanDisk(me, c, disk, r.messages, up, persisted[..|up|])
  }

  lemma {:induction false} RestOfTickIsTick(me: NodeId, c0: Cursor, disk0: Option<Snapshot>, inbox0: seq<Event>,
                                            w: World, up: seq<bool>, persisted: seq<bool>, k: nat)
    requires k <= |up| && |persisted| == |up| + 1 && HasScanned(me, c0, disk0, inbox0, w, up, persisted, k)
    ensures CanRun(me, w, RestOfTick(up, persisted, k))
    ensures var v, r := Run(me, w, RestOfTick(up, persisted, k)), w.tick.value.reply;
            var t := Tick(me, c0, r, up);
            && v.cursor == t.cursor && v.inbox == inbox0 + t.enqueued && v.tick.None?
            && v.disk == TickDisk(me, c0, disk0, r, up, persisted)
    decreases |up| - k
  {
    var rows := w.tick.value.reply.messages;
    if k == |up| {
      assert rows[..k] == rows && up[..k] == up;
      assert RestOfTick(up, persisted, k)[1..] == [];
    } else {
      ScansOne(me, c0, disk0, inbox0, w, up, persisted, k);
      assert RestOfTick(up, persisted, k)[1..] == RestOfTick(up, persisted, k + 1);
      RestOfTickIsTick(me, c0, disk0, inbox0, Next(me, w, ScanNext(up[k], persisted[k])), up, persisted, k + 1);
    }
  }

  function TickSteps(p: nat, l: nat, up: seq<bool>, persisted: seq<bool>): seq<Step>
    requires |persisted| == |up| + 1
  {
    [BeginTick(p, l)] + RestOfTick(up, persisted, 0)
  }

  /** Scanning step by step without interruption is one tick, snapshot file included. */
  lemma UninterruptedTickIsTick(me: NodeId, w: World, p: nat, l: nat, up: seq<bool>, persisted: seq<bool>)
    requires Enabled(w, BeginTick(p, l)) && |ReplyAt(w, p, l).messages| == |up| && |persisted| == |up| + 1
    ensures var steps := TickSteps(p, l, up, persisted);
            && CanRun(me, w, steps)
            && var t := Tick(me, w.cursor, ReplyAt(w, p, l), up);
               && Run(me, w, steps).cursor == t.cursor && Run(me, w, steps).inbox == w.inbox + t.enqueued
               && Run(me, w, steps).disk == TickDisk(me, w.cursor, w.disk, ReplyAt(w, p, l), up, persisted)
  {
    assert TickSteps(p, l, up, persisted)[1..] == RestOfTick(up, persisted, 0);
    RestOfTickIsTick(me, w.cursor, w.disk, w.inbox, Next(me, w, BeginTick(p, l)), up, persisted, 0);
  }

  // ---- The objects move as the steps do ----

  /** The worker's account, its snapshot file and the inbox stand as in w. */
  ghost predicate Stands(w: World, state: WorkerWakeState, inbox: DiscussionInbox)
    reads state, inbox
  {
    state.Value() == w.cursor && state.disk == w.disk && inbox.events == w.inbox
  }

  /** One pushed event is one Push. */
  method ServePush(me: NodeId, ghost w: World, state: WorkerWakeState, inbox: DiscussionInbox, ev: Event, up: bool,
                   persisted: bool)
    returns (r: WakeReply)
    requires Stands(w, state, inbox)
    modifies state, inbox
    ensures Stands(Next(me, w, Push(ev, up, persisted)), state, inbox)
  {
    r := HandleWakePost(state, inbox, Some(ev), up, persisted);
  }

  /** One call of the pull method is a tick that nobody interrupts. */
  method ServePull(me: NodeId, ghost w: World, state: WorkerWakeState, inbox: DiscussionInbox, ghost p: nat,
                   ghost l: nat, reply: Reply, up: seq<bool>, persisted: seq<bool>)
    returns (enqueued: nat)
    requires Stands(w, state, inbox) && Enabled(w, BeginTick(p, l)) && reply == ReplyAt(w, p, l)
    requires |reply.messages| == |up| && |persisted| == |up| + 1
    modifies state, inbox
    ensures CanRun(me, w, TickSteps(p, l, up, persisted))
    ensures Stands(Run(me, w, TickSteps(p, l, up, persisted)), state, inbox)
  {
    UninterruptedTickIsTick(me, w, p, l, up, persisted);
    hide CanRun, Run, TickSteps, Next;
    enqueued := WorkerSyncOnce(me, state, inbox, reply, up, persisted);
  }

  /** And loading the snapshot file again is a Restart. */
  method Reload(me: NodeId, ghost w: World, before: WorkerWakeState, inbox: DiscussionInbox)
    returns (state: WorkerWakeState)
    requires Stands(w, before, inbox)
    ensures fresh(state) && Stands(Next(me, w, Restart), state, inbox)
  {
    state := new WorkerWakeState.LoadOrCreate(before.disk);
  }

  // ---- What every step keeps ----

  /** The cursor has only run past rows that were scanned, and every such row
      that was due is settled: its thread's level has reached it. */
  ghost predicate Honest(w: World, c: Cursor) {
    && c.participated == c.threads.Keys
    && 0 <= c.watermark <= Latest(w.ledger)
    && (forall e :: e in w.ledger && e.sn <= c.watermark ==> e in w.seen)
    && (forall e :: e in w.due && e.sn <= c.watermark ==> c.Level(e.key) >= e.sn)
  }

  /** Every level was reached by an event that did arrive in the inbox. */
  ghost predicate LevelsArrived(w: World, c: Cursor) {
    forall k :: k in c.threads ==> Event(k, c.threads[k]) in w.inbox
  }

  ghost predicate ReplyInOrder(ledger: seq<Entry>, watermark: int, r: Reply) {
    && Ascending(r.messages) && r.latest <= Latest(ledger)
    && (forall e :: e in r.messages ==> e in ledger && e.sn > watermark)
    && (forall e :: e in ledger && watermark < e.sn <= r.latest ==> e in r.messages)
  }

  ghost predicate TickInOrder(w: World, t: InFlight) {
    && t.next <= |t.reply.messages| && ReplyInOrder(w.ledger, w.cursor.watermark, t.reply)
    && forall j :: 0 <= j < t.next ==>
         t.reply.messages[j] in w.seen && Settled(w, t.reply.messages[j], t.failed)
  }

  /** A scanned row that was due has been delivered or overtaken, or its failure
      holds the cursor back. */
  ghost predicate Settled(w: World, e: Entry, failed: Option<int>) {
    e in w.due ==> w.cursor.Level(e.key) >= e.sn || (failed.Some? && failed.value <= e.sn)
  }

  ghost predicate Inv(w: World) {
    && ValidLedger(w.ledger)
    && w.due <= w.seen && (forall e :: e in w.seen ==> e in w.ledger)
    && Honest(w, w.cursor) && LevelsArrived(w, w.cursor)
    && Honest(w, Restore(w.disk)) && LevelsArrived(w, Restore(w.disk))
    && Restore(w.disk).watermark <= w.cursor.watermark
    && (w.tick.Some? ==> TickInOrder(w, w.tick.value))
  }

  lemma StartInv(ledger: seq<Entry>)
    requires ValidLedger(ledger)
    ensures Inv(Start(ledger))
  {
    LatestBounds(ledger);
  }

  lemma PostKeepsHonest(w: World, row: Entry, c: Cursor)
    requires ValidLedger(w.ledger) && row.sn > Latest(w.ledger) && Honest(w, c) && LevelsArrived(w, c)
    ensures var v := w.(ledger := w.ledger + [row]);
            ValidLedger(v.ledger) && Honest(v, c) && LevelsArrived(v, c)
  {
    LatestBounds(w.ledger);
    assert Latest(w.ledger + [row]) == row.sn;
  }

  lemma PostKeeps(me: NodeId, w: World, row: Entry)
    requires Inv(w) && Enabled(w, Post(row))
    ensures Inv(Next(me, w, Post(row)))
  {
    PostKeepsHonest(w, row, w.cursor);
    PostKeepsHonest(w, row, Restore(w.disk));
    var v := Next(me, w, Post(row));
    if w.tick.Some? {
      var t := w.tick.value;
      assert forall j :: 0 <= j < t.next ==> Settled(w, t.reply.messages[j], t.failed);
      assert ReplyInOrder(v.ledger, v.cursor.watermark, t.reply);
    }
  }

  lemma PushKeeps(me: NodeId, w: World, ev: Event, up: bool, persisted: bool)
    requires Inv(w) && Enabled(w, Push(ev, up, persisted))
    ensures Inv(Next(me, w, Push(ev, up, persisted)))
  {
  }

  lemma CompleteReplyIsTheBacklog(w: World, p: nat, l: nat)
    requires ValidLedger(w.ledger) && p <= l <= |w.ledger| && Complete(w, p, l)
    ensures var r := ReplyAt(w, p, l);
            && r.messages == Above(w.ledger[..l], w.cursor.watermark)
            && ReplyInOrder(w.ledger, w.cursor.watermark, r)
  {
    hide Above;
    AboveGrows(w.ledger[..p], w.ledger[..l], w.cursor.watermark);
    AboveHolds(w.ledger[..l], w.cursor.watermark);
    LatestGrows(w.ledger[..l], w.ledger);
    OlderRowsAreBefore(w.ledger, l);
    hide Latest, Ascending;
  }

  lemma OlderRowsAreBefore(ledger: seq<Entry>, l: nat)
    requires ValidLedger(ledger) && l <= |ledger|
    ensures forall e :: e in ledger[..l] ==> e in ledger
    ensures forall e :: e in ledger && e.sn <= Latest(ledger[..l]) ==> e in ledger[..l]
  {
    forall e | e in ledger && e.sn <= Latest(ledger[..l]) ensures e in ledger[..l] {
      var i :| 0 <= i < |ledger| && ledger[i] == e;
      assert i < l;
      assert ledger[..l][i] == e;
    }
  }

  lemma BeginKeeps(me: NodeId, w: World, p: nat, l: nat)
    requires Inv(w) && Enabled(w, BeginTick(p, l))
    ensures Inv(Next(me, w, BeginTick(p, l)))
  {
    CompleteReplyIsTheBacklog(w, p, l);
  }

  lemma ScanKeepsCursor(me: NodeId, w: World, up: bool, persisted: bool)
    requires Inv(w) && Enabled(w, ScanNext(up, persisted))
    ensures var v := Next(me, w, ScanNext(up, persisted));
            && v.ledger == w.ledger && v.cursor.watermark == w.cursor.watermark
            && (forall k :: v.cursor.Level(k) >= w.cursor.Level(k))
            && Honest(v, v.cursor) && LevelsArrived(v, v.cursor)
  {
  }

  lemma ScanKeepsDisk(me: NodeId, w: World, up: bool, persisted: bool)
    requires Inv(w) && Enabled(w, ScanNext(up, persisted))
    ensures var v := Next(me, w, ScanNext(up, persisted));
            && Honest(v, Restore(v.disk)) && LevelsArrived(v, Restore(v.disk))
            && Restore(v.disk).watermark <= v.cursor.watermark
  {
    ScanKeepsCursor(me, w, up, persisted);
    var v := Next(me, w, ScanNext(up, persisted));
    if v.disk == w.disk {
      assert Honest(w, Restore(w.disk));
    } else {
      assert Restore(v.disk) == v.cursor;
    }
  }

  lemma ScanSettles(me: NodeId, w: World, up: bool, persisted: bool, e: Entry)
    requires Enabled(w, ScanNext(up, persisted))
    requires var row := w.tick.value.reply.messages[w.tick.value.next];
             e == row || (e.sn < row.sn && Settled(w, e, w.tick.value.failed))
    ensures var v := Next(me, w, ScanNext(up, persisted));
            Settled(v, e, v.tick.value.failed)
  {
  }

  lemma ScanKeepsTick(me: NodeId, w: World, up: bool, persisted: bool)
    requires Inv(w) && Enabled(w, ScanNext(up, persisted))
    ensures var v := Next(me, w, ScanNext(up, persisted));
            v.tick.Some? && TickInOrder(v, v.tick.value)
  {
    ScanKeepsCursor(me, w, up, persisted);
    var v := Next(me, w, ScanNext(up, persisted));
    var rows, n := w.tick.value.reply.messages, w.tick.value.next;
    assert ReplyInOrder(v.ledger, v.cursor.watermark, v.tick.value.reply);
    forall j | 0 <= j <= n ensures rows[j] in v.seen && Settled(v, rows[j], v.tick.value.failed) {
      if j < n {
        assert Settled(w, rows[j], w.tick.value.failed);
      }
      ScanSettles(me, w, up, persisted, rows[j]);
    }
  }

  lemma ScanKeeps(me: NodeId, w: World, up: bool, persisted: bool)
    requires Inv(w) && Enabled(w, ScanNext(up, persisted))
    ensures Inv(Next(me, w, ScanNext(up, persisted)))
  {
    ScanKeepsCursor(me, w, up, persisted);
    ScanKeepsDisk(me, w, up, persisted);
    ScanKeepsTick(me, w, up, persisted);
  }

  lemma EndKeeps(me: NodeId, w: World, persisted: bool)
    requires Inv(w) && Enabled(w, EndTick(persisted))
    ensures Inv(Next(me, w, EndTick(persisted)))
  {
  }

  lemma RestartKeeps(me: NodeId, w: World)
    requires Inv(w)
    ensures Inv(Next(me, w, Restart))
  {
  }

  lemma StepKeeps(me: NodeId, w: World, s: Step)
    requires Inv(w) && Enabled(w, s)
    ensures Inv(Next(me, w, s))
  {
    match s
    case Post(row) => PostKeeps(me, w, row);
    case Push(ev, up, persisted) => PushKeeps(me, w, ev, up, persisted);
    case BeginTick(p, l) => BeginKeeps(me, w, p, l);
    case ScanNext(up, persisted) => ScanKeeps(me, w, up, persisted);
    case EndTick(persisted) => EndKeeps(me, w, persisted);
    case Restart => RestartKeeps(me, w);
  }

  lemma {:induction false} RunKeeps(me: NodeId, w: World, steps: seq<Step>)
    requires Inv(w) && CanRun(me, w, steps)
    ensures Inv(Run(me, w, steps))
    decreases |steps|
  {
    if steps != [] {
      StepKeeps(me, w, steps[0]);
      RunKeeps(me, Next(me, w, steps[0]), steps[1..]);
    }
  }

  /** Main result: at every moment of every run, each row at or below the cursor
      has been scanned, and if it was for this worker then an event of its thread
      at least as new as it has arrived in the inbox. No send or snapshot failure
      and no restart, even from a stale snapshot, makes the cursor lie. */
  lemma CursorNeverPassesAnUndeliveredRow(me: NodeId, ledger: seq<Entry>, steps: seq<Step>, e: Entry)
    requires ValidLedger(ledger) && CanRun(me, Start(ledger), steps)
    requires var w := Run(me, Start(ledger), steps);
             e in w.ledger && e.sn <= w.cursor.watermark
    ensures var w := Run(me, Start(ledger), steps);
            && e in w.seen
            && (e in w.due ==> exists ev :: ev in w.inbox && ev.key == e.key && ev.sn >= e.sn)
  {
    StartInv(ledger);
    RunKeeps(me, Start(ledger), steps);
    var w := Run(me, Start(ledger), steps);
    if e in w.due {
      LatestBounds(w.ledger);
      assert w.cursor.Level(e.key) >= e.sn > 0;
      assert Event(e.key, w.cursor.threads[e.key]) in w.inbox;
    }
  }

  // ---- Idempotence ----

  ghost predicate InboxInOrder(inbox: seq<Event>) {
    forall i, j :: 0 <= i < j < |inbox| && inbox[i].key == inbox[j].key ==> inbox[i].sn < inbox[j].sn
  }

  ghost predicate OnceEach(w: World) {
    && InboxInOrder(w.inbox)
    && forall i :: 0 <= i < |w.inbox| ==> w.inbox[i].sn <= w.cursor.Level(w.inbox[i].key)
  }

  /** The threads taken part in are exactly the threads with a level, so a
      current snapshot restores the whole decision state. */
  lemma CurrentSnapshotRestoresExactly(w: World)
    requires Inv(w)
    ensures w.disk == Some(w.cursor.Snap()) ==> Restore(w.disk) == w.cursor
  {
  }

  /** The levels on disk cover every event that has arrived. */
  ghost predicate DiskCovers(w: World) {
    forall i :: 0 <= i < |w.inbox| ==> w.inbox[i].sn <= Restore(w.disk).Level(w.inbox[i].key)
  }

  ghost predicate RestartsAreCovered(me: NodeId, w: World, steps: seq<Step>)
    requires CanRun(me, w, steps)
    decreases |steps|
  {
    steps == [] ||
    ((steps[0].Restart? ==> DiskCovers(w)) && RestartsAreCovered(me, Next(me, w, steps[0]), steps[1..]))
  }

  lemma InboxGrows(w: World, ev: Event)
    requires OnceEach(w) && w.cursor.Fresh(ev.key, ev.sn)
    ensures InboxInOrder(w.inbox + [ev])
  {
  }

  lemma StepKeepsOnceEach(me: NodeId, w: World, s: Step)
    requires Enabled(w, s) && OnceEach(w) && (s.Restart? ==> DiskCovers(w))
    ensures OnceEach(Next(me, w, s))
  {
    match s
    case Push(ev, up, _) =>
      if w.cursor.Fresh(ev.key, ev.sn) {
        InboxGrows(w, ev);
      }
    case ScanNext(up, _) =>
      var e := w.tick.value.reply.messages[w.tick.value.next];
      if w.cursor.Fresh(e.key, e.sn) {
        InboxGrows(w, Event(e.key, e.sn));
      }
    case _ =>
  }

  /** Main result: over any mix of pushes, re-sends, pulls and covered restarts, each
      thread's events arrive once and in strictly increasing order. */
  lemma {:induction false} EachThreadArrivesInOrder(me: NodeId, w: World, steps: seq<Step>)
    requires OnceEach(w) && CanRun(me, w, steps) && RestartsAreCovered(me, w, steps)
    ensures OnceEach(Run(me, w, steps))
    decreases |steps|
  {
    hide OnceEach, DiskCovers, Next, Enabled;
    if steps != [] {
      StepKeepsOnceEach(me, w, steps[0]);
      EachThreadArrivesInOrder(me, Next(me, w, steps[0]), steps[1..]);
    }
  }

  /** And no less will do: a restart lets some push break the order if and only if an
      event has arrived that the levels on disk do not cover. */
  lemma RestartReplaysExactlyWhen(me: NodeId, w: World)
    requires InboxInOrder(w.inbox)
    ensures !DiskCovers(w) <==>
              exists ev :: !InboxInOrder(Next(me, Next(me, w, Restart), Push(ev, true, true)).inbox)
  {
    var v := Next(me, w, Restart);
    if DiskCovers(w) {
      forall ev ensures InboxInOrder(Next(me, v, Push(ev, true, true)).inbox) {
        assert OnceEach(v);
        StepKeepsOnceEach(me, v, Push(ev, true, true));
      }
    } else {
      var i :| 0 <= i < |w.inbox| && w.inbox[i].sn > Restore(w.disk).Level(w.inbox[i].key);
      var ev := w.inbox[i];
      var after := Next(me, v, Push(ev, true, true)).inbox;
      assert after == w.inbox + [ev] && after[i].key == after[|w.inbox|].key;
    }
  }

  /** Without that proviso the promise fails: a push is enqueued, its snapshot
      write fails, the worker restarts, and the re-sent push is enqueued again. */
  lemma StaleRestartReplays(me: NodeId, ev: Event)
    requires ev.sn > 0
    ensures var steps := [Push(ev, true, false), Restart, Push(ev, true, true)];
            CanRun(me, Start([]), steps) && Run(me, Start([]), steps).inbox == [ev, ev]
  {
    var steps := [Push(ev, true, false), Restart, Push(ev, true, true)];
    var w1 := Next(me, Start([]), steps[0]);
    var w2 := Next(me, w1, steps[1]);
    assert steps[1..][0] == Restart && steps[1..][1..][0] == Push(ev, true, true);
    assert steps[1..][1..][1..] == [];
    assert CanRun(me, w2, steps[1..][1..]);
    assert CanRun(me, w1, steps[1..]);
    var w3 := Next(me, w2, Push(ev, true, true));
    assert w3.inbox == [ev, ev];
    assert Run(me, w2, steps[1..][1..]) == Run(me, w3, steps[1..][1..][1..]) == w3;
    assert Run(me, w1, steps[1..]) == Run(me, w2, steps[1..][1..]);
  }
}
