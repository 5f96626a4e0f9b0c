/** How a worker learns of board discussions: the master pushes wake events, and
    the worker also pulls `board.sync` pages so that nothing pushed while it was
    away is lost. Per-thread levels make both paths idempotent; a global
    watermark is the pull cursor. */
module WakeSync {
  import opened Wrappers

  type Key = string
  type NodeId = string

  /** A row of the master's ledger, with what this worker reads off its content. */
  datatype Entry = Entry(sn: int, key: Key, sender: NodeId, mentionsMe: bool)

  /** What reaches the agent loop's inbox. */
  datatype Event = Event(key: Key, sn: int)

  datatype Snapshot = Snapshot(threads: map<Key, int>, watermark: int)

  const PULL_LIMIT: nat := 500

  /** The worker's decision state. */
  datatype Cursor = Cursor(threads: map<Key, int>, participated: set<Key>, watermark: int) {
    function Level(k: Key): int {
      if k in threads then threads[k] else 0
    }

    predicate Fresh(k: Key, sn: int) {
      sn > Level(k)
    }

    function Commit(k: Key, sn: int): Cursor {
      Cursor(threads[k := if Fresh(k, sn) then sn else Level(k)], participated + {k}, watermark)
    }

    function AdvanceWatermark(sn: int): Cursor {
      this.(watermark := if sn > watermark then sn else watermark)
    }

    /** Someone else wrote it, and it names this worker or belongs to a thread
        the worker has taken part in. */
    predicate Targets(me: NodeId, e: Entry) {
      e.sender != me && (e.key in participated || e.mentionsMe)
    }

    function Snap(): Snapshot {
      Snapshot(threads, watermark)
    }
  }

  /** A missing or unreadable snapshot file starts an empty account. */
  function Restore(file: Option<Snapshot>): Cursor {
    match file
    case None => Cursor(map[], {}, 0)
    case Some(s) => Cursor(s.threads, s.threads.Keys, s.watermark)
  }

  // ---- One entry, one tick ----

  datatype Scan = Scan(cursor: Cursor, enqueued: seq<Event>, failed: Option<int>)

  function ScanStep(me: NodeId, s: Scan, e: Entry, up: bool): Scan {
    if !s.cursor.Targets(me, e) || !s.cursor.Fresh(e.key, e.sn) then s
    else if up then Scan(s.cursor.Commit(e.key, e.sn), s.enqueued + [Event(e.key, e.sn)], s.failed)
    else s.(failed := Some(if s.failed.Some? && s.failed.value <= e.sn then s.failed.value else e.sn))
  }

  /** up[i] says whether the inbox accepts a send when entry i is reached. */
  function ScanEntries(me: NodeId, c: Cursor, es: seq<Entry>, up: seq<bool>): Scan
    requires |up| == |es|
  {
    if es == [] then Scan(c, [], None)
    else
      var n := |es| - 1;
      ScanStep(me, ScanEntries(me, c, es[..n], up[..n]), es[n], up[n])
  }

  /** What the snapshot file holds once the entries are scanned: the account of the last
      commit whose write worked. */
  function ScanDisk(me: NodeId, c: Cursor, disk: Option<Snapshot>, es: seq<Entry>, up: seq<bool>,
                    persisted: seq<bool>): Option<Snapshot>
    requires |up| == |persisted| == |es|
  {
    if es == [] then disk
    else
      var n := |es| - 1;
      var after := ScanEntries(me, c, es, up).cursor;
      if persisted[n] && after != ScanEntries(me, c, es[..n], up[..n]).cursor then Some(after.Snap())
      else ScanDisk(me, c, disk, es[..n], up[..n], persisted[..n])
  }

  lemma NothingScanned(me: NodeId, c: Cursor, disk: Option<Snapshot>)
    ensures ScanEntries(me, c, [], []) == Scan(c, [], None) && ScanDisk(me, c, disk, [], [], []) == disk
  {
  }

  lemma ScanOneMore(me: NodeId, c: Cursor, disk: Option<Snapshot>, es: seq<Entry>, up: seq<bool>,
                    persisted: seq<bool>, i: nat)
    requires i < |es| == |up| <= |persisted|
    ensures var s := ScanEntries(me, c, es[..i], up[..i]);
            var s' := ScanStep(me, s, es[i], up[i]);
            && ScanEntries(me, c, es[..i + 1], up[..i + 1]) == s'
            && ScanDisk(me, c, disk, es[..i + 1], up[..i + 1], persisted[..i + 1])
               == if persisted[i] && s'.cursor != s.cursor then Some(s'.cursor.Snap())
                  else ScanDisk(me, c, disk, es[..i], up[..i], persisted[..i])
  {
    assert es[..i + 1][..i] == es[..i] && up[..i + 1][..i] == up[..i] && persisted[..i + 1][..i] == persisted[..i];
    hide ScanStep;
  }

  function SyncAdvanceTarget(failed: Option<int>, latest: int): int {
    match failed
    case Some(f) => if f - 1 < latest then f - 1 else latest
    case None => latest
  }

  datatype Reply = Reply(messages: seq<Entry>, latest: int)

  function Tick(me: NodeId, c: Cursor, r: Reply, up: seq<bool>): Scan
    requires |up| == |r.messages|
  {
    var s := ScanEntries(me, c, r.messages, up);
    s.(cursor := s.cursor.AdvanceWatermark(SyncAdvanceTarget(s.failed, r.latest)))
  }

  // ---- The worker, updated in place ----

  class DiscussionInbox {
    var events: seq<Event>

    method Send(e: Event, up: bool) returns (ok: bool)
      modifies this
      ensures ok == up
      ensures events == if up then old(events) + [e] else old(events)
    {
      if up { events := events + [e]; }
      ok := up;
    }
  }

  class WorkerWakeState {
    var threads: map<Key, int>
    var participated: set<Key>
    var watermark: int
    var disk: Option<Snapshot>

    ghost function Value(): Cursor
      reads this
    {
      Cursor(threads, participated, watermark)
    }

    constructor LoadOrCreate(file: Option<Snapshot>)
      ensures Value() == Restore(file) && disk == file
    {
      disk := file;
      match file {
        case None => threads, participated, watermark := map[], {}, 0;
        case Some(s) => threads, participated, watermark := s.threads, s.threads.Keys, s.watermark;
      }
    }

    method Peek(k: Key, sn: int) returns (isNew: bool)
      ensures isNew == Value().Fresh(k, sn)
    {
      isNew := sn > (if k in threads then threads[k] else 0);
    }

    /** `persisted` says whether writing the snapshot file worked this time. */
    method Commit(k: Key, sn: int, persisted: bool)
      modifies this
      ensures Value() == old(Value()).Commit(k, sn)
      ensures disk == if persisted then Some(Value().Snap()) else old(disk)
    {
      var cur := if k in threads then threads[k] else 0;
      threads := threads[k := if sn > cur then sn else cur];
      participated := participated + {k};
      Persist(persisted);
    }

    method AdvanceWatermark(sn: int, persisted: bool)
      modifies this
      ensures Value() == old(Value()).AdvanceWatermark(sn)
      ensures disk == if persisted then Some(Value().Snap()) else old(disk)
    {
      if sn > watermark { watermark := sn; }
      Persist(persisted);
    }

    method Persist(persisted: bool)
      modifies this`disk
      ensures disk == if persisted then Some(Value().Snap()) else old(disk)
    {
      if persisted { disk := Some(Snapshot(threads, watermark)); }
    }
  }

  datatype WakeReply = Invalid | Duplicate | Queued | Unavailable

  /** The pushed path: one entry, addressed to this worker by the master. */
  method HandleWakePost(state: WorkerWakeState, inbox: DiscussionInbox, body: Option<Event>,
                        up: bool, persisted: bool)
    returns (r: WakeReply)
    modifies state, inbox
    ensures r.Invalid? <==> body.None?
    ensures body.Some? ==>
      var e := body.value;
      var isNew := old(state.Value()).Fresh(e.key, e.sn);
      && r == (if !isNew then Duplicate else if up then Queued else Unavailable)
      && state.Value() == (if r.Queued? then old(state.Value()).Commit(e.key, e.sn) else old(state.Value()))
      && inbox.events == (if r.Queued? then old(inbox.events) + [e] else old(inbox.events))
      && state.disk == (if r.Queued? && persisted then Some(state.Value().Snap()) else old(state.disk))
    ensures body.None? ==>
      state.Value() == old(state.Value()) && inbox.events == old(inbox.events) && state.disk == old(state.disk)
  {
    match body {
      case None => r := Invalid;
      case Some(e) =>
        var isNew := state.Peek(e.key, e.sn);
        if !isNew { return Duplicate; }
        var ok := inbox.Send(e, up);
        if ok {
          state.Commit(e.key, e.sn, persisted);
          r := Queued;
        } else {
          r := Unavailable;
        }
    }
  }

  /** The pulled path: one reply of the master, scanned in order. */
  method WorkerSyncOnce(me: NodeId, state: WorkerWakeState, inbox: DiscussionInbox, reply: Reply,
                        up: seq<bool>, persisted: seq<bool>)
    returns (enqueued: nat)
    requires |up| == |reply.messages| && |persisted| == |reply.messages| + 1
    modifies state, inbox
    ensures var t := Tick(me, old(state.Value()), reply, up);
            && state.Value() == t.cursor
            && inbox.events == old(inbox.events) + t.enqueued
            && enqueued == |t.enqueued|
    ensures var n := |reply.messages|;
            state.disk == if persisted[n] then Some(state.Value().Snap())
                          else ScanDisk(me, old(state.Value()), old(state.disk), reply.messages, up, persisted[..n])
  {
    hide ScanEntries, ScanDisk;
    var entries := reply.messages;
    enqueued := 0;
    var firstUndelivered: Option<int> := None;
    ghost var c0, disk0, sent0 := state.Value(), state.disk, inbox.events;
    ghost var s := Scan(c0, [], None);
    assert entries[..0] == [] && up[..0] == [] && persisted[..0] == [];
    NothingScanned(me, c0, disk0);
    for i := 0 to |entries|
      invariant s == ScanEntries(me, c0, entries[..i], up[..i])
      invariant s == Scan(state.Value(), s.enqueued, firstUndelivered)
      invariant inbox.events == sent0 + s.enqueued && enqueued == |s.enqueued|
      invariant state.disk == ScanDisk(me, c0, disk0, entries[..i], up[..i], persisted[..i])
    {
      var e := entries[i];
      ScanOneMore(me, c0, disk0, entries, up, persisted, i);
      s := ScanStep(me, s, e, up[i]);
      if e.sender == me || (e.key !in state.participated && !e.mentionsMe) { continue; }
      var isNew := state.Peek(e.key, e.sn);
      if !isNew { continue; }
      var ok := inbox.Send(Event(e.key, e.sn), up[i]);
      if ok {
        state.Commit(e.key, e.sn, persisted[i]);
        enqueued := enqueued + 1;
      } else {
        firstUndelivered := Some(if firstUndelivered.Some? && firstUndelivered.value <= e.sn
                                 then firstUndelivered.value else e.sn);
      }
    }
    assert entries[..|entries|] == entries && up[..|entries|] == up;
    var target := if firstUndelivered.Some? && firstUndelivered.value - 1 < reply.latest
                  then firstUndelivered.value - 1 else reply.latest;
    state.AdvanceWatermark(target, persisted[|entries|]);
  }
}
