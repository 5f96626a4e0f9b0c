/** What whole pull ticks achieve: who is woken, what a failed send costs, and
    when the cursor runs past entries nobody saw. */
module WakeSyncTicks {
  import opened Wrappers
  import opened WakeSync

  // ---- The master's side ----

  predicate Ascending(es: seq<Entry>) {
    forall i, j :: 0 <= i < j < |es| ==> es[i].sn < es[j].sn
  }

  /** Ledger rows are numbered from 1 upwards in the order they are written. */
  predicate ValidLedger(ledger: seq<Entry>) {
    Ascending(ledger) && forall i :: 0 <= i < |ledger| ==> ledger[i].sn > 0
  }

  function Above(ledger: seq<Entry>, since: int): seq<Entry> {
    if ledger == [] then []
    else
      var n := |ledger| - 1;
      Above(ledger[..n], since) + (if ledger[n].sn > since then [ledger[n]] else [])
  }

  function Latest(ledger: seq<Entry>): int {
    if ledger == [] then 0 else ledger[|ledger| - 1].sn
  }

  function ClampLimit(limit: Option<nat>): nat {
    match limit
    case None => 500
    case Some(n) => if n < 1 then 1 else if n > 2000 then 2000 else n
  }

  function Page(ledger: seq<Entry>, since: int, limit: nat): seq<Entry> {
    var rows := Above(ledger, since);
    if |rows| <= limit then rows else rows[..limit]
  }

  /** The page and the latest number are read one after the other; rows may be
      written in between, so the second ledger extends the first. */
  function HandleSync(atPage: seq<Entry>, atLatest: seq<Entry>, since: int, limit: Option<nat>): Reply {
    Reply(Page(atPage, since, ClampLimit(limit)), Latest(atLatest))
  }

  lemma {:induction false} AboveHolds(ledger: seq<Entry>, since: int)
    requires Ascending(ledger)
    ensures Ascending(Above(ledger, since))
    ensures forall e :: e in Above(ledger, since) <==> e in ledger && e.sn > since
  {
    if ledger != [] {
      var n := |ledger| - 1;
      AboveHolds(ledger[..n], since);
      assert ledger == ledger[..n] + [ledger[n]];
      var rows := Above(ledger[..n], since);
      forall i | 0 <= i < |rows| ensures rows[i].sn < ledger[n].sn {
        assert rows[i] in rows;
      }
    }
  }

  // ---- Who is woken ----

  /** A fresh entry from someone else that names this worker. */
  predicate Names(me: NodeId, c: Cursor, e: Entry) {
    e.sender != me && e.mentionsMe && c.Fresh(e.key, e.sn)
  }

  function NamedThreads(me: NodeId, c: Cursor, es: seq<Entry>): set<Key> {
    set j | 0 <= j < |es| && Names(me, c, es[j]) :: es[j].key
  }

  /** Entry i is for this worker: fresh, from someone else, and in a thread the
      worker is in, or is named in by a fresh entry of this page up to i. */
  predicate Wakes(me: NodeId, c: Cursor, es: seq<Entry>, i: nat)
    requires i < |es|
  {
    && es[i].sender != me && c.Fresh(es[i].key, es[i].sn)
    && es[i].key in c.participated + NamedThreads(me, c, es[..i + 1])
  }

  function Woken(me: NodeId, c: Cursor, es: seq<Entry>): seq<Event> {
    if es == [] then []
    else
      var n := |es| - 1;
      Woken(me, c, es[..n]) + (if Wakes(me, c, es, n) then [Event(es[n].key, es[n].sn)] else [])
  }

  predicate AllUp(up: seq<bool>) {
    forall i :: 0 <= i < |up| ==> up[i]
  }

  predicate AllDown(up: seq<bool>) {
    forall i :: 0 <= i < |up| ==> !up[i]
  }

  /** Scanning moved levels only up to sn, so entries above sn are as fresh as
      they were. */
  ghost predicate LevelsMovedBelow(c: Cursor, d: Cursor, sn: int) {
    forall k :: d.Level(k) == c.Level(k) || c.Level(k) < d.Level(k) < sn
  }

  lemma NamedThreadsStep(me: NodeId, c: Cursor, es: seq<Entry>)
    requires es != []
    ensures var n := |es| - 1;
            NamedThreads(me, c, es)
            == NamedThreads(me, c, es[..n]) + (if Names(me, c, es[n]) then {es[n].key} else {})
  {
    var n := |es| - 1;
    var rest := NamedThreads(me, c, es[..n]);
    forall k | k in rest ensures k in NamedThreads(me, c, es) {
      var j :| 0 <= j < n && Names(me, c, es[..n][j]) && es[..n][j].key == k;
      assert Names(me, c, es[j]) && es[j].key == k;
    }
    forall k | k in NamedThreads(me, c, es)
      ensures k in rest || (Names(me, c, es[n]) && k == es[n].key)
    {
      var j :| 0 <= j < |es| && Names(me, c, es[j]) && es[j].key == k;
      if j < n {
        assert es[..n][j] == es[j];
      }
    }
  }

  /** Main result: with a working inbox a tick enqueues exactly the entries that
      are for this worker, each once and in order, although each delivery may
      pull further entries of its thread in. */
  lemma {:induction false} WorkingInboxWakesExactly(me: NodeId, c: Cursor, es: seq<Entry>, up: seq<bool>)
    requires |up| == |es| && AllUp(up) && Ascending(es)
    ensures var s := ScanEntries(me, c, es, up);
            && s.failed == None
            && s.enqueued == Woken(me, c, es)
            && s.cursor.participated == c.participated + NamedThreads(me, c, es)
            && s.cursor.watermark == c.watermark
            && forall sn :: (forall i :: 0 <= i < |es| ==> es[i].sn < sn) ==> LevelsMovedBelow(c, s.cursor, sn)
  {
    if es != [] {
      var n := |es| - 1;
      WorkingInboxWakesExactly(me, c, es[..n], up[..n]);
      var s := ScanEntries(me, c, es[..n], up[..n]);
      assert LevelsMovedBelow(c, s.cursor, es[n].sn);
      assert s.cursor.Fresh(es[n].key, es[n].sn) <==> c.Fresh(es[n].key, es[n].sn);
      assert es[..n + 1] == es;
      NamedThreadsStep(me, c, es);
    }
  }

  // ---- Catching up after an outage ----

  function Between(ledger: seq<Entry>, lo: int, hi: int): seq<Entry> {
    if ledger == [] then []
    else
      var n := |ledger| - 1;
      Between(ledger[..n], lo, hi) + (if lo < ledger[n].sn <= hi then [ledger[n]] else [])
  }

  lemma {:induction false} BetweenHolds(ledger: seq<Entry>, lo: int, hi: int)
    ensures forall e :: e in Between(ledger, lo, hi) ==> e in ledger && lo < e.sn <= hi
  {
    if ledger != [] {
      BetweenHolds(ledger[..|ledger| - 1], lo, hi);
    }
  }

  lemma {:induction false} AboveSplits(ledger: seq<Entry>, lo: int, hi: int)
    requires Ascending(ledger) && lo <= hi
    ensures Above(ledger, lo) == Between(ledger, lo, hi) + Above(ledger, hi)
  {
    if ledger != [] {
      var n := |ledger| - 1;
      var rest, row := ledger[..n], [ledger[n]];
      AboveSplits(rest, lo, hi);
      if ledger[n].sn <= hi {
        NothingAbove(rest, hi);
        assert Between(rest, lo, hi) + [] == Between(rest, lo, hi);
        assert Between(ledger, lo, hi) + [] == Between(ledger, lo, hi);
      } else {
        assert (Between(rest, lo, hi) + Above(rest, hi)) + row == Between(rest, lo, hi) + (Above(rest, hi) + row);
        assert Between(rest, lo, hi) + [] == Between(rest, lo, hi);
      }
    }
  }

  lemma {:induction false} NothingAbove(ledger: seq<Entry>, since: int)
    requires forall i :: 0 <= i < |ledger| ==> ledger[i].sn <= since
    ensures Above(ledger, since) == []
  {
    if ledger != [] {
      NothingAbove(ledger[..|ledger| - 1], since);
    }
  }

  predicate Quiet(me: NodeId, c: Cursor, es: seq<Entry>) {
    forall i :: 0 <= i < |es| ==> !(c.Targets(me, es[i]) && c.Fresh(es[i].key, es[i].sn))
  }

  predicate IsFirstDue(me: NodeId, c: Cursor, es: seq<Entry>, i: int) {
    && 0 <= i < |es| && c.Targets(me, es[i]) && c.Fresh(es[i].key, es[i].sn)
    && Quiet(me, c, es[..i])
  }

  /** Entries that are for nobody here neither wake nor pull in later ones. */
  lemma {:induction false} QuietPrefixWakesNobody(me: NodeId, c: Cursor, quiet: seq<Entry>, es: seq<Entry>)
    requires Quiet(me, c, quiet)
    ensures Woken(me, c, quiet + es) == Woken(me, c, es)
    ensures NamedThreads(me, c, quiet + es) == NamedThreads(me, c, es)
  {
    if es != [] {
      var n := |es| - 1;
      QuietPrefixWakesNobody(me, c, quiet, es[..n]);
      assert (quiet + es)[..|quiet| + n] == quiet + es[..n];
      NamedThreadsStep(me, c, es);
      NamedThreadsStep(me, c, quiet + es);
      assert (quiet + es)[..|quiet| + n + 1] == quiet + es && es[..n + 1] == es;
    } else if quiet != [] {
      var m := |quiet| - 1;
      QuietPrefixWakesNobody(me, c, quiet[..m], []);
      assert quiet + [] == quiet && quiet[..m] + [] == quiet[..m];
      NamedThreadsStep(me, c, quiet);
      assert quiet[..m + 1] == quiet;
    } else {
      assert quiet + es == es;
    }
  }

  /** With the inbox down nothing is enqueued or recorded, and the failure
      reported is the earliest entry that was for this worker. */
  lemma {:induction false} DeadInboxKeepsEverything(me: NodeId, c: Cursor, es: seq<Entry>, up: seq<bool>)
    requires |up| == |es| && AllDown(up) && Ascending(es)
    ensures var s := ScanEntries(me, c, es, up);
            && s.cursor == c && s.enqueued == []
            && (s.failed == None ==> Quiet(me, c, es))
            && (s.failed.Some? ==> exists i :: IsFirstDue(me, c, es, i) && es[i].sn == s.failed.value)
  {
    if es != [] {
      var n := |es| - 1;
      DeadInboxKeepsEverything(me, c, es[..n], up[..n]);
      var s := ScanEntries(me, c, es[..n], up[..n]);
      if s.failed.Some? {
        var i :| IsFirstDue(me, c, es[..n], i) && es[..n][i].sn == s.failed.value;
        assert es[..n][..i] == es[..i];
        assert IsFirstDue(me, c, es, i) && es[i].sn == s.failed.value;
      } else if c.Targets(me, es[n]) && c.Fresh(es[n].key, es[n].sn) {
        assert IsFirstDue(me, c, es, n);
      }
    }
  }

  predicate FitsOnePage(ledger: seq<Entry>, since: int) {
    |Above(ledger, since)| <= ClampLimit(Some(PULL_LIMIT))
  }

  function PullReply(ledger: seq<Entry>, since: int): Reply {
    HandleSync(ledger, ledger, since, Some(PULL_LIMIT))
  }

  /** Main result: if every send of one tick fails, every send of the next succeeds
      and nothing is pushed in between, the second tick wakes the worker for exactly
      what was due before the outage plus what was posted since, and the cursor
      reaches the end. */
  lemma OutageIsCaughtUp(me: NodeId, c: Cursor, before: seq<Entry>, after: seq<Entry>,
                         down: seq<bool>, up: seq<bool>)
    requires ValidLedger(after) && before <= after && c.watermark >= 0
    requires FitsOnePage(before, c.watermark) && FitsOnePage(after, c.watermark)
    requires |down| == |PullReply(before, c.watermark).messages| && AllDown(down)
    requires var c1 := Tick(me, c, PullReply(before, c.watermark), down).cursor;
             |up| == |PullReply(after, c1.watermark).messages| && AllUp(up)
    ensures var t1 := Tick(me, c, PullReply(before, c.watermark), down);
            var t2 := Tick(me, t1.cursor, PullReply(after, t1.cursor.watermark), up);
            && t1.enqueued == []
            && t2.enqueued == Woken(me, c, Above(after, c.watermark))
            && t2.cursor.watermark == (if Latest(after) > c.watermark then Latest(after) else c.watermark)
  {
    hide ScanEntries, Woken, IsFirstDue, Above, Between;
    var es := Above(before, c.watermark);
    AboveHolds(before, c.watermark);
    DeadInboxKeepsEverything(me, c, es, down);
    var t1 := Tick(me, c, PullReply(before, c.watermark), down);
    var c1 := t1.cursor;
    LatestBounds(before);
    LatestGrows(before, after);
    CursorStaysBeforeFailure(me, c, before, down);
    AboveSplits(after, c.watermark, c1.watermark);
    BetweenHolds(after, c.watermark, c1.watermark);
    AboveHolds(after, c1.watermark);
    var rows := Above(after, c1.watermark);
    WorkingInboxWakesExactly(me, c1, rows, up);
    QuietPrefixWakesNobody(me, c, Between(after, c.watermark, c1.watermark), rows);
    WatermarkIsIgnored(me, c, c1, rows);
  }

  lemma LatestBounds(ledger: seq<Entry>)
    requires ValidLedger(ledger)
    ensures forall e :: e in ledger ==> 0 < e.sn <= Latest(ledger)
  {
  }

  lemma LatestGrows(before: seq<Entry>, after: seq<Entry>)
    requires ValidLedger(after) && before <= after
    ensures ValidLedger(before) && Latest(before) <= Latest(after)
  {
    assert forall i :: 0 <= i < |before| ==> before[i] == after[i];
  }

  lemma {:induction false} WatermarkIsIgnored(me: NodeId, c: Cursor, d: Cursor, es: seq<Entry>)
    requires d == c.(watermark := d.watermark)
    ensures Woken(me, c, es) == Woken(me, d, es)
  {
    if es != [] {
      WatermarkIsIgnored(me, c, d, es[..|es| - 1]);
      assert NamedThreads(me, c, es) == NamedThreads(me, d, es);
      assert es[..|es| - 1 + 1] == es;
    }
  }

  lemma NothingDueBeforeTheFailure(me: NodeId, c: Cursor, es: seq<Entry>, down: seq<bool>, e: Entry)
    requires |down| == |es| && AllDown(down) && Ascending(es) && e in es
    requires var s := ScanEntries(me, c, es, down);
             s.failed.Some? ==> e.sn < s.failed.value
    ensures !(c.Targets(me, e) && c.Fresh(e.key, e.sn))
  {
    DeadInboxKeepsEverything(me, c, es, down);
    var s := ScanEntries(me, c, es, down);
    var j :| 0 <= j < |es| && es[j] == e;
    if s.failed.Some? {
      var i :| IsFirstDue(me, c, es, i) && es[i].sn == s.failed.value;
      assert j < i;
      assert es[..i][j] == e;
    }
  }

  lemma CursorStaysBeforeFailure(me: NodeId, c: Cursor, ledger: seq<Entry>, down: seq<bool>)
    requires ValidLedger(ledger) && FitsOnePage(ledger, c.watermark)
    requires |down| == |PullReply(ledger, c.watermark).messages| && AllDown(down)
    ensures var c1 := Tick(me, c, PullReply(ledger, c.watermark), down).cursor;
            && c1 == c.(watermark := c1.watermark) && c.watermark <= c1.watermark
            && forall e :: e in ledger && c.watermark < e.sn <= c1.watermark
                 ==> !(c.Targets(me, e) && c.Fresh(e.key, e.sn))
  {
    var es := Above(ledger, c.watermark);
    AboveHolds(ledger, c.watermark);
    DeadInboxKeepsEverything(me, c, es, down);
    var c1 := Tick(me, c, PullReply(ledger, c.watermark), down).cursor;
    forall e | e in ledger && c.watermark < e.sn <= c1.watermark
      ensures !(c.Targets(me, e) && c.Fresh(e.key, e.sn))
    {
      NothingDueBeforeTheFailure(me, c, es, down, e);
    }
  }

  // ---- What the cursor runs past ----

  lemma {:induction false} AboveGrows(before: seq<Entry>, after: seq<Entry>, since: int)
    requires before <= after
    ensures Above(before, since) <= Above(after, since)
  {
    if |before| < |after| {
      var n := |after| - 1;
      AboveGrows(before, after[..n], since);
    } else {
      assert before == after;
    }
  }

  lemma {:induction false} FailureIsFromThePage(me: NodeId, c: Cursor, es: seq<Entry>, up: seq<bool>)
    requires |up| == |es|
    ensures var s := ScanEntries(me, c, es, up);
            && s.cursor.watermark == c.watermark
            && (s.failed.Some? ==> exists i :: 0 <= i < |es| && es[i].sn == s.failed.value)
  {
    if es != [] {
      var n := |es| - 1;
      FailureIsFromThePage(me, c, es[..n], up[..n]);
    }
  }

  /** Some ledger row above the old cursor is at or below the new one although
      the reply did not carry it: no later page will. */
  ghost predicate RunsPastUnseen(ledger: seq<Entry>, r: Reply, from: int, to: int) {
    exists i :: 0 <= i < |ledger| && from < ledger[i].sn <= to && ledger[i] !in r.messages
  }

  /** Main result: the cursor runs past rows nobody saw exactly when the reply
      was incomplete and no send failed. The reply is incomplete when the backlog
      exceeds the page, or when rows were written between its two reads. */
  lemma CursorRunsPastExactlyWhenIncomplete(me: NodeId, c: Cursor, atPage: seq<Entry>, atLatest: seq<Entry>,
                                            limit: Option<nat>, up: seq<bool>)
    requires ValidLedger(atLatest) && atPage <= atLatest
    requires |up| == |HandleSync(atPage, atLatest, c.watermark, limit).messages|
    ensures var r := HandleSync(atPage, atLatest, c.watermark, limit);
            var t := Tick(me, c, r, up);
            RunsPastUnseen(atLatest, r, c.watermark, t.cursor.watermark)
            <==> t.failed.None? && |r.messages| < |Above(atLatest, c.watermark)|
  {
    var r := HandleSync(atPage, atLatest, c.watermark, limit);
    var t := Tick(me, c, r, up);
    AboveGrows(atPage, atLatest, c.watermark);
    FailureIsFromThePage(me, c, r.messages, up);
    if t.failed.None? && |r.messages| < |Above(atLatest, c.watermark)| {
      LastRowIsMissed(atLatest, c.watermark, |r.messages|);
    }
    if RunsPastUnseen(atLatest, r, c.watermark, t.cursor.watermark) {
      MissedRowsLieBehindThePage(atLatest, c.watermark, r.messages, t.cursor.watermark);
    }
  }

  /** A row written between the two reads: the page does not hold it, the cursor
      passes it, and the next pull no longer asks for it. */
  lemma RowBetweenTheReadsIsLost(me: NodeId, a: Entry, b: Entry)
    requires me != "master"
    requires a == Entry(1, "issue:7", "master", true) && b == Entry(2, "issue:8", "master", true)
    ensures var r := HandleSync([a], [a, b], 0, Some(PULL_LIMIT));
            && r == Reply([a], 2)
            && var t1 := Tick(me, Restore(None), r, [true]);
               && t1.enqueued == [Event("issue:7", 1)] && t1.cursor.watermark == 2
               && PullReply([a, b], t1.cursor.watermark) == Reply([], 2)
  {
    assert [] + [a] == [a] && [a] + [b] == [a, b];
    AboveSnoc([], a, 0);
    AboveSnoc([], a, 2);
    AboveSnoc([a], b, 2);
    assert Above([], 0) == [] && Above([], 2) == [];
    ScanOfOne(me, Restore(None), a, true);
    hide Above, ScanEntries;
  }

  lemma AboveSnoc(es: seq<Entry>, e: Entry, since: int)
    ensures Above(es + [e], since) == Above(es, since) + (if e.sn > since then [e] else [])
  {
    assert (es + [e])[..|es|] == es;
  }

  lemma ScanOfOne(me: NodeId, c: Cursor, e: Entry, up: bool)
    ensures ScanEntries(me, c, [e], [up]) == ScanStep(me, Scan(c, [], None), e, up)
  {
    assert [e][..0] == [] && [up][..0] == [];
    hide ScanStep;
    assert ScanEntries(me, c, [e], [up]) == ScanStep(me, ScanEntries(me, c, [e][..0], [up][..0]), e, up);
  }

  lemma MissedRowsLieBehindThePage(ledger: seq<Entry>, since: int, page: seq<Entry>, to: int)
    requires Ascending(ledger) && page <= Above(ledger, since)
    requires RunsPastUnseen(ledger, Reply(page, 0), since, to)
    ensures |page| < |Above(ledger, since)|
    ensures forall i :: 0 <= i < |page| ==> page[i].sn < to
  {
    var rows := Above(ledger, since);
    AboveHolds(ledger, since);
    var i :| 0 <= i < |ledger| && since < ledger[i].sn <= to && ledger[i] !in page;
    assert ledger[i] in rows;
    var j :| 0 <= j < |rows| && rows[j] == ledger[i];
    assert |page| <= j;
    forall k | 0 <= k < |page| ensures page[k].sn < to {
      assert page[k] == rows[k];
    }
  }

  lemma LastRowIsMissed(ledger: seq<Entry>, since: int, m: nat)
    requires ValidLedger(ledger) && m < |Above(ledger, since)|
    ensures exists i :: 0 <= i < |ledger| && since < ledger[i].sn <= Latest(ledger)
              && ledger[i] !in Above(ledger, since)[..m]
  {
    AboveHolds(ledger, since);
    var rows := Above(ledger, since);
    var last := rows[|rows| - 1];
    assert last in rows;
    var i :| 0 <= i < |ledger| && ledger[i] == last;
    assert last !in rows[..m];
  }

  // ---- What a failed send costs ----

  lemma {:induction false} WokenHolds(me: NodeId, c: Cursor, es: seq<Entry>, ev: Event)
    ensures ev in Woken(me, c, es)
            <==> exists i :: 0 <= i < |es| && Wakes(me, c, es, i) && ev == Event(es[i].key, es[i].sn)
  {
    if es != [] {
      var n := |es| - 1;
      WokenHolds(me, c, es[..n], ev);
      forall i | 0 <= i < n ensures Wakes(me, c, es, i) == Wakes(me, c, es[..n], i) {
        assert es[..n][..i + 1] == es[..i + 1];
      }
    }
  }

  /** The worker is in thread k once the entries are scanned: it was before, or an
      entry of the thread that names it got through. */
  predicate IsIn(me: NodeId, c: Cursor, es: seq<Entry>, up: seq<bool>, k: Key)
    requires |up| == |es|
  {
    k in c.participated || exists m :: 0 <= m < |es| && es[m].key == k && up[m] && Names(me, c, es[m])
  }

  /** Entry i is for this worker when the scan reaches it. */
  predicate IsDue(me: NodeId, c: Cursor, es: seq<Entry>, up: seq<bool>, i: nat)
    requires |up| == |es| && i < |es|
  {
    && es[i].sender != me && c.Fresh(es[i].key, es[i].sn)
    && (es[i].mentionsMe || IsIn(me, c, es[..i], up[..i], es[i].key))
  }

  /** A later entry of the same thread is due too, and its send works. */
  predicate IsOvertaken(me: NodeId, c: Cursor, es: seq<Entry>, up: seq<bool>, i: nat)
    requires |up| == |es| && i < |es|
  {
    exists j :: i < j < |es| && es[j].key == es[i].key && up[j] && IsDue(me, c, es, up, j)
  }

  lemma IsInStep(me: NodeId, c: Cursor, es: seq<Entry>, up: seq<bool>, k: Key)
    requires |up| == |es| && es != []
    ensures var n := |es| - 1;
            IsIn(me, c, es, up, k)
            <==> IsIn(me, c, es[..n], up[..n], k) || (es[n].key == k && up[n] && Names(me, c, es[n]))
  {
    var n := |es| - 1;
    assert forall m :: 0 <= m < n ==> es[..n][m] == es[m] && up[..n][m] == up[m];
  }

  lemma IsDueInPrefix(me: NodeId, c: Cursor, es: seq<Entry>, up: seq<bool>, n: nat, i: nat)
    requires |up| == |es| && i < n <= |es|
    ensures IsDue(me, c, es[..n], up[..n], i) == IsDue(me, c, es, up, i)
  {
    assert es[..n][..i] == es[..i] && up[..n][..i] == up[..i];
  }

  /** Scanning joins exactly these threads, and moves levels only up to the rows
      it delivers. */
  lemma {:induction false} ScanByInputs(me: NodeId, c: Cursor, es: seq<Entry>, up: seq<bool>)
    requires |up| == |es| && Ascending(es)
    ensures var s := ScanEntries(me, c, es, up);
            && s.cursor.watermark == c.watermark
            && (forall k :: k in s.cursor.participated <==> IsIn(me, c, es, up, k))
            && forall sn :: (forall i :: 0 <= i < |es| ==> es[i].sn < sn) ==> LevelsMovedBelow(c, s.cursor, sn)
  {
    if es != [] {
      var n := |es| - 1;
      ScanByInputs(me, c, es[..n], up[..n]);
      var s := ScanEntries(me, c, es[..n], up[..n]);
      assert LevelsMovedBelow(c, s.cursor, es[n].sn);
      assert s.cursor.Fresh(es[n].key, es[n].sn) <==> c.Fresh(es[n].key, es[n].sn);
      ScanStepJoins(me, c, es, up, s);
    }
  }

  lemma ScanStepJoins(me: NodeId, c: Cursor, es: seq<Entry>, up: seq<bool>, s: Scan)
    requires |up| == |es| && es != []
    requires var n := |es| - 1;
             && (forall k :: k in s.cursor.participated <==> IsIn(me, c, es[..n], up[..n], k))
             && (s.cursor.Fresh(es[n].key, es[n].sn) <==> c.Fresh(es[n].key, es[n].sn))
    ensures var n := |es| - 1;
            forall k :: k in ScanStep(me, s, es[n], up[n]).cursor.participated <==> IsIn(me, c, es, up, k)
  {
    var n := |es| - 1;
    forall k ensures k in ScanStep(me, s, es[n], up[n]).cursor.participated <==> IsIn(me, c, es, up, k) {
      IsInStep(me, c, es, up, k);
      assert k in s.cursor.participated <==> IsIn(me, c, es[..n], up[..n], k);
      assert k in ScanStep(me, s, es[n], up[n]).cursor.participated
        <==> k in s.cursor.participated
             || (k == es[n].key && up[n] && s.cursor.Targets(me, es[n]) && s.cursor.Fresh(es[n].key, es[n].sn));
    }
  }

  /** What the scan does at row n is decided by the inputs. */
  lemma ScanReaches(me: NodeId, c: Cursor, es: seq<Entry>, up: seq<bool>, n: nat)
    requires |up| == |es| && Ascending(es) && n < |es|
    ensures var s := ScanEntries(me, c, es[..n], up[..n]);
            s.cursor.Targets(me, es[n]) && s.cursor.Fresh(es[n].key, es[n].sn) <==> IsDue(me, c, es, up, n)
  {
    var s := ScanEntries(me, c, es[..n], up[..n]);
    ScanByInputs(me, c, es[..n], up[..n]);
    assert LevelsMovedBelow(c, s.cursor, es[n].sn);
    assert es[n].key in s.cursor.participated <==> IsIn(me, c, es[..n], up[..n], es[n].key);
  }

  /** After its send failed, an entry stays due until a later entry of its thread
      gets through in the same tick, and it holds the cursor back. */
  lemma {:induction false} FailedEntryStaysDue(me: NodeId, c: Cursor, es: seq<Entry>, up: seq<bool>, i: nat)
    requires |up| == |es| && Ascending(es) && i < |es| && !up[i] && IsDue(me, c, es, up, i)
    ensures var s := ScanEntries(me, c, es, up);
            && s.cursor.Targets(me, es[i])
            && (s.cursor.Fresh(es[i].key, es[i].sn) <==> !IsOvertaken(me, c, es, up, i))
            && s.failed.Some? && s.failed.value <= es[i].sn
  {
    var n := |es| - 1;
    ScanReaches(me, c, es, up, n);
    var s := ScanEntries(me, c, es[..n], up[..n]);
    if i < n {
      IsDueInPrefix(me, c, es, up, n, i);
      FailedEntryStaysDue(me, c, es[..n], up[..n], i);
      OvertakenStep(me, c, es, up, i);
      hide IsDue, IsOvertaken, ScanEntries;
    } else {
      assert !IsOvertaken(me, c, es, up, i);
    }
  }

  /** Row i is the first one that is due and does not get through. */
  ghost predicate IsFirstFailure(me: NodeId, c: Cursor, es: seq<Entry>, up: seq<bool>, i: int)
    requires |up| == |es|
  {
    && 0 <= i < |es| && IsDue(me, c, es, up, i) && !up[i]
    && forall j :: 0 <= j < i && IsDue(me, c, es, up, j) ==> up[j]
  }

  lemma {:induction false} FirstFailureIsReported(me: NodeId, c: Cursor, es: seq<Entry>, up: seq<bool>)
    requires |up| == |es| && Ascending(es)
    ensures var s := ScanEntries(me, c, es, up);
            && s.cursor.watermark == c.watermark
            && (s.failed.None? ==> forall i :: 0 <= i < |es| && IsDue(me, c, es, up, i) ==> up[i])
            && (s.failed.Some? ==> exists i :: IsFirstFailure(me, c, es, up, i) && es[i].sn == s.failed.value)
  {
    if es != [] {
      var n := |es| - 1;
      var s := ScanEntries(me, c, es[..n], up[..n]);
      FirstFailureIsReported(me, c, es[..n], up[..n]);
      ScanReaches(me, c, es, up, n);
      forall j | 0 <= j < n ensures IsDue(me, c, es[..n], up[..n], j) == IsDue(me, c, es, up, j) {
        IsDueInPrefix(me, c, es, up, n, j);
      }
      hide IsDue;
      if s.failed.Some? {
        var i :| IsFirstFailure(me, c, es[..n], up[..n], i) && es[..n][i].sn == s.failed.value;
        assert up[..n][i] == up[i] && es[..n][i] == es[i] && forall j :: 0 <= j < i ==> up[..n][j] == up[j];
        assert IsFirstFailure(me, c, es, up, i);
      } else {
        assert forall j :: 0 <= j < n ==> up[..n][j] == up[j];
        assert IsDue(me, c, es, up, n) && !up[n] ==> IsFirstFailure(me, c, es, up, n);
      }
    }
  }

  /** Main result: after a tick over the whole backlog the next pull starts exactly at
      the first row that was due and did not get through, or has nothing to fetch. */
  lemma NextPullStartsAtTheFirstFailure(me: NodeId, c: Cursor, ledger: seq<Entry>, up: seq<bool>, e: Entry)
    requires ValidLedger(ledger) && FitsOnePage(ledger, c.watermark) && e in ledger
    requires |up| == |PullReply(ledger, c.watermark).messages|
    ensures var es := PullReply(ledger, c.watermark).messages;
            var next := Tick(me, c, PullReply(ledger, c.watermark), up).cursor.watermark;
            && next >= c.watermark
            && (e in Above(ledger, next) <==>
                  exists i :: 0 <= i < |es| && IsFirstFailure(me, c, es, up, i) && e.sn >= es[i].sn)
  {
    var es := Above(ledger, c.watermark);
    AboveHolds(ledger, c.watermark);
    LatestBounds(ledger);
    FirstFailureIsReported(me, c, es, up);
    var next := Tick(me, c, PullReply(ledger, c.watermark), up).cursor.watermark;
    AboveHolds(ledger, next);
    hide ScanEntries, Above, IsDue;
    forall i, j | IsFirstFailure(me, c, es, up, i) && IsFirstFailure(me, c, es, up, j) ensures i == j {
      FirstFailureIsOne(me, c, es, up, i, j);
    }
    hide IsFirstFailure;
    forall i | 0 <= i < |es| ensures es[i] in es {
    }
  }

  lemma FirstFailureIsOne(me: NodeId, c: Cursor, es: seq<Entry>, up: seq<bool>, i: int, j: int)
    requires |up| == |es| && IsFirstFailure(me, c, es, up, i) && IsFirstFailure(me, c, es, up, j)
    ensures i == j
  {
    hide IsDue;
  }

  /** Whatever the reply holds, the cursor does not fall, and does not pass the number
      the master calls its latest. */
  lemma CursorKeepsBelowLatest(me: NodeId, c: Cursor, r: Reply, up: seq<bool>)
    requires |up| == |r.messages|
    ensures var next := Tick(me, c, r, up).cursor.watermark;
            c.watermark <= next && (next <= r.latest || next == c.watermark)
  {
    FailureIsFromThePage(me, c, r.messages, up);
  }

  /** A page is as much of the oldest backlog as was asked for, 500 rows when nothing
      was said, at least one and at most 2000. */
  lemma PageIsTheOldestBacklog(ledger: seq<Entry>, since: int, limit: Option<nat>)
    ensures var page, rows := HandleSync(ledger, ledger, since, limit).messages, Above(ledger, since);
            var most := match limit
                        case None => 500
                        case Some(n) => if n == 0 then 1 else if n <= 2000 then n else 2000;
            page <= rows && |page| == if |rows| < most then |rows| else most
  {
  }

  lemma OvertakenStep(me: NodeId, c: Cursor, es: seq<Entry>, up: seq<bool>, i: nat)
    requires |up| == |es| && i < |es| - 1
    ensures var n := |es| - 1;
            IsOvertaken(me, c, es, up, i)
            <==> IsOvertaken(me, c, es[..n], up[..n], i)
                 || (es[n].key == es[i].key && up[n] && IsDue(me, c, es, up, n))
  {
    var n := |es| - 1;
    forall j | 0 <= j < n ensures IsDue(me, c, es[..n], up[..n], j) == IsDue(me, c, es, up, j) {
      IsDueInPrefix(me, c, es, up, n, j);
    }
    hide IsDue;
    if IsOvertaken(me, c, es[..n], up[..n], i) {
      var j :| i < j < n && es[..n][j].key == es[i].key && up[..n][j] && IsDue(me, c, es[..n], up[..n], j);
      assert es[j].key == es[i].key && up[j] && IsDue(me, c, es, up, j);
    }
    if IsOvertaken(me, c, es, up, i) {
      var j :| i < j < |es| && es[j].key == es[i].key && up[j] && IsDue(me, c, es, up, j);
      assert j < n ==> es[..n][j].key == es[i].key && up[..n][j] && IsDue(me, c, es[..n], up[..n], j);
    }
  }

  /** What one tick alone does to a failed send: the entry is on the page of the next
      tick, and when nothing is pushed in between that tick, with a working inbox,
      delivers it if and only if no later entry of the same thread was due and got
      through in the failing tick. */
  lemma FailedEntryIsRedeliveredUnlessOvertaken(me: NodeId, c: Cursor, before: seq<Entry>, after: seq<Entry>,
                                                up: seq<bool>, i: nat, allUp: seq<bool>)
    requires ValidLedger(after) && before <= after && FitsOnePage(before, c.watermark)
    requires var es := PullReply(before, c.watermark).messages;
             |up| == |es| && i < |es| && !up[i] && IsDue(me, c, es, up, i)
    requires var c1 := Tick(me, c, PullReply(before, c.watermark), up).cursor;
             && FitsOnePage(after, c1.watermark)
             && |allUp| == |PullReply(after, c1.watermark).messages| && AllUp(allUp)
    ensures var es := PullReply(before, c.watermark).messages;
            var c1 := Tick(me, c, PullReply(before, c.watermark), up).cursor;
            var next := PullReply(after, c1.watermark);
            && es[i] in next.messages
            && (Event(es[i].key, es[i].sn) in Tick(me, c1, next, allUp).enqueued
                <==> !IsOvertaken(me, c, es, up, i))
  {
    var es := PullReply(before, c.watermark).messages;
    LatestGrows(before, after);
    AboveHolds(before, c.watermark);
    FailedEntryStaysDue(me, c, es, up, i);
    ScanByInputs(me, c, es, up);
    var c1 := Tick(me, c, PullReply(before, c.watermark), up).cursor;
    assert es[i] in es && c1.watermark < es[i].sn;
    var next := PullReply(after, c1.watermark).messages;
    AboveHolds(after, c1.watermark);
    RowsStay(before, after, es[i]);
    hide IsDue, IsOvertaken, FitsOnePage;
    DueIsDelivered(me, c1, next, allUp, es[i]);
    var s := ScanEntries(me, c, es, up);
    assert c1.Fresh(es[i].key, es[i].sn) == s.cursor.Fresh(es[i].key, es[i].sn);
  }

  lemma RowsStay(before: seq<Entry>, after: seq<Entry>, e: Entry)
    requires before <= after && e in before
    ensures e in after
  {
    var k :| 0 <= k < |before| && before[k] == e;
    assert after[k] == e;
  }

  lemma DueIsDelivered(me: NodeId, c: Cursor, es: seq<Entry>, up: seq<bool>, e: Entry)
    requires |up| == |es| && AllUp(up) && Ascending(es) && e in es && c.Targets(me, e)
    ensures Event(e.key, e.sn) in ScanEntries(me, c, es, up).enqueued <==> c.Fresh(e.key, e.sn)
  {
    hide ScanEntries, LevelsMovedBelow, Woken;
    WorkingInboxWakesExactly(me, c, es, up);
    WokenHolds(me, c, es, Event(e.key, e.sn));
    var k :| 0 <= k < |es| && es[k] == e;
    if c.Fresh(e.key, e.sn) && e.mentionsMe {
      assert Names(me, c, es[..k + 1][k]);
    }
  }

  /** So holding the cursor back is not enough: two messages of one thread, the
      first send fails, the second succeeds; the cursor stays put, the next tick
      pulls the same page, and the first message is never delivered. */
  lemma HeldBackYetLost(me: NodeId, a: Entry, b: Entry)
    requires me != "master"
    requires a == Entry(1, "issue:7", "master", true) && b == Entry(2, "issue:7", "master", true)
    ensures PullReply([a, b], 0) == Reply([a, b], 2)
    ensures var t1 := Tick(me, Restore(None), Reply([a, b], 2), [false, true]);
            var t2 := Tick(me, t1.cursor, Reply([a, b], 2), [true, true]);
            && t1.cursor.watermark == 0 && t1.enqueued == [Event("issue:7", 2)]
            && t2.cursor.watermark == 2 && t2.enqueued == []
  {
    var c := Restore(None);
    AboveOfTwo(a, b, 0);
    ScanOfTwo(me, c, a, b, false, true);
    var c1 := c.Commit("issue:7", 2);
    ScanOfTwo(me, c1, a, b, true, true);
  }

  lemma AboveOfTwo(a: Entry, b: Entry, since: int)
    requires since < a.sn && since < b.sn
    ensures Above([a, b], since) == [a, b]
  {
    assert [a, b][..1] == [a] && [a][..0] == [];
    assert Above([a], since) == Above([a][..0], since) + [a];
  }

  lemma ScanOfTwo(me: NodeId, c: Cursor, a: Entry, b: Entry, up1: bool, up2: bool)
    ensures ScanEntries(me, c, [a, b], [up1, up2])
            == ScanStep(me, ScanStep(me, Scan(c, [], None), a, up1), b, up2)
  {
    assert [a, b][..1] == [a] && [up1, up2][..1] == [up1];
    assert [a][..0] == [] && [up1][..0] == [];
    assert ScanEntries(me, c, [a], [up1]) == ScanStep(me, ScanEntries(me, c, [a][..0], [up1][..0]), a, up1);
  }
}
