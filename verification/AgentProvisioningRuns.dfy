/** Boots, crashes and boots again: what the agent table and the directories keep. */
module AgentProvisioningRuns {
  import opened Wrappers
  import opened AgentProvisioning

  // ---- What every effect keeps ----

  ghost predicate UniqueIds(rs: seq<Record>) {
    forall i, j :: 0 <= i < j < |rs| ==> rs[i].id != rs[j].id
  }

  ghost predicate HasId(rs: seq<Record>, id: AgentId) {
    exists i :: 0 <= i < |rs| && rs[i].id == id
  }

  ghost predicate OneMain(rs: seq<Record>) {
    forall i, j :: 0 <= i < j < |rs| ==> !rs[i].kind.Main? || !rs[j].kind.Main?
  }

  ghost predicate OneEach(rs: seq<Record>) {
    forall i, j :: 0 <= i < j < |rs| && rs[i].kind.Project? && rs[j].kind.Project? ==> rs[i].project != rs[j].project
  }

  /** An active agent has its home and its memory directory. */
  ghost predicate ActiveHaveDirectories(s: State) {
    forall i :: 0 <= i < |s.records| && s.records[i].status.Active? ==>
      s.records[i].id in s.homes && s.records[i].id in s.memories
  }

  ghost predicate Inv(s: State) {
    UniqueIds(s.records) && OneMain(s.records) && OneEach(s.records) && ActiveHaveDirectories(s)
  }

  /** An effect in its place: nothing turns active without its directories, and a
      new record is provisioning, under a new id, and no second main or mirror. */
  ghost predicate IsOrderly(s: State, e: Effect) {
    match e
    case Upsert(r) =>
      && r.status.Provisioning? && !HasId(s.records, r.id)
      && (r.kind.Main? ==> !HasMain(s))
      && (r.kind.Project? ==> r.project.Some? && !Knows(s.records, r.project.value))
    case Turn(id, was, to) => was.Provisioning? && (to.Active? ==> id in s.homes && id in s.memories)
    case _ => true
  }

  ghost predicate AreOrderly(s: State, es: seq<Effect>) {
    es == [] || (AreOrderly(s, es[..|es| - 1]) && IsOrderly(ApplyAll(s, es[..|es| - 1]), es[|es| - 1]))
  }

  lemma {:induction false} WithoutMembers(rs: seq<Record>, id: AgentId)
    ensures forall r :: r in Without(rs, id) <==> r in rs && r.id != id
  {
    if rs != [] {
      var n := |rs| - 1;
      WithoutMembers(rs[..n], id);
      assert rs == rs[..n] + [rs[n]];
      hide Without;
    }
  }

  lemma {:induction false} WithoutKeepsUnique(rs: seq<Record>, id: AgentId)
    requires UniqueIds(rs)
    ensures UniqueIds(Without(rs, id))
  {
    if rs != [] {
      WithoutKeepsUnique(rs[..|rs| - 1], id);
      WithoutMembers(rs[..|rs| - 1], id);
    }
  }

  lemma {:induction false} WithoutKeepsMain(rs: seq<Record>, id: AgentId)
    requires OneMain(rs)
    ensures OneMain(Without(rs, id))
  {
    if rs != [] {
      WithoutKeepsMain(rs[..|rs| - 1], id);
      WithoutMembers(rs[..|rs| - 1], id);
    }
  }

  lemma {:induction false} WithoutKeepsEach(rs: seq<Record>, id: AgentId)
    requires OneEach(rs)
    ensures OneEach(Without(rs, id))
  {
    if rs != [] {
      WithoutKeepsEach(rs[..|rs| - 1], id);
      WithoutMembers(rs[..|rs| - 1], id);
    }
  }

  lemma {:induction false} WithoutNothing(rs: seq<Record>, id: AgentId)
    requires !HasId(rs, id)
    ensures Without(rs, id) == rs
  {
    if rs != [] {
      WithoutNothing(rs[..|rs| - 1], id);
    }
  }

  lemma UpsertKeeps(s: State, r: Record)
    requires Inv(s) && IsOrderly(s, Upsert(r))
    ensures Inv(Apply(s, Upsert(r)))
  {
    UpsertAppends(s, r);
    var rs := s.records + [r];
    assert UniqueIds(rs) by { hide OneMain, OneEach, ActiveHaveDirectories; }
    assert OneMain(rs) by { hide UniqueIds, OneEach, ActiveHaveDirectories; }
    assert OneEach(rs) by { hide UniqueIds, OneMain, ActiveHaveDirectories; }
    hide UniqueIds, OneMain, OneEach;
  }

  lemma DeleteKeeps(s: State, id: AgentId)
    requires Inv(s)
    ensures Inv(Apply(s, Delete(id)))
  {
    WithoutMembers(s.records, id);
    WithoutKeepsUnique(s.records, id);
    WithoutKeepsMain(s.records, id);
    WithoutKeepsEach(s.records, id);
    hide Without, UniqueIds, OneMain, OneEach;
    var rs := Without(s.records, id);
    forall i | 0 <= i < |rs| && rs[i].status.Active? ensures rs[i].id in s.homes && rs[i].id in s.memories {
      assert rs[i] in rs;
      assert rs[i] in s.records;
    }
  }

  lemma TurnKeeps(s: State, id: AgentId, was: Status, to: Status)
    requires Inv(s) && IsOrderly(s, Turn(id, was, to))
    ensures Inv(Apply(s, Turn(id, was, to)))
  {
    var rs := TurnAll(s.records, id, was, to);
    assert forall i :: 0 <= i < |rs| ==> rs[i] == Turned(s.records[i], id, was, to);
  }

  lemma EffectKeeps(s: State, e: Effect)
    requires Inv(s) && IsOrderly(s, e)
    ensures Inv(Apply(s, e))
  {
    match e
    case Upsert(r) => UpsertKeeps(s, r);
    case Delete(id) => DeleteKeeps(s, id);
    case Turn(id, was, to) => TurnKeeps(s, id, was, to);
    case _ =>
  }

  lemma {:induction false} OrderlyKeeps(s: State, es: seq<Effect>)
    requires Inv(s) && AreOrderly(s, es)
    ensures Inv(ApplyAll(s, es))
  {
    hide Inv, IsOrderly, Apply;
    if es != [] {
      OrderlyKeeps(s, es[..|es| - 1]);
      EffectKeeps(ApplyAll(s, es[..|es| - 1]), es[|es| - 1]);
    }
  }

  lemma {:induction false} OrderlyPrefix(s: State, es: seq<Effect>, k: nat)
    requires AreOrderly(s, es) && k <= |es|
    ensures AreOrderly(s, es[..k])
  {
    hide IsOrderly, ApplyAll;
    if k < |es| {
      OrderlyPrefix(s, es[..|es| - 1], k);
      assert es[..|es| - 1][..k] == es[..k];
    } else {
      assert es[..k] == es;
    }
  }

  lemma {:induction false} OrderlyConcat(s: State, a: seq<Effect>, b: seq<Effect>)
    requires AreOrderly(s, a) && AreOrderly(ApplyAll(s, a), b)
    ensures AreOrderly(s, a + b)
  {
    hide IsOrderly, ApplyAll;
    if b == [] {
      assert a + b == a;
    } else {
      var n := |b| - 1;
      assert (a + b)[..|a| + n] == a + b[..n];
      OrderlyConcat(s, a, b[..n]);
      ApplyConcat(s, a, b[..n]);
    }
  }

  lemma OrderlyOne(s: State, e: Effect)
    requires IsOrderly(s, e)
    ensures AreOrderly(s, [e]) && ApplyAll(s, [e]) == Apply(s, e)
  {
    hide IsOrderly, Apply;
    assert [e][..0] == [];
    assert AreOrderly(s, []) && ApplyAll(s, []) == s;
  }

  // ---- The operations are orderly ----

  lemma MaterializeIsOrderly(s: State, id: AgentId, d: Disk)
    ensures AreOrderly(s, MaterializeEffects(id, d))
    ensures var s' := ApplyAll(s, MaterializeEffects(id, d));
            s'.records == s.records && (Fine(d) ==> id in s'.homes && id in s'.memories)
  {
    var es := MaterializeEffects(id, d);
    OrderlyOne(s, MakeHome(id));
    OrderlyOne(Apply(s, MakeHome(id)), MakeMemory(id));
    OrderlyConcat(s, [MakeHome(id)], [MakeMemory(id)]);
    ApplyConcat(s, [MakeHome(id)], [MakeMemory(id)]);
    assert es == [] || es == [MakeHome(id)] || es == [MakeHome(id)] + [MakeMemory(id)];
    assert AreOrderly(s, []);
  }

  lemma CreateAdds(s: State, id: AgentId, kind: Kind, project: Option<string>, d: Disk)
    requires !HasId(s.records, id)
    ensures ApplyAll(s, CreateEffects(id, kind, project, d)).records
         == s.records + [NewRecord(id, kind, project).(status := if Fine(d) then Active else Provisioning)]
  {
    hide ApplyAll, Apply, TurnAll, MaterializeEffects;
    var r := NewRecord(id, kind, project);
    var mat, t := MaterializeEffects(id, d), Turn(id, Provisioning, Active);
    var s1 := Apply(s, Upsert(r));
    UpsertAppends(s, r);
    ApplyOne(s, Upsert(r));
    MaterializeIsOrderly(s1, id, d);
    ApplyConcat(s, [Upsert(r)], mat);
    var s2 := ApplyAll(s1, mat);
    assert s2.records == s.records + [r];
    if Fine(d) {
      ApplyOne(s2, t);
      ApplyConcat(s, [Upsert(r)] + mat, [t]);
      TurnsTheLast(s2, s.records, r, Active);
    } else {
      assert [Upsert(r)] + mat + [] == [Upsert(r)] + mat;
    }
  }

  lemma UpsertAppends(s: State, r: Record)
    requires !HasId(s.records, r.id)
    ensures Apply(s, Upsert(r)).records == s.records + [r]
  {
    WithoutNothing(s.records, r.id);
  }

  lemma TurnsTheLast(s: State, rs: seq<Record>, r: Record, to: Status)
    requires s.records == rs + [r] && !HasId(rs, r.id)
    ensures Apply(s, Turn(r.id, r.status, to)).records == rs + [r.(status := to)]
  {
    assert forall i :: 0 <= i < |rs| ==> s.records[i] == rs[i] && rs[i].id != r.id;
  }

  lemma ApplyOne(s: State, e: Effect)
    ensures ApplyAll(s, [e]) == Apply(s, e)
  {
    hide Apply;
    assert [e][..0] == [] && ApplyAll(s, []) == s;
  }

  lemma CreateIsOrderly(s: State, id: AgentId, kind: Kind, project: Option<string>, d: Disk)
    requires IsOrderly(s, Upsert(NewRecord(id, kind, project)))
    ensures AreOrderly(s, CreateEffects(id, kind, project, d))
  {
    var r := NewRecord(id, kind, project);
    var mat, t := MaterializeEffects(id, d), Turn(id, Provisioning, Active);
    OrderlyOne(s, Upsert(r));
    var s1 := Apply(s, Upsert(r));
    MaterializeIsOrderly(s1, id, d);
    OrderlyConcat(s, [Upsert(r)], mat);
    ApplyConcat(s, [Upsert(r)], mat);
    if Fine(d) {
      OrderlyOne(ApplyAll(s1, mat), t);
      OrderlyConcat(s, [Upsert(r)] + mat, [t]);
    } else {
      assert [Upsert(r)] + mat + [] == [Upsert(r)] + mat;
    }
  }

  /** New ids, different from each other, and each unknown project named once. */
  ghost predicate AreNew(s: State, entries: seq<Entry>) {
    && (forall i :: 0 <= i < |entries| ==> !HasId(s.records, entries[i].id))
    && (forall i, j :: 0 <= i < j < |entries| ==> entries[i].id != entries[j].id)
  }

  ghost predicate AreUnmirrored(s: State, known: seq<Record>, entries: seq<Entry>) {
    && (forall i :: 0 <= i < |entries| && Knows(s.records, entries[i].project) ==> Knows(known, entries[i].project))
    && (forall i, j :: 0 <= i < j < |entries| ==> entries[i].project != entries[j].project)
  }

  lemma NewcomersStay(s: State, entries: seq<Entry>)
    requires entries != [] && AreNew(s, entries)
    ensures var e := entries[0];
            var s' := ApplyAll(s, CreateEffects(e.id, Project, Some(e.project), e.disk));
            !HasId(s.records, e.id) && AreNew(s, entries[1..]) && AreNew(s', entries[1..])
  {
    var e := entries[0];
    CreateAdds(s, e.id, Project, Some(e.project), e.disk);
    hide ApplyAll, CreateEffects;
  }

  lemma UnmirroredStay(s: State, known: seq<Record>, entries: seq<Entry>)
    requires entries != [] && AreUnmirrored(s, known, entries) && !HasId(s.records, entries[0].id)
    ensures var e := entries[0];
            var s' := ApplyAll(s, CreateEffects(e.id, Project, Some(e.project), e.disk));
            AreUnmirrored(s, known, entries[1..]) && AreUnmirrored(s', known, entries[1..])
  {
    var e, rest := entries[0], entries[1..];
    CreateAdds(s, e.id, Project, Some(e.project), e.disk);
    var s' := ApplyAll(s, CreateEffects(e.id, Project, Some(e.project), e.disk));
    hide ApplyAll, CreateEffects;
    forall i | 0 <= i < |rest| && Knows(s'.records, rest[i].project) ensures Knows(known, rest[i].project) {
      assert rest[i] == entries[i + 1];
      var k :| 0 <= k < |s'.records| && s'.records[k].kind.Project? && s'.records[k].project == Some(rest[i].project);
      assert k < |s.records| && s.records[k] == s'.records[k];
    }
  }

  lemma {:induction false} SyncIsOrderly(s: State, known: seq<Record>, entries: seq<Entry>)
    requires AreNew(s, entries) && AreUnmirrored(s, known, entries)
    ensures AreOrderly(s, SyncEffects(known, entries))
    decreases |entries|
  {
    hide ApplyAll, CreateEffects, Fine, AreNew, AreUnmirrored;
    if entries != [] {
      var e := entries[0];
      NewcomersStay(s, entries);
      UnmirroredStay(s, known, entries);
      if Knows(known, e.project) {
        SyncIsOrderly(s, known, entries[1..]);
      } else if e.usable {
        FirstIsOrderly(s, known, entries);
        var es := CreateEffects(e.id, Project, Some(e.project), e.disk);
        CreateIsOrderly(s, e.id, Project, Some(e.project), e.disk);
        var rest := if Fine(e.disk) then SyncEffects(known, entries[1..]) else [];
        SyncIsOrderly(ApplyAll(s, es), known, entries[1..]);
        OrderlyConcat(s, es, rest);
      }
    }
  }

  lemma FirstIsOrderly(s: State, known: seq<Record>, entries: seq<Entry>)
    requires entries != [] && AreNew(s, entries) && AreUnmirrored(s, known, entries)
    requires !Knows(known, entries[0].project)
    ensures IsOrderly(s, Upsert(NewRecord(entries[0].id, Project, Some(entries[0].project))))
  {
  }

  lemma SweepOneIsOrderly(s: State, r: Record, d: Disk)
    ensures AreOrderly(s, SweepOne(r, d))
    ensures ApplyAll(s, SweepOne(r, d)).records ==
              if r.status.Provisioning? then TurnAll(s.records, r.id, Provisioning, if Fine(d) then Active else Failed)
              else s.records
  {
    if r.status.Provisioning? {
      var mat, t := MaterializeEffects(r.id, d), Turn(r.id, Provisioning, if Fine(d) then Active else Failed);
      MaterializeIsOrderly(s, r.id, d);
      var s1 := ApplyAll(s, mat);
      OrderlyOne(s1, t);
      OrderlyConcat(s, mat, [t]);
      ApplyConcat(s, mat, [t]);
    }
  }

  lemma {:induction false} SweepIsOrderly(s: State, rs: seq<Record>, disk: AgentId -> Disk)
    ensures AreOrderly(s, SweepEffects(rs, disk))
  {
    hide SweepOne;
    if rs != [] {
      var n := |rs| - 1;
      SweepIsOrderly(s, rs[..n], disk);
      SweepOneIsOrderly(ApplyAll(s, SweepEffects(rs[..n], disk)), rs[n], disk(rs[n].id));
      OrderlyConcat(s, SweepEffects(rs[..n], disk), SweepOne(rs[n], disk(rs[n].id)));
    }
  }

  // ---- What the operations leave ----

  /** Directories are made one after the other, as far as the disk lets them. */
  lemma DirectoriesAreMade(s: State, id: AgentId, d: Disk)
    ensures ApplyAll(s, MaterializeEffects(id, d))
         == s.(homes := if d.home then s.homes + {id} else s.homes,
               memories := if d.home && d.memory then s.memories + {id} else s.memories)
  {
    if d.home {
      ApplyOne(s, MakeHome(id));
      ApplyConcat(s, [MakeHome(id)], [MakeMemory(id)]);
      ApplyOne(Apply(s, MakeHome(id)), MakeMemory(id));
      assert [MakeHome(id)] + [MakeMemory(id)] == [MakeHome(id), MakeMemory(id)];
    }
  }

  /** The agents a round opens for the entries that are not known, in their order. */
  function Opened(known: seq<Record>, entries: seq<Entry>): seq<Record>
    decreases |entries|
  {
    if entries == [] then []
    else
      var e := entries[0];
      (if Knows(known, e.project) then [] else [Record(e.id, Project, Active, Some(e.project))])
      + Opened(known, entries[1..])
  }

  predicate Fails(known: seq<Record>, e: Entry) {
    !Knows(known, e.project) && !(e.usable && Fine(e.disk))
  }

  /** Main result: a round opens an active agent for each unknown project, in the order of
      the configuration, up to the first entry that fails. An unusable directory
      leaves nothing of that entry, a failing disk leaves its record provisioning; and
      the reply says which it was. */
  lemma {:induction false} RoundOpensUpToTheFirstFailure(s: State, known: seq<Record>, entries: seq<Entry>, n: nat)
    requires AreNew(s, entries) && n <= |entries| && forall i :: 0 <= i < n ==> !Fails(known, entries[i])
    requires n < |entries| ==> Fails(known, entries[n])
    ensures ApplyAll(s, SyncEffects(known, entries)).records
         == s.records + Opened(known, entries[..n])
            + (if n < |entries| && entries[n].usable
               then [Record(entries[n].id, Project, Provisioning, Some(entries[n].project))] else [])
    ensures SyncReply(known, entries)
         == if n == |entries| then Done else if entries[n].usable then DiskError else ConfigError
    decreases |entries|
  {
    hide ApplyAll, CreateEffects, Fine, Knows, AreNew;
    if entries == [] {
      NoEffects(s);
      assert s.records + [] + [] == s.records;
    } else {
      var e, rest := entries[0], entries[1..];
      NewcomersStay(s, entries);
      CreateAdds(s, e.id, Project, Some(e.project), e.disk);
      var es := CreateEffects(e.id, Project, Some(e.project), e.disk);
      assert es + [] == es;
      if n == 0 {
        NoEffects(s);
        assert entries[..0] == [] && s.records + [] == s.records;
      } else {
        assert entries[..n][1..] == rest[..n - 1] && entries[..n][0] == e;
        var s1 := if Knows(known, e.project) then s else ApplyAll(s, es);
        RoundOpensUpToTheFirstFailure(s1, known, rest, n - 1);
        ApplyConcat(s, es, SyncEffects(known, rest));
        hide Fails, SyncReply;
        var later := Opened(known, rest[..n - 1]);
        assert s.records + ([Record(e.id, Project, Active, Some(e.project))] + later)
            == (s.records + [Record(e.id, Project, Active, Some(e.project))]) + later;
        assert [] + later == later;
      }
    }
  }

  lemma {:induction false} WithoutRemoves(rs: seq<Record>, id: AgentId)
    ensures forall r :: r in Without(rs, id) <==> r in rs && r.id != id
  {
    if rs != [] {
      var n := |rs| - 1;
      WithoutRemoves(rs[..n], id);
      assert rs == rs[..n] + [rs[n]];
    }
  }

  /** Main result: an agent that is not the main one is gone when it has been removed, and
      nobody else; a main agent stays, and directories always do. */
  lemma RemovedIsGone(s: State, id: AgentId)
    ensures var s' := ApplyAll(s, RemoveEffects(s, id));
            && s'.homes == s.homes && s'.memories == s.memories
            && (forall r :: r in s'.records <==> r in s.records && (r.id != id || IsMain(s.records, id)))
  {
    WithoutRemoves(s.records, id);
    ApplyOne(s, Delete(id));
    NoEffects(s);
    hide ApplyAll;
  }

  // ---- Runs ----

  datatype Op =
    | Create(id: AgentId, d: Disk)
    | EnsureMain(id: AgentId, d: Disk)
    | Sync(entries: seq<Entry>)
    | Sweep(disk: AgentId -> Disk)
    | Remove(id: AgentId)

  ghost function Effects(s: State, op: Op): seq<Effect> {
    match op
    case Create(id, d) => CreateEffects(id, SelfBuilt, None, d)
    case EnsureMain(id, d) => EnsureMainEffects(s, id, d)
    case Sync(entries) => SyncEffects(s.records, entries)
    case Sweep(disk) => SweepEffects(s.records, disk)
    case Remove(id) => RemoveEffects(s, id)
  }

  /** Ids are drawn anew, and the configured projects differ. */
  ghost predicate Enabled(s: State, op: Op) {
    match op
    case Create(id, _) => !HasId(s.records, id)
    case EnsureMain(id, _) => !HasId(s.records, id)
    case Sync(entries) => AreNew(s, entries) && AreUnmirrored(s, s.records, entries)
    case _ => true
  }

  lemma OpIsOrderly(s: State, op: Op)
    requires Enabled(s, op)
    ensures AreOrderly(s, Effects(s, op))
  {
    hide SyncEffects, SweepEffects, CreateEffects;
    match op
    case Create(id, d) => CreateIsOrderly(s, id, SelfBuilt, None, d);
    case EnsureMain(id, d) =>
      if !HasMain(s) {
        CreateIsOrderly(s, id, Main, None, d);
      }
    case Sync(entries) => SyncIsOrderly(s, s.records, entries);
    case Sweep(disk) => SweepIsOrderly(s, s.records, disk);
    case Remove(id) =>
      OrderlyOne(s, Delete(id));
  }

  /** One operation, and how many effects the process lives to see of it. */
  datatype Event = Event(op: Op, life: nat)

  ghost function Outcome(s: State, e: Event): State {
    ApplyAll(s, Cut(Effects(s, e.op), e.life))
  }

  ghost predicate CanRun(s: State, events: seq<Event>)
    decreases |events|
  {
    events == [] || (Enabled(s, events[0].op) && CanRun(Outcome(s, events[0]), events[1..]))
  }

  ghost function Run(s: State, events: seq<Event>): State
    requires CanRun(s, events)
    decreases |events|
  {
    if events == [] then s else Run(Outcome(s, events[0]), events[1..])
  }

  lemma EventKeeps(s: State, e: Event)
    requires Inv(s) && Enabled(s, e.op)
    ensures Inv(Outcome(s, e))
  {
    hide Inv, Enabled, AreOrderly, ApplyAll, Effects;
    var es := Effects(s, e.op);
    OpIsOrderly(s, e.op);
    OrderlyPrefix(s, es, if e.life < |es| then e.life else |es|);
    assert es[..|es|] == es;
    OrderlyKeeps(s, Cut(es, e.life));
  }

  const OPENING := State([], {}, {})

  lemma {:induction false} CrashesKeep(s: State, events: seq<Event>)
    requires Inv(s) && CanRun(s, events)
    ensures Inv(Run(s, events))
    decreases |events|
  {
    hide Inv, Enabled, Outcome;
    if events != [] {
      EventKeeps(s, events[0]);
      CrashesKeep(Outcome(s, events[0]), events[1..]);
    }
  }

  /** Main result: over any number of boots from an empty table, with the process
      dying between any two effects and the disk failing anywhere, an active agent
      always has its home and its memory directory, there is at most one main
      agent, and no project is mirrored twice. */
  lemma BootsAreSafe(events: seq<Event>)
    requires CanRun(OPENING, events)
    ensures var end := Run(OPENING, events);
            && ActiveHaveDirectories(end) && UniqueIds(end.records)
            && OneMain(end.records) && OneEach(end.records)
  {
    assert Inv(OPENING);
    CrashesKeep(OPENING, events);
  }

  // ---- The sweep settles everything ----

  function Settled(r: Record, disk: AgentId -> Disk): Record {
    if r.status.Provisioning? then r.(status := if Fine(disk(r.id)) then Active else Failed) else r
  }

  /** Main result: a sweep that runs to its end leaves no record provisioning. Each
      of them is active or failed, as its directories could be made or not, and no
      other record has changed. */
  lemma SweepSettlesAll(s: State, disk: AgentId -> Disk)
    requires UniqueIds(s.records)
    ensures var rs := ApplyAll(s, SweepEffects(s.records, disk)).records;
            && |rs| == |s.records|
            && (forall i :: 0 <= i < |rs| ==> rs[i] == Settled(s.records[i], disk) && !rs[i].status.Provisioning?)
  {
    SweepSettlesFirst(s, disk, |s.records|);
    assert s.records[..|s.records|] == s.records;
  }

  /** The first m records are settled, the others as they were. */
  ghost predicate SettledUpTo(rs0: seq<Record>, rs: seq<Record>, disk: AgentId -> Disk, m: nat) {
    && |rs| == |rs0|
    && (forall i :: 0 <= i < m <= |rs| ==> rs[i] == Settled(rs0[i], disk))
    && (forall i :: m <= i < |rs| ==> rs[i] == rs0[i])
  }

  lemma OneMoreSettled(rs0: seq<Record>, rs: seq<Record>, disk: AgentId -> Disk, m: nat)
    requires UniqueIds(rs0) && m < |rs0| && SettledUpTo(rs0, rs, disk, m)
    ensures var r := rs0[m];
            var to := if Fine(disk(r.id)) then Active else Failed;
            SettledUpTo(rs0, if r.status.Provisioning? then TurnAll(rs, r.id, Provisioning, to) else rs, disk, m + 1)
  {
    hide Fine;
  }

  lemma {:induction false} SweepSettlesFirst(s: State, disk: AgentId -> Disk, n: nat)
    requires UniqueIds(s.records) && n <= |s.records|
    ensures SettledUpTo(s.records, ApplyAll(s, SweepEffects(s.records[..n], disk)).records, disk, n)
  {
    hide SweepOne, Fine, UniqueIds;
    if n > 0 {
      var es, r := SweepEffects(s.records[..n - 1], disk), s.records[n - 1];
      SweepSettlesFirst(s, disk, n - 1);
      assert s.records[..n][..n - 1] == s.records[..n - 1];
      ApplyConcat(s, es, SweepOne(r, disk(r.id)));
      SweepOneIsOrderly(ApplyAll(s, es), r, disk(r.id));
      hide ApplyAll, SweepEffects, SettledUpTo;
      OneMoreSettled(s.records, ApplyAll(s, es).records, disk, n - 1);
    } else {
      assert s.records[..0] == [];
    }
  }

  /** And its report splits them exactly. */
  lemma {:induction false} ReportIsExact(rs: seq<Record>, disk: AgentId -> Disk, id: AgentId)
    ensures id in Report(rs, disk).activated <==>
              exists i :: 0 <= i < |rs| && rs[i].id == id && rs[i].status.Provisioning? && Fine(disk(id))
    ensures id in Report(rs, disk).failed <==>
              exists i :: 0 <= i < |rs| && rs[i].id == id && rs[i].status.Provisioning? && !Fine(disk(id))
  {
    hide Fine;
    if rs != [] {
      var n := |rs| - 1;
      ReportIsExact(rs[..n], disk, id);
      assert forall i :: 0 <= i < n ==> rs[..n][i] == rs[i];
      hide Report;
      ReportGrows(rs, disk);
    }
  }

  lemma ReportGrows(rs: seq<Record>, disk: AgentId -> Disk)
    requires rs != []
    ensures var before, after, r := Report(rs[..|rs| - 1], disk), Report(rs, disk), rs[|rs| - 1];
            && after.activated == before.activated + (if r.status.Provisioning? && Fine(disk(r.id)) then [r.id] else [])
            && after.failed == before.failed + (if r.status.Provisioning? && !Fine(disk(r.id)) then [r.id] else [])
  {
  }

  // ---- A main agent that failed ----

  /** No operation touches a failed main agent. */
  ghost predicate Spares(m: Record, es: seq<Effect>) {
    forall i :: 0 <= i < |es| ==>
      match es[i]
      case Upsert(r) => r.id != m.id
      case Delete(id) => id != m.id
      case Turn(_, was, _) => was.Provisioning?
      case _ => true
  }

  lemma {:induction false} SparedStays(s: State, m: Record, es: seq<Effect>)
    requires m in s.records && m.status.Failed? && Spares(m, es)
    ensures m in ApplyAll(s, es).records
  {
    if es != [] {
      var n := |es| - 1;
      SparedStays(s, m, es[..n]);
      var rs, e := ApplyAll(s, es[..n]).records, es[n];
      hide ApplyAll;
      if e.Turn? {
        var i :| 0 <= i < |rs| && rs[i] == m;
        assert TurnAll(rs, e.id, e.was, e.to)[i] == m;
      } else if e.Upsert? {
        WithoutMembers(rs, e.record.id);
      } else if e.Delete? {
        WithoutMembers(rs, e.id);
      }
    }
  }

  lemma SparesConcat(m: Record, a: seq<Effect>, b: seq<Effect>)
    requires Spares(m, a) && Spares(m, b)
    ensures Spares(m, a + b)
  {
  }

  lemma CreateSpares(m: Record, id: AgentId, kind: Kind, project: Option<string>, d: Disk)
    requires id != m.id
    ensures Spares(m, CreateEffects(id, kind, project, d))
  {
  }

  lemma {:induction false} SyncSpares(s: State, m: Record, known: seq<Record>, entries: seq<Entry>)
    requires m in s.records && AreNew(s, entries)
    ensures Spares(m, SyncEffects(known, entries))
    decreases |entries|
  {
    hide ApplyAll, CreateEffects, Knows, Fine;
    if entries == [] {
      assert Spares(m, []);
    } else {
      var e := entries[0];
      assert HasId(s.records, m.id);
      NewcomersStay(s, entries);
      hide AreNew, HasId, Spares;
      SyncSpares(s, m, known, entries[1..]);
      CreateSpares(m, e.id, Project, Some(e.project), e.disk);
      NothingSpares(m);
      SparesConcat(m, CreateEffects(e.id, Project, Some(e.project), e.disk),
                   if Fine(e.disk) then SyncEffects(known, entries[1..]) else []);
    }
  }

  lemma NothingSpares(m: Record)
    ensures Spares(m, [])
  {
  }

  lemma {:induction false} SweepSpares(m: Record, rs: seq<Record>, disk: AgentId -> Disk)
    ensures Spares(m, SweepEffects(rs, disk))
  {
    if rs != [] {
      SweepSpares(m, rs[..|rs| - 1], disk);
    }
  }

  lemma OpSpares(s: State, m: Record, op: Op)
    requires m in s.records && m.kind.Main? && Enabled(s, op)
    ensures Spares(m, Effects(s, op))
  {
    assert HasId(s.records, m.id);
    match op
    case Sync(entries) => SyncSpares(s, m, s.records, entries);
    case Sweep(disk) => SweepSpares(m, s.records, disk);
    case Create(id, d) =>
    case EnsureMain(id, d) =>
    case Remove(id) =>
      var i :| 0 <= i < |s.records| && s.records[i] == m;
  }

  /** Main result: a main agent whose directories could not be made when it was swept
      stays failed for good: seeding returns it as it is, the sweep passes it by,
      and it cannot be removed. */
  lemma {:induction false} FailedMainIsForGood(s: State, events: seq<Event>, m: Record)
    requires CanRun(s, events) && m in s.records && m.kind.Main? && m.status.Failed?
    ensures m in Run(s, events).records
    decreases |events|
  {
    hide Enabled, Effects, ApplyAll;
    if events != [] {
      var es := Effects(s, events[0].op);
      OpSpares(s, m, events[0].op);
      SparedStays(s, m, Cut(es, events[0].life));
      FailedMainIsForGood(Outcome(s, events[0]), events[1..], m);
    }
  }

  // ---- Projects named twice ----

  function Mirrors(rs: seq<Record>, p: string): nat {
    if rs == [] then 0
    else Mirrors(rs[..|rs| - 1], p)
         + (if rs[|rs| - 1].kind.Project? && rs[|rs| - 1].project == Some(p) then 1 else 0)
  }

  function Mentions(entries: seq<Entry>, p: string): nat {
    if entries == [] then 0 else (if entries[0].project == p then 1 else 0) + Mentions(entries[1..], p)
  }

  /** Main result: a round that goes through opens one agent for every mention of a
      project that was not known when it began, so a project that is new and named
      twice is mirrored twice, and nothing else is. */
  lemma {:induction false} EveryMentionIsMirrored(s: State, known: seq<Record>, entries: seq<Entry>, p: string)
    requires AreNew(s, entries) && forall i :: 0 <= i < |entries| ==> entries[i].usable && Fine(entries[i].disk)
    ensures Mirrors(ApplyAll(s, SyncEffects(known, entries)).records, p)
         == Mirrors(s.records, p) + (if Knows(known, p) then 0 else Mentions(entries, p))
    decreases |entries|
  {
    hide ApplyAll, CreateEffects, Fine, Knows;
    if entries == [] {
      assert ApplyAll(s, []) == s by { NoEffects(s); }
    } else {
      var e, rest := entries[0], entries[1..];
      NewcomersStay(s, entries);
      hide AreNew;
      if Knows(known, e.project) {
        EveryMentionIsMirrored(s, known, rest, p);
      } else {
        var es := CreateEffects(e.id, Project, Some(e.project), e.disk);
        var s' := ApplyAll(s, es);
        CreateAdds(s, e.id, Project, Some(e.project), e.disk);
        MirrorMore(s.records, s'.records[|s.records|], p);
        EveryMentionIsMirrored(s', known, rest, p);
        ApplyConcat(s, es, SyncEffects(known, rest));
      }
    }
  }

  lemma MirrorMore(rs: seq<Record>, r: Record, p: string)
    ensures Mirrors(rs + [r], p) == Mirrors(rs, p) + (if r.kind.Project? && r.project == Some(p) then 1 else 0)
  {
    assert (rs + [r])[..|rs|] == rs;
  }

  lemma NoEffects(s: State)
    ensures ApplyAll(s, []) == s
  {
  }

  // ---- Runs that break a promise ----

  const SOUND := Disk(true, true)

  const FULL := Disk(false, false)

  function Everywhere(d: Disk): AgentId -> Disk {
    _ => d
  }

  function HalfMade(id: AgentId): State {
    State([NewRecord(id, Main, None)], {}, {})
  }

  lemma RecordedAndDied(id: AgentId)
    ensures Enabled(OPENING, EnsureMain(id, SOUND))
    ensures Outcome(OPENING, Event(EnsureMain(id, SOUND), 1)) == HalfMade(id)
  {
    var up := Upsert(NewRecord(id, Main, None));
    assert !HasMain(OPENING);
    assert Cut(Effects(OPENING, EnsureMain(id, SOUND)), 1) == [up];
    ApplyOne(OPENING, up);
  }

  lemma SweptToFailed(id: AgentId)
    ensures Enabled(HalfMade(id), Sweep(Everywhere(FULL)))
    ensures Outcome(HalfMade(id), Event(Sweep(Everywhere(FULL)), 1)).records == [Record(id, Main, Failed, None)]
  {
    var s, t := HalfMade(id), Turn(id, Provisioning, Failed);
    assert s.records[..0] == [];
    assert SweepEffects(s.records, Everywhere(FULL)) == SweepEffects([], Everywhere(FULL)) + [t];
    assert Cut(Effects(s, Sweep(Everywhere(FULL))), 1) == [t];
    ApplyOne(s, t);
  }

  /** The process dies after the record of the main agent is written, and the sweep of
      the next boot meets a disk on which nothing can be made. */
  lemma MainAgentFails(id: AgentId) returns (events: seq<Event>)
    ensures CanRun(OPENING, events)
    ensures Run(OPENING, events).records == [Record(id, Main, Failed, None)]
  {
    RecordedAndDied(id);
    SweptToFailed(id);
    hide Outcome, Enabled, HalfMade;
    var first, second := Event(EnsureMain(id, SOUND), 1), Event(Sweep(Everywhere(FULL)), 1);
    events := [first, second];
    var end := Outcome(HalfMade(id), second);
    assert events[1..] == [second] && events[1..][1..] == [];
    assert CanRun(end, []) && Run(end, []) == end;
    assert CanRun(HalfMade(id), events[1..]) && Run(HalfMade(id), events[1..]) == end;
  }

  /** A configuration that names one new project twice: two agents for it. */
  lemma NamedTwice(p: string, a: AgentId, b: AgentId)
    requires a != b
    ensures var entries := [Entry(p, true, a, SOUND), Entry(p, true, b, SOUND)];
            Mirrors(ApplyAll(OPENING, SyncEffects([], entries)).records, p) == 2
  {
    var entries := [Entry(p, true, a, SOUND), Entry(p, true, b, SOUND)];
    EveryMentionIsMirrored(OPENING, [], entries, p);
    assert entries[1..] == [Entry(p, true, b, SOUND)] && entries[1..][1..] == [];
    assert Mentions(entries, p) == 1 + Mentions(entries[1..], p);
  }
}
