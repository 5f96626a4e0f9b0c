/** Persistent agents: a record is written as provisioning, its directories are
    made, and only then it turns active. The process may die between any two of
    these effects; a sweep at the next start settles what was left half done. */
module AgentProvisioning {
  import opened Wrappers

  type AgentId = string

  datatype Kind = Main | Project | SelfBuilt

  datatype Status = Provisioning | Active | Failed

  datatype Record = Record(id: AgentId, kind: Kind, status: Status, project: Option<string>)

  /** The records in the order of the table, and the directories on disk. */
  datatype State = State(records: seq<Record>, homes: set<AgentId>, memories: set<AgentId>)

  /** What is done to the table and the disk, one piece at a time. */
  datatype Effect =
    | Upsert(record: Record)
    | MakeHome(id: AgentId)
    | MakeMemory(id: AgentId)
    | Turn(id: AgentId, was: Status, to: Status)
    | Delete(id: AgentId)

  function Turned(r: Record, id: AgentId, was: Status, to: Status): Record {
    if r.id == id && r.status == was then r.(status := to) else r
  }

  function TurnAll(rs: seq<Record>, id: AgentId, was: Status, to: Status): seq<Record> {
    seq(|rs|, i requires 0 <= i < |rs| => Turned(rs[i], id, was, to))
  }

  function Without(rs: seq<Record>, id: AgentId): seq<Record> {
    if rs == [] then []
    else Without(rs[..|rs| - 1], id) + (if rs[|rs| - 1].id == id then [] else [rs[|rs| - 1]])
  }

  function Apply(s: State, e: Effect): State {
    match e
    case Upsert(r) => s.(records := Without(s.records, r.id) + [r])
    case MakeHome(id) => s.(homes := s.homes + {id})
    case MakeMemory(id) => s.(memories := s.memories + {id})
    case Turn(id, was, to) => s.(records := TurnAll(s.records, id, was, to))
    case Delete(id) => s.(records := Without(s.records, id))
  }

  function ApplyAll(s: State, es: seq<Effect>): State {
    if es == [] then s else Apply(ApplyAll(s, es[..|es| - 1]), es[|es| - 1])
  }

  // ---- The operations, as the effects they have ----

  /** Whether the disk lets the two directories of an agent be made. */
  datatype Disk = Disk(home: bool, memory: bool)

  function MaterializeEffects(id: AgentId, d: Disk): seq<Effect> {
    if !d.home then [] else if !d.memory then [MakeHome(id)] else [MakeHome(id), MakeMemory(id)]
  }

  predicate Fine(d: Disk) {
    d.home && d.memory
  }

  function NewRecord(id: AgentId, kind: Kind, project: Option<string>): Record {
    Record(id, kind, Provisioning, project)
  }

  function CreateEffects(id: AgentId, kind: Kind, project: Option<string>, d: Disk): seq<Effect> {
    [Upsert(NewRecord(id, kind, project))] + MaterializeEffects(id, d)
    + (if Fine(d) then [Turn(id, Provisioning, Active)] else [])
  }

  predicate HasMain(s: State) {
    exists i :: 0 <= i < |s.records| && s.records[i].kind.Main?
  }

  function EnsureMainEffects(s: State, id: AgentId, d: Disk): seq<Effect> {
    if HasMain(s) then [] else CreateEffects(id, Main, None, d)
  }

  predicate Knows(rs: seq<Record>, project: string) {
    exists i :: 0 <= i < |rs| && rs[i].kind.Project? && rs[i].project == Some(project)
  }

  /** A configured project, whether its directory is usable, and the id and the disk
      its agent would meet. */
  datatype Entry = Entry(project: string, usable: bool, id: AgentId, disk: Disk)

  /** Entries are taken in order, against the projects known at the start; the first
      that fails ends the round. */
  function SyncEffects(known: seq<Record>, entries: seq<Entry>): seq<Effect>
    decreases |entries|
  {
    if entries == [] then []
    else
      var e := entries[0];
      if Knows(known, e.project) then SyncEffects(known, entries[1..])
      else if !e.usable then []
      else
        CreateEffects(e.id, Project, Some(e.project), e.disk)
        + (if Fine(e.disk) then SyncEffects(known, entries[1..]) else [])
  }

  function SyncReply(known: seq<Record>, entries: seq<Entry>): Reply
    decreases |entries|
  {
    if entries == [] then Done
    else if Knows(known, entries[0].project) then SyncReply(known, entries[1..])
    else if !entries[0].usable then ConfigError
    else if Fine(entries[0].disk) then SyncReply(known, entries[1..])
    else DiskError
  }

  function SweepOne(r: Record, d: Disk): seq<Effect> {
    if !r.status.Provisioning? then []
    else MaterializeEffects(r.id, d) + [Turn(r.id, Provisioning, if Fine(d) then Active else Failed)]
  }

  function SweepEffects(rs: seq<Record>, disk: AgentId -> Disk): seq<Effect> {
    if rs == [] then []
    else SweepEffects(rs[..|rs| - 1], disk) + SweepOne(rs[|rs| - 1], disk(rs[|rs| - 1].id))
  }

  predicate IsMain(rs: seq<Record>, id: AgentId) {
    exists i :: 0 <= i < |rs| && rs[i].id == id && rs[i].kind.Main?
  }

  function RemoveEffects(s: State, id: AgentId): seq<Effect> {
    if IsMain(s.records, id) then [] else [Delete(id)]
  }

  // ---- The manager, with a life that may end at any effect ----

  datatype Reply = Done | DiskError | ConfigError | Died

  datatype SweepReport = SweepReport(activated: seq<AgentId>, failed: seq<AgentId>)

  function Cut(es: seq<Effect>, life: nat): seq<Effect> {
    if life < |es| then es[..life] else es
  }

  function Spent(es: seq<Effect>, life: nat): nat {
    if life < |es| then 0 else life - |es|
  }

  lemma {:induction false} ApplyConcat(s: State, a: seq<Effect>, b: seq<Effect>)
    ensures ApplyAll(s, a + b) == ApplyAll(ApplyAll(s, a), b)
  {
    hide Apply;
    if b == [] {
      assert a + b == a;
    } else {
      var n := |b| - 1;
      assert (a + b)[..|a| + n] == a + b[..n];
      ApplyConcat(s, a, b[..n]);
    }
  }

  /** What two stretches of effects leave, one after the other, in one life. */
  lemma CutConcat(s: State, a: seq<Effect>, b: seq<Effect>, life: nat)
    ensures life >= |a| ==>
              && ApplyAll(s, Cut(a + b, life)) == ApplyAll(ApplyAll(s, a), Cut(b, life - |a|))
              && Spent(a + b, life) == Spent(b, life - |a|)
    ensures life < |a| ==> Cut(a + b, life) == Cut(a, life) && Spent(a + b, life) == 0
  {
    hide ApplyAll;
    if life >= |a| {
      assert Cut(a + b, life) == a + Cut(b, life - |a|);
      ApplyConcat(s, a, Cut(b, life - |a|));
    } else {
      assert (a + b)[..life] == a[..life];
    }
  }

  /** A life that began in s0 has seen what it could of the effects es. */
  ghost predicate Lived(s0: State, life0: nat, es: seq<Effect>, s: State, life: nat) {
    s == ApplyAll(s0, Cut(es, life0)) && life == Spent(es, life0)
  }

  lemma LivedOn(s0: State, life0: nat, a: seq<Effect>, s: State, life: nat, b: seq<Effect>, s': State, life': nat)
    requires Lived(s0, life0, a, s, life) && |a| <= life0 && Lived(s, life, b, s', life')
    ensures Lived(s0, life0, a + b, s', life')
  {
    CutConcat(s0, a, b, life0);
  }

  lemma LivedNoMore(s0: State, life0: nat, a: seq<Effect>, s: State, life: nat, b: seq<Effect>)
    requires Lived(s0, life0, a, s, life) && life0 < |a|
    ensures Lived(s0, life0, a + b, s, life)
  {
    CutConcat(s0, a, b, life0);
  }

  lemma NothingLived(s: State, life: nat)
    ensures Lived(s, life, [], s, life)
  {
  }

  lemma OneLived(s: State, life: nat, e: Effect)
    ensures Lived(s, life, [e], if life > 0 then Apply(s, e) else s, Spent([e], life))
  {
    assert [e][..0] == [];
    assert ApplyAll(s, [e]) == Apply(ApplyAll(s, [e][..0]), e);
    assert ApplyAll(s, []) == s;
  }

  lemma LifeLeft(s0: State, life0: nat, es: seq<Effect>, s: State, life: nat)
    requires Lived(s0, life0, es, s, life) && |es| <= life0
    ensures life == life0 - |es|
  {
  }

  function Report(rs: seq<Record>, disk: AgentId -> Disk): SweepReport {
    if rs == [] then SweepReport([], [])
    else
      var before, r := Report(rs[..|rs| - 1], disk), rs[|rs| - 1];
      if !r.status.Provisioning? then before
      else if Fine(disk(r.id)) then before.(activated := before.activated + [r.id])
      else before.(failed := before.failed + [r.id])
  }

  lemma SweepGoesOn(rs: seq<Record>, disk: AgentId -> Disk, i: nat)
    requires i < |rs|
    ensures SweepEffects(rs[..i + 1], disk) == SweepEffects(rs[..i], disk) + SweepOne(rs[i], disk(rs[i].id))
  {
    hide SweepOne;
    assert rs[..i + 1][..i] == rs[..i];
  }

  lemma {:induction false} MoreSweeps(s0: State, l0: nat, rs: seq<Record>, disk: AgentId -> Disk, i: nat,
                                      s: State, l: nat)
    requires i <= |rs| && l0 < |SweepEffects(rs[..i], disk)| && Lived(s0, l0, SweepEffects(rs[..i], disk), s, l)
    ensures Lived(s0, l0, SweepEffects(rs, disk), s, l) && l0 < |SweepEffects(rs, disk)|
    decreases |rs| - i
  {
    hide Lived, SweepOne;
    if i == |rs| {
      assert rs[..i] == rs;
    } else {
      SweepGoesOn(rs, disk, i);
      LivedNoMore(s0, l0, SweepEffects(rs[..i], disk), s, l, SweepOne(rs[i], disk(rs[i].id)));
      MoreSweeps(s0, l0, rs, disk, i + 1, s, l);
    }
  }

  class AgentManager {
    var records: seq<Record>
    var homes: set<AgentId>
    var memories: set<AgentId>
    /** How many effects the process still lives to see. */
    var life: nat

    ghost function Value(): State
      reads this
    {
      State(records, homes, memories)
    }

    method Do(e: Effect) returns (alive: bool)
      modifies this
      ensures alive == (old(life) > 0) && life == Spent([e], old(life))
      ensures Value() == if alive then Apply(old(Value()), e) else old(Value())
    {
      alive := life > 0;
      if alive {
        life := life - 1;
        match e {
          case Upsert(r) => records := Without(records, r.id) + [r];
          case MakeHome(id) => homes := homes + {id};
          case MakeMemory(id) => memories := memories + {id};
          case Turn(id, was, to) => records := TurnAll(records, id, was, to);
          case Delete(id) => records := Without(records, id);
        }
      }
    }

    method MaterializeHome(id: AgentId, d: Disk) returns (r: Reply)
      modifies this
      ensures Lived(old(Value()), old(life), MaterializeEffects(id, d), Value(), life)
      ensures r.Died? <==> old(life) < |MaterializeEffects(id, d)|
      ensures !r.Died? ==> r == if Fine(d) then Done else DiskError
    {
      hide Lived, Apply;
      ghost var s0, l0 := Value(), life;
      NothingLived(s0, l0);
      assert [MakeHome(id)] + [MakeMemory(id)] == [MakeHome(id), MakeMemory(id)];
      if !d.home { return DiskError; }
      OneLived(s0, l0, MakeHome(id));
      var alive := Do(MakeHome(id));
      ghost var s1, l1 := Value(), life;
      if !alive {
        LivedNoMore(s0, l0, [MakeHome(id)], s1, l1, [MakeMemory(id)]);
        return Died;
      }
      if !d.memory { return DiskError; }
      OneLived(s1, l1, MakeMemory(id));
      alive := Do(MakeMemory(id));
      LivedOn(s0, l0, [MakeHome(id)], s1, l1, [MakeMemory(id)], Value(), life);
      r := if alive then Done else Died;
    }

    method Provision(id: AgentId, kind: Kind, project: Option<string>, d: Disk) returns (r: Reply)
      modifies this
      ensures Lived(old(Value()), old(life), CreateEffects(id, kind, project, d), Value(), life)
      ensures r.Died? <==> old(life) < |CreateEffects(id, kind, project, d)|
      ensures !r.Died? ==> r == if Fine(d) then Done else DiskError
    {
      hide Lived, Apply;
      var up := Upsert(NewRecord(id, kind, project));
      ghost var s0, l0 := Value(), life;
      ghost var mat := MaterializeEffects(id, d);
      ghost var fin := if Fine(d) then [Turn(id, Provisioning, Active)] else [];
      assert CreateEffects(id, kind, project, d) == ([up] + mat) + fin;
      OneLived(s0, l0, up);
      var alive := Do(up);
      ghost var s1, l1 := Value(), life;
      if !alive {
        LivedNoMore(s0, l0, [up], s1, l1, mat);
        LivedNoMore(s0, l0, [up] + mat, s1, l1, fin);
        return Died;
      }
      r := MaterializeHome(id, d);
      ghost var s2, l2 := Value(), life;
      LifeLeft(s0, l0, [up], s1, l1);
      LivedOn(s0, l0, [up], s1, l1, mat, s2, l2);
      if r.Died? {
        LivedNoMore(s0, l0, [up] + mat, s2, l2, fin);
        return;
      }
      if r.DiskError? {
        assert [up] + mat + [] == [up] + mat;
        return;
      }
      LifeLeft(s0, l0, [up] + mat, s2, l2);
      OneLived(s2, l2, Turn(id, Provisioning, Active));
      alive := Do(Turn(id, Provisioning, Active));
      LivedOn(s0, l0, [up] + mat, s2, l2, fin, Value(), life);
      r := if alive then Done else Died;
    }

    method CreateAgent(id: AgentId, d: Disk) returns (r: Reply)
      modifies this
      ensures Lived(old(Value()), old(life), CreateEffects(id, SelfBuilt, None, d), Value(), life)
      ensures r.Died? <==> old(life) < |CreateEffects(id, SelfBuilt, None, d)|
      ensures !r.Died? ==> r == if Fine(d) then Done else DiskError
    {
      r := Provision(id, SelfBuilt, None, d);
    }

    method EnsureMainAgent(id: AgentId, d: Disk) returns (r: Reply)
      modifies this
      ensures Lived(old(Value()), old(life), EnsureMainEffects(old(Value()), id, d), Value(), life)
      ensures r.Died? <==> old(life) < |EnsureMainEffects(old(Value()), id, d)|
      ensures !r.Died? ==> r == if HasMain(old(Value())) || Fine(d) then Done else DiskError
    {
      if exists i :: 0 <= i < |records| && records[i].kind.Main? {
        NothingLived(Value(), life);
        return Done;
      }
      r := Provision(id, Main, None, d);
    }

    method SyncProjectAgents(entries: seq<Entry>) returns (r: Reply)
      modifies this
      ensures Lived(old(Value()), old(life), SyncEffects(old(records), entries), Value(), life)
      ensures r.Died? <==> old(life) < |SyncEffects(old(records), entries)|
      ensures !r.Died? ==> r == SyncReply(old(records), entries)
    {
      hide Lived, CreateEffects, Fine;
      var known := records;
      ghost var s0, l0 := Value(), life;
      ghost var seen: seq<Effect> := [];
      NothingLived(s0, l0);
      assert entries[0..] == entries;
      for i := 0 to |entries|
        invariant Lived(s0, l0, seen, Value(), life) && |seen| <= l0
        invariant seen + SyncEffects(known, entries[i..]) == SyncEffects(known, entries)
        invariant SyncReply(known, entries[i..]) == SyncReply(known, entries)
      {
        var e := entries[i];
        ghost var rest := entries[i + 1..];
        assert entries[i..][1..] == rest && entries[i..][0] == e;
        if Knows(known, e.project) { continue; }
        if !e.usable {
          assert seen + [] == seen;
          return ConfigError;
        }
        ghost var es := CreateEffects(e.id, Project, Some(e.project), e.disk);
        ghost var s1, l1 := Value(), life;
        r := Provision(e.id, Project, Some(e.project), e.disk);
        LivedOn(s0, l0, seen, s1, l1, es, Value(), life);
        LifeLeft(s0, l0, seen, s1, l1);
        ghost var after := if Fine(e.disk) then SyncEffects(known, rest) else [];
        assert seen + (es + after) == (seen + es) + after;
        if r.Died? {
          LivedNoMore(s0, l0, seen + es, Value(), life, after);
          return;
        }
        if r.DiskError? {
          assert (seen + es) + [] == seen + es;
          return;
        }
        seen := seen + es;
      }
      assert entries[|entries|..] == [] && seen + [] == seen;
      r := Done;
    }

    method Sweep(disk: AgentId -> Disk) returns (r: Reply, report: SweepReport)
      modifies this
      ensures Lived(old(Value()), old(life), SweepEffects(old(records), disk), Value(), life)
      ensures r.Done? <==> |SweepEffects(old(records), disk)| <= old(life)
      ensures r.Done? ==> report == Report(old(records), disk)
    {
      hide Lived, MaterializeEffects, Fine;
      var all := records;
      ghost var s0, l0 := Value(), life;
      report := SweepReport([], []);
      NothingLived(s0, l0);
      for i := 0 to |all|
        invariant Lived(s0, l0, SweepEffects(all[..i], disk), Value(), life)
        invariant |SweepEffects(all[..i], disk)| <= l0 && report == Report(all[..i], disk)
      {
        var rec := all[i];
        assert all[..i + 1][..i] == all[..i];
        ghost var seen, one := SweepEffects(all[..i], disk), SweepOne(rec, disk(rec.id));
        SweepGoesOn(all, disk, i);
        if !rec.status.Provisioning? {
          assert seen + [] == seen;
          continue;
        }
        r := SweepRecord(rec, disk(rec.id), s0, l0, seen);
        if r.Died? {
          MoreSweeps(s0, l0, all, disk, i + 1, Value(), life);
          return;
        }
        if Fine(disk(rec.id)) {
          report := report.(activated := report.activated + [rec.id]);
        } else {
          report := report.(failed := report.failed + [rec.id]);
        }
      }
      assert all[..|all|] == all;
      r := Done;
    }

    method SweepRecord(rec: Record, d: Disk, ghost s0: State, ghost l0: nat, ghost seen: seq<Effect>) returns (r: Reply)
      requires rec.status.Provisioning? && Lived(s0, l0, seen, Value(), life) && |seen| <= l0
      modifies this
      ensures Lived(s0, l0, seen + SweepOne(rec, d), Value(), life)
      ensures r.Died? <==> l0 < |seen + SweepOne(rec, d)|
    {
      hide Lived, MaterializeEffects;
      ghost var s1, l1, mat := Value(), life, MaterializeEffects(rec.id, d);
      LifeLeft(s0, l0, seen, s1, l1);
      r := MaterializeHome(rec.id, d);
      var fin := Turn(rec.id, Provisioning, if Fine(d) then Active else Failed);
      assert seen + (mat + [fin]) == (seen + mat) + [fin];
      LivedOn(s0, l0, seen, s1, l1, mat, Value(), life);
      if r.Died? {
        LivedNoMore(s0, l0, seen + mat, Value(), life, [fin]);
        return;
      }
      ghost var s2, l2 := Value(), life;
      LifeLeft(s0, l0, seen + mat, s2, l2);
      OneLived(s2, l2, fin);
      var alive := Do(fin);
      LivedOn(s0, l0, seen + mat, s2, l2, [fin], Value(), life);
      r := if alive then Done else Died;
    }

    method Remove(id: AgentId) returns (r: Reply)
      modifies this
      ensures Lived(old(Value()), old(life), RemoveEffects(old(Value()), id), Value(), life)
      ensures r.ConfigError? <==> IsMain(old(records), id)
      ensures r.Died? <==> !IsMain(old(records), id) && old(life) == 0
      ensures r.Done? || r.ConfigError? || r.Died?
    {
      if exists i :: 0 <= i < |records| && records[i].id == id && records[i].kind.Main? {
        NothingLived(Value(), life);
        return ConfigError;
      }
      OneLived(Value(), life, Delete(id));
      var alive := Do(Delete(id));
      r := if alive then Done else Died;
    }
  }
}
