/** A panel of checkers votes on a delivery; the valid outputs are folded into
    one review. */
module PanelVote {
  import opened Wrappers
  import opened Text

  datatype Verdict = Pass | Fail | Unsure

  datatype Review = Review(verdict: Verdict, reasons: seq<string>, gap: string, experience: Option<string>,
                           needEvidence: Option<bool>, evidenceRequest: Option<string>)

  // ---- The verdict ----

  function Votes(outputs: seq<Review>, v: Verdict): nat {
    if outputs == [] then 0
    else Votes(outputs[..|outputs| - 1], v) + (if outputs[|outputs| - 1].verdict == v then 1 else 0)
  }

  function Tally(outputs: seq<Review>): Verdict {
    if Votes(outputs, Pass) * 2 > |outputs| then Pass
    else if Votes(outputs, Fail) * 2 > |outputs| then Fail
    else Unsure
  }

  // ---- The reasons ----

  function VoteNote(requested: nat, pass: nat, fail: nat, unsure: nat): string {
    Decimal(requested) + " 位检查员投票：PASS×" + Decimal(pass) + " FAIL×" + Decimal(fail) + " UNSURE×"
    + Decimal(unsure) + "（多数票裁决）"
  }

  function Notes(requested: nat, outputs: seq<Review>): seq<string> {
    var pass, fail := Votes(outputs, Pass), Votes(outputs, Fail);
    [VoteNote(requested, pass, fail, if |outputs| < pass + fail then 0 else |outputs| - pass - fail)]
    + (if |outputs| < requested then ["另有 " + Decimal(requested - |outputs|) + " 位检查员输出无效未计票"] else [])
  }

  /** Some entry reads the same once trimmed. */
  predicate Says(reasons: seq<string>, r: string) {
    exists i :: 0 <= i < |reasons| && Trim(reasons[i]) == r
  }

  function AddReason(reasons: seq<string>, raw: string): seq<string> {
    var r := Trim(raw);
    if r == "" || Says(reasons, r) then reasons else reasons + [r]
  }

  function AddReasons(reasons: seq<string>, raws: seq<string>): seq<string> {
    if raws == [] then reasons else AddReason(AddReasons(reasons, raws[..|raws| - 1]), raws[|raws| - 1])
  }

  function AllReasons(outputs: seq<Review>): seq<string> {
    if outputs == [] then [] else AllReasons(outputs[..|outputs| - 1]) + outputs[|outputs| - 1].reasons
  }

  // ---- The rest ----

  function FirstGap(outputs: seq<Review>): string {
    if outputs == [] then ""
    else if Trim(outputs[0].gap) != "" then Trim(outputs[0].gap)
    else FirstGap(outputs[1..])
  }

  function FirstExperience(outputs: seq<Review>): Option<string> {
    if outputs == [] then None
    else if outputs[0].experience.Some? then outputs[0].experience
    else FirstExperience(outputs[1..])
  }

  function FirstRequest(outputs: seq<Review>): Option<string> {
    if outputs == [] then None
    else if outputs[0].evidenceRequest.Some? && Trim(outputs[0].evidenceRequest.value) != ""
    then outputs[0].evidenceRequest
    else FirstRequest(outputs[1..])
  }

  predicate AnyNeedsEvidence(outputs: seq<Review>) {
    exists i :: 0 <= i < |outputs| && outputs[i].needEvidence == Some(true)
  }

  function Aggregate(requested: nat, outputs: seq<Review>): Review {
    var verdict := Tally(outputs);
    Review(verdict, AddReasons(Notes(requested, outputs), AllReasons(outputs)), FirstGap(outputs),
           FirstExperience(outputs),
           if verdict.Unsure? && AnyNeedsEvidence(outputs) then Some(true) else None,
           if verdict.Unsure? then FirstRequest(outputs) else None)
  }

  lemma {:induction false} AddReasonsConcat(reasons: seq<string>, a: seq<string>, b: seq<string>)
    ensures AddReasons(reasons, a + b) == AddReasons(AddReasons(reasons, a), b)
  {
    hide AddReason;
    if b == [] {
      assert a + b == a;
    } else {
      var n := |b| - 1;
      assert (a + b)[..|a| + n] == a + b[..n];
      AddReasonsConcat(reasons, a, b[..n]);
    }
  }

  /** The reasons of one output. */
  method AddReasonsOf(reasons: seq<string>, raws: seq<string>) returns (more: seq<string>)
    ensures more == AddReasons(reasons, raws)
  {
    hide Trim;
    more := reasons;
    for j := 0 to |raws|
      invariant more == AddReasons(reasons, raws[..j])
    {
      assert raws[..j + 1][..j] == raws[..j];
      var r := Trim(raws[j]);
      if r != "" && !Says(more, r) {
        more := more + [r];
      }
    }
    assert raws[..|raws|] == raws;
  }

  /** The loop over the outputs: behind the notes, each reason where it is first said. */
  method MergeReasons(notes: seq<string>, outputs: seq<Review>) returns (reasons: seq<string>)
    ensures reasons == notes + FirstSaid(AllReasons(outputs), notes) == AddReasons(notes, AllReasons(outputs))
  {
    hide AddReasons;
    reasons := notes;
    assert AddReasons(notes, []) == notes by { NoReasons(notes); }
    for i := 0 to |outputs|
      invariant reasons == AddReasons(notes, AllReasons(outputs[..i]))
    {
      assert outputs[..i + 1][..i] == outputs[..i];
      AddReasonsConcat(notes, AllReasons(outputs[..i]), outputs[i].reasons);
      reasons := AddReasonsOf(reasons, outputs[i].reasons);
    }
    assert outputs[..|outputs|] == outputs;
    ReasonsAreMergedInOrder(notes, AllReasons(outputs));
  }

  lemma NoReasons(notes: seq<string>)
    ensures AddReasons(notes, []) == notes
  {
  }

  // ---- What a vote is worth ----

  lemma {:induction false} VotesConcat(a: seq<Review>, b: seq<Review>, v: Verdict)
    ensures Votes(a + b, v) == Votes(a, v) + Votes(b, v)
  {
    if b == [] {
      assert a + b == a;
    } else {
      var n := |b| - 1;
      assert (a + b)[..|a| + n] == a + b[..n];
      VotesConcat(a, b[..n], v);
    }
  }

  lemma VoteOf(r: Review, v: Verdict)
    ensures Votes([r], v) == if r.verdict == v then 1 else 0
  {
    assert [r][..0] == [];
  }

  lemma VotesWithout(outputs: seq<Review>, v: Verdict, i: nat)
    requires i < |outputs|
    ensures Votes(outputs, v) == Votes(outputs[..i] + outputs[i + 1..], v) + (if outputs[i].verdict == v then 1 else 0)
  {
    hide Votes;
    assert outputs == outputs[..i] + [outputs[i]] + outputs[i + 1..];
    VotesConcat(outputs[..i] + [outputs[i]], outputs[i + 1..], v);
    VotesConcat(outputs[..i], [outputs[i]], v);
    VotesConcat(outputs[..i], outputs[i + 1..], v);
    VoteOf(outputs[i], v);
  }

  lemma WithoutOne(a: seq<Review>, i: nat)
    requires i < |a|
    ensures multiset(a[..i] + a[i + 1..]) == multiset(a) - multiset{a[i]}
  {
    assert a == a[..i] + [a[i]] + a[i + 1..];
  }

  lemma {:induction false} VotesIgnoreOrder(a: seq<Review>, b: seq<Review>, v: Verdict)
    requires multiset(a) == multiset(b)
    ensures |a| == |b| && Votes(a, v) == Votes(b, v)
  {
    assert |multiset(a)| == |multiset(b)|;
    if a != [] {
      var n := |a| - 1;
      var i := FindOne(a, b, n);
      VotesIgnoreOrder(a[..n], b[..i] + b[i + 1..], v);
      VotesWithout(b, v, i);
    }
  }

  lemma FindOne(a: seq<Review>, b: seq<Review>, n: nat) returns (i: nat)
    requires multiset(a) == multiset(b) && |a| == n + 1
    ensures i < |b| && b[i] == a[n] && multiset(a[..n]) == multiset(b[..i] + b[i + 1..])
  {
    assert a[n] in multiset(b);
    i :| 0 <= i < |b| && b[i] == a[n];
    WithoutOne(a, n);
    WithoutOne(b, i);
    assert a[..n] + a[n + 1..] == a[..n];
  }

  lemma {:induction false} VotesAddUp(outputs: seq<Review>)
    ensures Votes(outputs, Pass) + Votes(outputs, Fail) + Votes(outputs, Unsure) == |outputs|
  {
    if outputs != [] {
      VotesAddUp(outputs[..|outputs| - 1]);
    }
  }

  /** Who says it does not matter. */
  lemma VerdictIgnoresOrder(a: seq<Review>, b: seq<Review>)
    requires multiset(a) == multiset(b)
    ensures Tally(a) == Tally(b)
  {
    VotesIgnoreOrder(a, b, Pass);
    VotesIgnoreOrder(a, b, Fail);
  }

  function Opposite(r: Review): Review {
    r.(verdict := match r.verdict case Pass => Fail case Fail => Pass case Unsure => Unsure)
  }

  lemma {:induction false} VotesMirror(outputs: seq<Review>, mirrored: seq<Review>)
    requires |outputs| == |mirrored| && forall i :: 0 <= i < |outputs| ==> mirrored[i] == Opposite(outputs[i])
    ensures Votes(mirrored, Pass) == Votes(outputs, Fail) && Votes(mirrored, Fail) == Votes(outputs, Pass)
  {
    if outputs != [] {
      VotesMirror(outputs[..|outputs| - 1], mirrored[..|outputs| - 1]);
    }
  }

  /** Pass and fail weigh the same. */
  lemma VerdictIsNeutral(outputs: seq<Review>, mirrored: seq<Review>)
    requires |outputs| == |mirrored| && forall i :: 0 <= i < |outputs| ==> mirrored[i] == Opposite(outputs[i])
    ensures (Tally(mirrored).Pass? <==> Tally(outputs).Fail?) && (Tally(mirrored).Fail? <==> Tally(outputs).Pass?)
  {
    VotesMirror(outputs, mirrored);
    VotesAddUp(outputs);
  }

  /** Turning any one vote into a pass never undoes a pass, and never brings a
      fail about. */
  lemma PassingMoreNeverHurts(outputs: seq<Review>, i: nat)
    requires i < |outputs|
    ensures var more := outputs[i := outputs[i].(verdict := Pass)];
            (Tally(outputs).Pass? ==> Tally(more).Pass?) && (Tally(more).Fail? ==> Tally(outputs).Fail?)
  {
    var more := outputs[i := outputs[i].(verdict := Pass)];
    assert more[..i] + more[i + 1..] == outputs[..i] + outputs[i + 1..];
    VotesWithout(outputs, Pass, i);
    VotesWithout(more, Pass, i);
    VotesWithout(outputs, Fail, i);
    VotesWithout(more, Fail, i);
    VotesAddUp(more);
    VotesAddUp(outputs);
  }

  /** Main result: a decision needs a strict majority of the valid outputs; a tie,
      a split or an empty panel is unsure, and only then does a request for
      evidence survive. */
  lemma DecisionsNeedAMajority(requested: nat, outputs: seq<Review>)
    ensures var r := Aggregate(requested, outputs);
            && (r.verdict.Pass? <==> Votes(outputs, Pass) > Votes(outputs, Fail) + Votes(outputs, Unsure))
            && (r.verdict.Fail? <==> Votes(outputs, Fail) > Votes(outputs, Pass) + Votes(outputs, Unsure))
            && (r.needEvidence.Some? || r.evidenceRequest.Some? ==>
                  Votes(outputs, Pass) * 2 <= |outputs| && Votes(outputs, Fail) * 2 <= |outputs|)
  {
    VotesAddUp(outputs);
  }

  /** The first note names the checkers asked and counts every vote; a second one says
      how many gave no valid output, when some did not. */
  lemma NotesCountEveryVote(requested: nat, outputs: seq<Review>)
    ensures var notes := Notes(requested, outputs);
            && |notes| == (if |outputs| < requested then 2 else 1)
            && notes[0] == Decimal(requested) + " 位检查员投票：PASS×" + Decimal(Votes(outputs, Pass)) + " FAIL×"
                 + Decimal(Votes(outputs, Fail)) + " UNSURE×" + Decimal(Votes(outputs, Unsure)) + "（多数票裁决）"
            && (|outputs| < requested ==>
                  notes[1] == "另有 " + Decimal(requested - |outputs|) + " 位检查员输出无效未计票")
  {
    VotesAddUp(outputs);
    hide Decimal, Votes;
  }

  /** Evidence is asked for exactly when the panel is unsure and some output asks. */
  lemma EvidenceOnlyWhenUnsure(requested: nat, outputs: seq<Review>)
    ensures var r := Aggregate(requested, outputs);
            && (r.needEvidence == Some(true) <==>
                  Tally(outputs).Unsure? && exists o :: o in outputs && o.needEvidence == Some(true))
            && (r.needEvidence == Some(true) || r.needEvidence == None)
            && r.evidenceRequest == (if Tally(outputs).Unsure? then FirstRequest(outputs) else None)
            && r.gap == FirstGap(outputs) && r.experience == FirstExperience(outputs)
  {
    hide Tally, FirstRequest, FirstGap, FirstExperience, AddReasons, Notes;
    if o :| o in outputs && o.needEvidence == Some(true) {
      var i :| 0 <= i < |outputs| && outputs[i] == o;
    }
  }

  // ---- What the reasons are ----

  /** Each reason where it is first said, blanks and the excluded left out. */
  function FirstSaid(raws: seq<string>, excluded: seq<string>): seq<string> {
    if raws == [] then []
    else
      var n := |raws| - 1;
      var r := Trim(raws[n]);
      FirstSaid(raws[..n], excluded) + (if r == "" || Says(excluded, r) || Says(raws[..n], r) then [] else [r])
  }

  lemma {:induction false} SaidOnce(raws: seq<string>, excluded: seq<string>, r: string)
    requires r != ""
    ensures Says(FirstSaid(raws, excluded), r) <==> Says(raws, r) && !Says(excluded, r)
  {
    if raws != [] {
      var n := |raws| - 1;
      SaidOnce(raws[..n], excluded, r);
      TrimIsTrimmed(raws[n]);
      var rest := FirstSaid(raws[..n], excluded);
      SaysSnoc(raws[..n], raws[n], r);
      assert raws == raws[..n] + [raws[n]];
      if FirstSaid(raws, excluded) != rest {
        SaysSnoc(rest, Trim(raws[n]), r);
      }
    }
  }

  lemma SaysSnoc(said: seq<string>, x: string, r: string)
    ensures Says(said + [x], r) <==> Says(said, r) || Trim(x) == r
  {
    hide Trim;
    assert (said + [x])[|said|] == x;
    assert forall i :: 0 <= i < |said| ==> (said + [x])[i] == said[i];
  }

  lemma {:induction false} SaysConcat(a: seq<string>, b: seq<string>, r: string)
    ensures Says(a + b, r) <==> Says(a, r) || Says(b, r)
  {
    hide Trim;
    assert forall i :: 0 <= i < |a| ==> (a + b)[i] == a[i];
    assert forall i :: 0 <= i < |b| ==> (a + b)[|a| + i] == b[i];
    assert forall i :: |a| <= i < |a| + |b| ==> (a + b)[i] == b[i - |a|];
  }

  /** Main result: after the notes come the reasons of all outputs, trimmed, each
      once, in the order in which it was first given, and none is lost. */
  lemma {:induction false} ReasonsAreMergedInOrder(notes: seq<string>, raws: seq<string>)
    ensures AddReasons(notes, raws) == notes + FirstSaid(raws, notes)
  {
    if raws != [] {
      var n := |raws| - 1;
      ReasonsAreMergedInOrder(notes, raws[..n]);
      var r := Trim(raws[n]);
      if r != "" {
        SaysConcat(notes, FirstSaid(raws[..n], notes), r);
        SaidOnce(raws[..n], notes, r);
      }
    }
  }

  /** A list of distinct reasons, each said, trimmed and not blank. */
  ghost predicate DistinctReasons(said: seq<string>, raws: seq<string>, excluded: seq<string>) {
    && (forall i :: 0 <= i < |said| ==> IsReason(said[i], raws, excluded))
    && (forall i, j :: 0 <= i < j < |said| ==> said[i] != said[j])
  }

  ghost predicate IsReason(r: string, raws: seq<string>, excluded: seq<string>) {
    r != "" && IsTrimmed(r) && Says(raws, r) && !Says(excluded, r)
  }

  lemma {:induction false} FirstSaidIsDistinct(raws: seq<string>, excluded: seq<string>)
    ensures DistinctReasons(FirstSaid(raws, excluded), raws, excluded)
  {
    if raws != [] {
      var n := |raws| - 1;
      FirstSaidIsDistinct(raws[..n], excluded);
      TrimIsTrimmed(raws[n]);
      assert raws == raws[..n] + [raws[n]];
      OneMoreReason(FirstSaid(raws[..n], excluded), raws[..n], raws[n], excluded);
    }
  }

  lemma OneMoreReason(said: seq<string>, raws: seq<string>, raw: string, excluded: seq<string>)
    requires DistinctReasons(said, raws, excluded) && IsTrimmed(Trim(raw)) && Trim(Trim(raw)) == Trim(raw)
    ensures DistinctReasons(said, raws + [raw], excluded)
    ensures var r := Trim(raw);
            r == "" || Says(excluded, r) || Says(raws, r) || DistinctReasons(said + [r], raws + [raw], excluded)
  {
    hide Trim, IsTrimmed, Says;
    forall i | 0 <= i < |said| ensures IsReason(said[i], raws + [raw], excluded) {
      assert IsReason(said[i], raws, excluded);
      SaysSnoc(raws, raw, said[i]);
    }
    SaysSnoc(raws, raw, Trim(raw));
    if !Says(raws, Trim(raw)) {
      forall i | 0 <= i < |said| ensures said[i] != Trim(raw) {
        assert IsReason(said[i], raws, excluded);
      }
    }
  }

  /** The merged reasons, entry by entry. */
  lemma MergedReasonsHold(requested: nat, outputs: seq<Review>, k: nat, o: nat)
    requires o < |outputs| && k < |outputs[o].reasons|
    ensures var merged := Aggregate(requested, outputs).reasons;
            && Notes(requested, outputs) <= merged
            && (Trim(outputs[o].reasons[k]) != "" ==> Says(merged, Trim(outputs[o].reasons[k])))
            && forall i, j :: |Notes(requested, outputs)| <= i < |merged| && 0 <= j < i ==> Trim(merged[j]) != merged[i]
  {
    var notes, raws := Notes(requested, outputs), AllReasons(outputs);
    var r := Trim(outputs[o].reasons[k]);
    hide Trim, Says, Notes;
    ReasonsAreMergedInOrder(notes, raws);
    FirstSaidIsDistinct(raws, notes);
    AllReasonsSay(outputs, o, k);
    SaysConcat(notes, FirstSaid(raws, notes), r);
    if r != "" {
      SaidOnce(raws, notes, r);
    }
    MergedAreDistinct(notes, raws);
  }

  lemma MergedAreDistinct(notes: seq<string>, raws: seq<string>)
    ensures var merged := notes + FirstSaid(raws, notes);
            forall i, j :: |notes| <= i < |merged| && 0 <= j < i ==> Trim(merged[j]) != merged[i]
  {
    var said := FirstSaid(raws, notes);
    var merged := notes + said;
    FirstSaidIsDistinct(raws, notes);
    forall i, j | |notes| <= i < |merged| && 0 <= j < i ensures Trim(merged[j]) != merged[i] {
      assert merged[i] == said[i - |notes|];
      if j < |notes| {
        assert merged[j] == notes[j] && IsReason(merged[i], raws, notes);
      } else {
        assert merged[j] == said[j - |notes|] && said[j - |notes|] != said[i - |notes|];
        assert IsReason(merged[j], raws, notes);
        TrimmedStays(merged[j]);
      }
    }
  }

  lemma TrimmedStays(s: string)
    requires IsTrimmed(s)
    ensures Trim(s) == s
  {
  }

  lemma {:induction false} AllReasonsSay(outputs: seq<Review>, o: nat, k: nat)
    requires o < |outputs| && k < |outputs[o].reasons|
    ensures Says(AllReasons(outputs), Trim(outputs[o].reasons[k]))
  {
    var n := |outputs| - 1;
    var r := Trim(outputs[o].reasons[k]);
    SaysConcat(AllReasons(outputs[..n]), outputs[n].reasons, r);
    if o < n {
      AllReasonsSay(outputs[..n], o, k);
    }
  }

  // ---- The first of each field ----

  /** The i-th output is the first that has something to say there. */
  ghost predicate IsFirst(outputs: seq<Review>, i: nat, speaks: Review -> bool) {
    i < |outputs| && speaks(outputs[i]) && forall j :: 0 <= j < i ==> !speaks(outputs[j])
  }

  lemma {:induction false} FirstFieldsAreFirst(outputs: seq<Review>, i: nat)
    ensures IsFirst(outputs, i, (o: Review) => Trim(o.gap) != "") ==> FirstGap(outputs) == Trim(outputs[i].gap)
    ensures IsFirst(outputs, i, (o: Review) => o.experience.Some?) ==> FirstExperience(outputs) == outputs[i].experience
    ensures IsFirst(outputs, i, (o: Review) => o.evidenceRequest.Some? && Trim(o.evidenceRequest.value) != "") ==>
              FirstRequest(outputs) == outputs[i].evidenceRequest
    decreases i
  {
    hide Trim;
    if i > 0 && outputs != [] {
      FirstFieldsAreFirst(outputs[1..], i - 1);
      assert forall j :: 0 <= j < |outputs| - 1 ==> outputs[1..][j] == outputs[j + 1];
    }
  }

  /** With nothing to say anywhere the field stays empty. */
  lemma {:induction false} UnspokenFieldsAreEmpty(outputs: seq<Review>)
    ensures FirstGap(outputs) == "" <==> forall o :: o in outputs ==> Trim(o.gap) == ""
    ensures FirstExperience(outputs) == None <==> forall o :: o in outputs ==> o.experience == None
    ensures FirstRequest(outputs) == None <==>
              forall o :: o in outputs && o.evidenceRequest.Some? ==> Trim(o.evidenceRequest.value) == ""
  {
    hide Trim;
    if outputs != [] {
      UnspokenFieldsAreEmpty(outputs[1..]);
      assert outputs == [outputs[0]] + outputs[1..];
    }
  }
}
