/** The P0/P1 gate: workers declare defects at the start of a line, and a later
    [FIXED] line in a delivery closes the oldest open one. What is still open
    sends the issue to a human. */
module DefectQueue {
  import opened Text

  datatype CommentType = Delivery | Discussion | System

  datatype Comment = Comment(ctype: CommentType, lines: seq<string>)

  datatype Issue = Issue(number: string, comments: seq<Comment>)

  datatype Severity = P0 | P1

  datatype Defect = Defect(issue: string, severity: Severity, line: string)

  datatype Event = Declares(defect: Defect) | Closes | Neither

  // ---- Lines ----

  /** A declaration is first looked for; only then, and only in a delivery, a
      [FIXED] marker. */
  function EventOf(issue: string, ctype: CommentType, line: string): Event {
    var t := TrimStart(line);
    if "[P0]" <= t then Declares(Defect(issue, P0, line))
    else if "[P1]" <= t then Declares(Defect(issue, P1, line))
    else if ctype.Delivery? && "[FIXED]" <= t then Closes
    else Neither
  }

  function LineEvents(issue: string, c: Comment): seq<Event> {
    seq(|c.lines|, i requires 0 <= i < |c.lines| => EventOf(issue, c.ctype, c.lines[i]))
  }

  function CommentEvents(issue: string, cs: seq<Comment>): seq<Event> {
    if cs == [] then [] else CommentEvents(issue, cs[..|cs| - 1]) + LineEvents(issue, cs[|cs| - 1])
  }

  /** All events in scan order: issue by issue, comment by comment, line by line. */
  function Events(issues: seq<Issue>): seq<Event> {
    if issues == [] then []
    else Events(issues[..|issues| - 1]) + CommentEvents(issues[|issues| - 1].number, issues[|issues| - 1].comments)
  }

  // ---- The queue ----

  function Take(open: seq<Defect>, e: Event): seq<Defect> {
    match e
    case Declares(d) => open + [d]
    case Closes => if open == [] then open else open[1..]
    case Neither => open
  }

  /** What is open after all events. */
  function Open(es: seq<Event>): seq<Defect> {
    if es == [] then [] else Take(Open(es[..|es| - 1]), es[|es| - 1])
  }

  function Declared(es: seq<Event>): seq<Defect> {
    if es == [] then []
    else Declared(es[..|es| - 1]) + (if es[|es| - 1].Declares? then [es[|es| - 1].defect] else [])
  }

  /** Declarations less closings. */
  function Balance(es: seq<Event>): int {
    if es == [] then 0
    else Balance(es[..|es| - 1]) + (match es[|es| - 1] case Declares(_) => 1 case Closes => -1 case Neither => 0)
  }

  lemma OpenStep(es: seq<Event>, e: Event)
    ensures Open(es + [e]) == Take(Open(es), e)
  {
    assert (es + [e])[..|es|] == es;
  }

  method ScanUnclosedDefects(issues: seq<Issue>) returns (open: seq<Defect>)
    ensures open == Open(Events(issues))
  {
    hide Open, EventOf, LineEvents;
    assert Open([]) == [] by { NothingDeclared([]); }
    open := [];
    ghost var seen: seq<Event> := [];
    for a := 0 to |issues|
      invariant seen == Events(issues[..a]) && open == Open(seen)
    {
      var issue := issues[a];
      assert issues[..a + 1][..a] == issues[..a];
      ghost var before := seen;
      for b := 0 to |issue.comments|
        invariant seen == before + CommentEvents(issue.number, issue.comments[..b]) && open == Open(seen)
      {
        assert issue.comments[..b + 1][..b] == issue.comments[..b];
        open, seen := ScanComment(issue.number, issue.comments[b], open, seen);
      }
      assert issue.comments[..|issue.comments|] == issue.comments;
    }
    assert issues[..|issues|] == issues;
  }

  method ScanComment(issue: string, c: Comment, sofar: seq<Defect>, ghost before: seq<Event>)
    returns (open: seq<Defect>, ghost seen: seq<Event>)
    requires sofar == Open(before)
    ensures seen == before + LineEvents(issue, c) && open == Open(seen)
  {
    hide Open, TrimStart;
    open := sofar;
    ghost var more := LineEvents(issue, c);
    seen := before;
    for i := 0 to |c.lines|
      invariant seen == before + more[..i] && open == Open(seen)
    {
      OpenStep(seen, more[i]);
      assert before + more[..i] + [more[i]] == before + more[..i + 1];
      seen := seen + [more[i]];
      var t := TrimStart(c.lines[i]);
      if "[P0]" <= t {
        open := open + [Defect(issue, P0, c.lines[i])];
      } else if "[P1]" <= t {
        open := open + [Defect(issue, P1, c.lines[i])];
      } else if c.ctype.Delivery? && "[FIXED]" <= t && open != [] {
        open := open[1..];
      }
    }
    assert more[..|c.lines|] == more;
  }

  // ---- From lines to events ----

  /** The line has the mark at its start, blanks aside. */
  predicate StartsWith(line: string, mark: string) {
    exists k :: 0 <= k <= |line| && mark <= line[k..] && forall i :: 0 <= i < k ==> IsWhitespace(line[i])
  }

  lemma {:induction false} TrimStartSkips(line: string) returns (k: nat)
    ensures k <= |line| && TrimStart(line) == line[k..] && forall i :: 0 <= i < k ==> IsWhitespace(line[i])
    ensures k < |line| ==> !IsWhitespace(line[k])
  {
    hide IsWhitespace;
    if line != [] && IsWhitespace(line[0]) {
      k := TrimStartSkips(line[1..]);
      k := k + 1;
      assert line[1..][k - 1..] == line[k..];
    } else {
      k := 0;
    }
  }

  lemma MarkIsAtTheStart(line: string, mark: string)
    requires mark != [] && !IsWhitespace(mark[0])
    ensures mark <= TrimStart(line) <==> StartsWith(line, mark)
  {
    var k := TrimStartSkips(line);
    hide IsWhitespace, TrimStart;
    if StartsWith(line, mark) {
      var j :| 0 <= j <= |line| && mark <= line[j..] && forall i :: 0 <= i < j ==> IsWhitespace(line[i]);
      assert line[j] == mark[0];
      assert j == k;
    }
  }

  /** Main result: a line declares a defect exactly when it starts, blanks aside, with
      [P0] or [P1], under its own issue, severity and text; and it closes one exactly
      when it starts with [FIXED] in a delivery. */
  lemma LineDeclaresExactlyWhen(issue: string, ctype: CommentType, line: string)
    ensures var e := EventOf(issue, ctype, line);
            && (e.Declares? <==> StartsWith(line, "[P0]") || StartsWith(line, "[P1]"))
            && (e.Declares? ==> e.defect == Defect(issue, if StartsWith(line, "[P0]") then P0 else P1, line))
            && (e.Closes? <==> ctype.Delivery? && StartsWith(line, "[FIXED]"))
  {
    MarkIsAtTheStart(line, "[P0]");
    MarkIsAtTheStart(line, "[P1]");
    MarkIsAtTheStart(line, "[FIXED]");
    var t := TrimStart(line);
    hide StartsWith, TrimStart;
    assert "[FIXED]" <= t ==> t[1] == 'F';
    assert "[P0]" <= t ==> t[1] == 'P' && t[2] == '0';
    assert "[P1]" <= t ==> t[1] == 'P' && t[2] == '1';
  }

  function LinesIn(cs: seq<Comment>): nat {
    if cs == [] then 0 else LinesIn(cs[..|cs| - 1]) + |cs[|cs| - 1].lines|
  }

  function LinesOf(issues: seq<Issue>): nat {
    if issues == [] then 0 else LinesOf(issues[..|issues| - 1]) + LinesIn(issues[|issues| - 1].comments)
  }

  lemma {:induction false} CommentLineIsScanned(issue: string, cs: seq<Comment>, b: nat, i: nat)
    requires b < |cs| && i < |cs[b].lines|
    ensures |CommentEvents(issue, cs)| == LinesIn(cs) > LinesIn(cs[..b]) + i
    ensures CommentEvents(issue, cs)[LinesIn(cs[..b]) + i] == EventOf(issue, cs[b].ctype, cs[b].lines[i])
  {
    hide EventOf;
    var n := |cs| - 1;
    CommentsAreScanned(issue, cs[..n]);
    if b < n {
      CommentLineIsScanned(issue, cs[..n], b, i);
      assert cs[..n][..b] == cs[..b];
    }
  }

  lemma {:induction false} CommentsAreScanned(issue: string, cs: seq<Comment>)
    ensures |CommentEvents(issue, cs)| == LinesIn(cs)
  {
    if cs != [] {
      CommentsAreScanned(issue, cs[..|cs| - 1]);
    }
  }

  lemma {:induction false} IssuesAreScanned(issues: seq<Issue>)
    ensures |Events(issues)| == LinesOf(issues)
  {
    if issues != [] {
      IssuesAreScanned(issues[..|issues| - 1]);
      CommentsAreScanned(issues[|issues| - 1].number, issues[|issues| - 1].comments);
    }
  }

  /** And every line is scanned once, at its place: issue by issue, comment by comment. */
  lemma {:induction false} EveryLineIsScanned(issues: seq<Issue>, a: nat, b: nat, i: nat)
    requires a < |issues| && b < |issues[a].comments| && i < |issues[a].comments[b].lines|
    ensures var at, c := LinesOf(issues[..a]) + LinesIn(issues[a].comments[..b]) + i, issues[a].comments[b];
            && |Events(issues)| == LinesOf(issues) > at
            && Events(issues)[at] == EventOf(issues[a].number, c.ctype, c.lines[i])
  {
    hide EventOf, CommentEvents;
    var n := |issues| - 1;
    IssuesAreScanned(issues[..n]);
    CommentsAreScanned(issues[n].number, issues[n].comments);
    if a < n {
      EveryLineIsScanned(issues[..n], a, b, i);
      assert issues[..n][..a] == issues[..a];
    } else {
      CommentLineIsScanned(issues[a].number, issues[a].comments, b, i);
    }
  }

  // ---- What is left open ----

  /** First in, first out: what is left is the tail of everything declared. */
  lemma {:induction false} OpenIsTheTailOfDeclared(es: seq<Event>)
    ensures |Open(es)| <= |Declared(es)|
    ensures Open(es) == Declared(es)[|Declared(es)| - |Open(es)|..]
  {
    if es != [] {
      OpenIsTheTailOfDeclared(es[..|es| - 1]);
    }
  }

  lemma {:induction false} NoTailOutweighsOpen(es: seq<Event>, k: nat)
    requires k <= |es|
    ensures Balance(es[k..]) <= |Open(es)|
  {
    var n := |es| - 1;
    if k <= n {
      NoTailOutweighsOpen(es[..n], k);
      assert es[k..][..n - k] == es[..n][k..];
    }
  }

  lemma {:induction false} SomeTailWeighsOpen(es: seq<Event>) returns (k: nat)
    ensures k <= |es| && Balance(es[k..]) == |Open(es)|
  {
    var n := |es| - 1;
    if es == [] || Open(es) == [] {
      k := |es|;
    } else {
      k := SomeTailWeighsOpen(es[..n]);
      assert es[k..][..n - k] == es[..n][k..];
    }
  }

  /** Main result: as many defects stay open as the worst tail of the scan leaves
      uncovered, the empty tail counting nothing; a [FIXED] with nothing open
      before it is never banked for later. */
  lemma OpenCountIsTheWorstTail(es: seq<Event>) returns (worst: nat)
    ensures worst <= |es| && |Open(es)| == Balance(es[worst..])
    ensures forall k :: 0 <= k <= |es| ==> Balance(es[k..]) <= Balance(es[worst..])
  {
    worst := SomeTailWeighsOpen(es);
    forall k | 0 <= k <= |es| ensures Balance(es[k..]) <= Balance(es[worst..]) {
      NoTailOutweighsOpen(es, k);
    }
  }

  /** The gate lets an issue through if and only if every declaration is followed
      by enough closings. */
  lemma GateOpensExactlyWhen(es: seq<Event>)
    ensures Open(es) == [] <==> forall k :: 0 <= k <= |es| ==> Balance(es[k..]) <= 0
  {
    var worst := OpenCountIsTheWorstTail(es);
    assert Balance(es[worst..]) == |Open(es)|;
  }

  lemma {:induction false} BalanceAdds(a: seq<Event>, b: seq<Event>)
    ensures Balance(a + b) == Balance(a) + Balance(b)
  {
    if b == [] {
      assert a + b == a;
    } else {
      var n := |b| - 1;
      assert (a + b)[..|a| + n] == a + b[..n];
      BalanceAdds(a, b[..n]);
    }
  }

  lemma {:induction false} DeclarationsNeverLighten(c: seq<Event>)
    requires Closes !in c
    ensures Balance(c) >= 0
  {
    if c != [] {
      DeclarationsNeverLighten(c[..|c| - 1]);
    }
  }

  /** Main result: only a delivery can open the gate. Whatever comment of another
      type is added, and wherever, no fewer defects stay open. */
  lemma OtherCommentsCloseNothing(before: seq<Event>, issue: string, c: Comment, after: seq<Event>)
    requires !c.ctype.Delivery?
    ensures |Open(before + LineEvents(issue, c) + after)| >= |Open(before + after)|
  {
    var extra := LineEvents(issue, c);
    var short, long := before + after, before + extra + after;
    var k := SomeTailWeighsOpen(short);
    if k <= |before| {
      assert short[k..] == before[k..] + after;
      assert long[k..] == before[k..] + extra + after;
      BalanceAdds(before[k..], after);
      BalanceAdds(before[k..] + extra, after);
      BalanceAdds(before[k..], extra);
      DeclarationsNeverLighten(extra);
      NoTailOutweighsOpen(long, k);
    } else {
      assert long[k + |extra|..] == short[k..];
      NoTailOutweighsOpen(long, k + |extra|);
    }
  }

  lemma {:induction false} NothingDeclared(es: seq<Event>)
    requires forall e :: e in es ==> !e.Declares?
    ensures Open(es) == []
  {
    if es != [] {
      NothingDeclared(es[..|es| - 1]);
    }
  }
}
