/** Finding JSON objects in the text of a comment: from each opening brace on, the
    shortest stretch with balanced braces, braces inside strings not counted. */
module BraceScanner {
  import opened Wrappers
  import opened JsonEscape

  /** Where a scan stands. The source scans bytes; the four characters it looks for
      are ASCII and never part of another character. */
  datatype Mode = Mode(depth: int, inString: bool, escaped: bool)

  function Advance(m: Mode, c: char): Mode {
    if m.escaped then m.(escaped := false)
    else if c == '\\' && m.inString then m.(escaped := true)
    else if c == '"' then m.(inString := !m.inString)
    else if c == '{' && !m.inString then m.(depth := m.depth + 1)
    else if c == '}' && !m.inString then m.(depth := m.depth - 1)
    else m
  }

  function ModeAfter(m: Mode, s: string): Mode {
    if s == [] then m else Advance(ModeAfter(m, s[..|s| - 1]), s[|s| - 1])
  }

  const START := Mode(0, false, false)

  /** The stretch from i to end is balanced and no shorter one is. */
  ghost predicate IsSpan(text: string, i: nat, end: nat) {
    && i < end <= |text| && text[i] == '{'
    && ModeAfter(START, text[i..end]).depth == 0
    && forall e :: i < e < end ==> ModeAfter(START, text[i..e]).depth > 0
  }

  ghost predicate IsUnclosed(text: string, i: nat) {
    && i < |text| && text[i] == '{'
    && forall e :: i < e <= |text| ==> ModeAfter(START, text[i..e]).depth > 0
  }

  lemma ModeSnoc(m: Mode, s: string, c: char)
    ensures ModeAfter(m, s + [c]) == Advance(ModeAfter(m, s), c)
  {
    assert (s + [c])[..|s|] == s;
  }

  method FindEnd(text: string, i: nat) returns (end: Option<nat>)
    requires i < |text| && text[i] == '{'
    ensures end.Some? ==> IsSpan(text, i, end.value)
    ensures end.None? ==> IsUnclosed(text, i)
  {
    hide ModeAfter;
    var depth: nat, inString, escaped := 0, false, false;
    assert ModeAfter(START, text[i..i]) == START by { NoText(START); assert text[i..i] == []; }
    for k := i to |text|
      invariant ModeAfter(START, text[i..k]) == Mode(depth, inString, escaped)
      invariant k == i ==> depth == 0 && !inString && !escaped
      invariant forall e :: i < e <= k ==> ModeAfter(START, text[i..e]).depth > 0
    {
      ModeSnoc(START, text[i..k], text[k]);
      assert text[i..k] + [text[k]] == text[i..k + 1];
      assert k > i ==> depth > 0;
      if escaped {
        escaped := false;
        continue;
      }
      match text[k] {
        case '\\' => if inString { escaped := true; }
        case '"' => inString := !inString;
        case '{' => if !inString { depth := depth + 1; }
        case '}' =>
          if !inString {
            depth := depth - 1;
            if depth == 0 { return Some(k + 1); }
          }
        case _ =>
      }
    }
    end := None;
  }

  lemma NoText(m: Mode)
    ensures ModeAfter(m, []) == m
  {
  }

  /** The spans are those a scan from i on considers: it skips to the next brace,
      takes the span there and goes on behind it, and gives up at a brace that is
      never closed. */
  ghost predicate IsScan(text: string, i: nat, spans: seq<(nat, nat)>)
    decreases |text| - i
  {
    if i >= |text| then spans == []
    else if text[i] != '{' then IsScan(text, i + 1, spans)
    else if spans == [] then IsUnclosed(text, i)
    else spans[0].0 == i && IsSpan(text, i, spans[0].1) && IsScan(text, spans[0].1, spans[1..])
  }

  /** The bundles among the spans, in order. */
  function Accepted<T>(text: string, spans: seq<(nat, nat)>, parse: string -> Option<T>): seq<T> {
    if spans == [] then []
    else
      var (a, b) := spans[|spans| - 1];
      Accepted(text, spans[..|spans| - 1], parse)
      + (if a <= b <= |text| && parse(text[a..b]).Some? then [parse(text[a..b]).value] else [])
  }

  function BundleOf<T>(text: string, span: (nat, nat), parse: string -> Option<T>): Option<T> {
    if span.0 <= span.1 <= |text| then parse(text[span.0..span.1]) else None
  }

  /** The entries of out are the bundles of the spans at positions ks, in order, and no
      other span holds one. */
  ghost predicate IsPicked<T>(text: string, spans: seq<(nat, nat)>, parse: string -> Option<T>, out: seq<T>,
                              ks: seq<nat>)
  {
    && |ks| == |out|
    && (forall i :: 0 <= i < |ks| ==> ks[i] < |spans| && BundleOf(text, spans[ks[i]], parse) == Some(out[i]))
    && (forall i, j :: 0 <= i < j < |ks| ==> ks[i] < ks[j])
    && (forall k: nat :: k < |spans| && BundleOf(text, spans[k], parse).Some? ==> k in ks)
  }

  /** Main result: the bundles accepted are those of exactly the spans that parse, one
      for each, in order. */
  lemma {:induction false} BundlesOfExactlyTheSpansThatParse<T>(text: string, spans: seq<(nat, nat)>,
                                                               parse: string -> Option<T>)
      returns (ks: seq<nat>)
    ensures IsPicked(text, spans, parse, Accepted(text, spans, parse), ks)
  {
    if spans == [] {
      ks := [];
    } else {
      var n := |spans| - 1;
      var before := BundlesOfExactlyTheSpansThatParse(text, spans[..n], parse);
      ks := before + (if BundleOf(text, spans[n], parse).Some? then [n] else []);
      AcceptedStep(text, spans, parse);
      hide Accepted, BundleOf;
      assert forall k :: 0 <= k < n ==> spans[..n][k] == spans[k];
      forall k: nat | k < |spans| && BundleOf(text, spans[k], parse).Some? ensures k in ks {
        assert k < n ==> k in before;
      }
    }
  }

  lemma AcceptedStep<T>(text: string, spans: seq<(nat, nat)>, parse: string -> Option<T>)
    requires spans != []
    ensures var n := |spans| - 1;
            var b := BundleOf(text, spans[n], parse);
            Accepted(text, spans, parse) == Accepted(text, spans[..n], parse) + (if b.Some? then [b.value] else [])
  {
  }

  /** The scan so far, and what is left of it. */
  ghost predicate ScansOn(text: string, spans: seq<(nat, nat)>, i: nat) {
    forall rest :: IsScan(text, i, rest) ==> IsScan(text, 0, spans + rest)
  }

  lemma Skips(text: string, spans: seq<(nat, nat)>, i: nat)
    requires ScansOn(text, spans, i) && i < |text| && text[i] != '{'
    ensures ScansOn(text, spans, i + 1)
  {
  }

  lemma Takes(text: string, spans: seq<(nat, nat)>, i: nat, end: nat)
    requires ScansOn(text, spans, i) && IsSpan(text, i, end)
    ensures ScansOn(text, spans + [(i, end)], end)
  {
    hide IsSpan;
    forall rest | IsScan(text, end, rest) ensures IsScan(text, 0, (spans + [(i, end)]) + rest) {
      assert ([(i, end)] + rest)[1..] == rest;
      assert IsSpan(text, i, end) ==> i < |text| && text[i] == '{' by { SpanStarts(text, i, end); }
      assert IsScan(text, i, [(i, end)] + rest);
      assert spans + ([(i, end)] + rest) == (spans + [(i, end)]) + rest;
    }
  }

  lemma SpanStarts(text: string, i: nat, end: nat)
    ensures IsSpan(text, i, end) ==> i < end <= |text| && text[i] == '{'
  {
  }

  lemma SpanIsUnique(text: string, i: nat, a: nat, b: nat)
    requires IsSpan(text, i, a) && IsSpan(text, i, b)
    ensures a == b
  {
  }

  lemma UnclosedIsNoSpan(text: string, i: nat, end: nat)
    ensures !(IsUnclosed(text, i) && IsSpan(text, i, end))
  {
  }

  lemma {:induction false} ScanIsUnique(text: string, i: nat, a: seq<(nat, nat)>, b: seq<(nat, nat)>)
    requires IsScan(text, i, a) && IsScan(text, i, b)
    ensures a == b
    decreases |text| - i
  {
    hide IsSpan, IsUnclosed;
    if i < |text| && text[i] != '{' {
      ScanIsUnique(text, i + 1, a, b);
    } else if i < |text| && a != [] {
      UnclosedIsNoSpan(text, i, a[0].1);
      SpanIsUnique(text, i, a[0].1, b[0].1);
      SpanStarts(text, i, a[0].1);
      ScanIsUnique(text, a[0].1, a[1..], b[1..]);
    } else if i < |text| && b != [] {
      UnclosedIsNoSpan(text, i, b[0].1);
    }
  }

  method ExtractImageBundlesFrom<T>(text: string, parse: string -> Option<T>)
      returns (out: seq<T>, ghost spans: seq<(nat, nat)>)
    ensures IsScan(text, 0, spans) && out == Accepted(text, spans, parse)
    ensures forall any :: IsScan(text, 0, any) ==>
              out == Accepted(text, any, parse) && exists ks :: IsPicked(text, any, parse, out, ks)
  {
    forall a, b | IsScan(text, 0, a) && IsScan(text, 0, b) ensures a == b {
      ScanIsUnique(text, 0, a, b);
    }
    hide IsScan, IsPicked;
    out, spans := [], [];
    var i := 0;
    assert ScansOn(text, spans, i) by { assert forall rest: seq<(nat, nat)> :: [] + rest == rest; }
    while i < |text|
      invariant i <= |text| && ScansOn(text, spans, i) && out == Accepted(text, spans, parse)
    {
      if text[i] != '{' {
        Skips(text, spans, i);
        i := i + 1;
        continue;
      }
      var end := FindEnd(text, i);
      if end.None? {
        UnclosedEnds(text, i);
        assert IsScan(text, 0, spans + []);
        assert spans + [] == spans;
        ghost var _ := BundlesOfExactlyTheSpansThatParse(text, spans, parse);
        return;
      }
      Takes(text, spans, i, end.value);
      assert (spans + [(i, end.value)])[..|spans|] == spans;
      spans := spans + [(i, end.value)];
      var bundle := parse(text[i..end.value]);
      if bundle.Some? {
        out := out + [bundle.value];
      }
      i := end.value;
    }
    assert IsScan(text, i, []) by { TextEnds(text, i); }
    assert IsScan(text, 0, spans + []);
    assert spans + [] == spans;
    ghost var _ := BundlesOfExactlyTheSpansThatParse(text, spans, parse);
  }

  lemma UnclosedEnds(text: string, i: nat)
    requires IsUnclosed(text, i)
    ensures IsScan(text, i, [])
  {
  }

  lemma TextEnds(text: string, i: nat)
    requires i >= |text|
    ensures IsScan(text, i, [])
  {
  }

  // ---- What a scan finds ----

  /** Where the search for the k-th span starts. */
  function From(i: nat, spans: seq<(nat, nat)>, k: nat): nat
    requires k <= |spans|
  {
    if k == 0 then i else spans[k - 1].1
  }

  /** The next span behind a position: no brace is skipped. */
  ghost predicate IsNext(text: string, start: nat, s: (nat, nat)) {
    && start <= s.0 < s.1 <= |text| && IsSpan(text, s.0, s.1)
    && forall j :: start <= j < s.0 ==> text[j] != '{'
  }

  /** Behind a position there is no brace, or the first one is never closed. */
  ghost predicate IsLast(text: string, start: nat) {
    && start <= |text|
    && ((forall j :: start <= j < |text| ==> text[j] != '{')
        || exists j :: start <= j && IsUnclosed(text, j) && forall l :: start <= l < j ==> text[l] != '{')
  }

  lemma SkippingOne(text: string, i: nat, s: (nat, nat))
    requires i < |text| && text[i] != '{'
    ensures IsNext(text, i + 1, s) ==> IsNext(text, i, s)
    ensures IsLast(text, i + 1) ==> IsLast(text, i)
  {
    hide IsSpan;
    if IsLast(text, i + 1) && !(forall j :: i + 1 <= j < |text| ==> text[j] != '{') {
      var j :| i + 1 <= j && IsUnclosed(text, j) && forall l :: i + 1 <= l < j ==> text[l] != '{';
      hide IsUnclosed;
      assert forall l :: i <= l < j ==> text[l] != '{';
    }
  }

  /** Main result: a scan considers spans one behind the other, each the shortest
      balanced stretch from its brace; between them there is no brace, and behind
      the last one none but one that is never closed. */
  lemma {:induction false} SpansAreDisjointAndShortest(text: string, i: nat, spans: seq<(nat, nat)>)
    requires IsScan(text, i, spans) && i <= |text|
    ensures forall k :: 0 <= k < |spans| ==> IsNext(text, From(i, spans, k), spans[k])
    ensures IsLast(text, From(i, spans, |spans|))
    decreases |text| - i
  {
    hide IsUnclosed, IsSpan, IsNext, IsLast;
    if i == |text| {
      EndIsLast(text);
    } else if text[i] != '{' {
      SpansAreDisjointAndShortest(text, i + 1, spans);
      hide IsScan;
      SkippingOne(text, i, if spans == [] then (i, i) else spans[0]);
    } else if spans == [] {
      UnclosedIsLast(text, i);
    } else {
      var end, rest := spans[0].1, spans[1..];
      SpanIsNext(text, i, end);
      SpansAreDisjointAndShortest(text, end, rest);
      hide IsScan;
      forall k | 0 < k < |spans| ensures IsNext(text, From(i, spans, k), spans[k]) {
        assert rest[k - 1] == spans[k] && From(end, rest, k - 1) == From(i, spans, k);
      }
      assert From(i, spans, |spans|) == From(end, rest, |rest|);
    }
  }

  lemma SpanIsNext(text: string, i: nat, end: nat)
    requires IsSpan(text, i, end)
    ensures end <= |text| && IsNext(text, i, (i, end))
  {
  }

  lemma EndIsLast(text: string)
    ensures IsLast(text, |text|)
  {
  }

  lemma UnclosedIsLast(text: string, i: nat)
    requires IsUnclosed(text, i)
    ensures IsLast(text, i)
  {
  }

  lemma {:induction false} SpansStartAt(text: string, i: nat, spans: seq<(nat, nat)>, s: (nat, nat))
    requires IsScan(text, i, spans) && s in spans
    ensures s.0 >= i
    decreases |text| - i
  {
    hide IsUnclosed;
    if i < |text| && text[i] != '{' {
      SpansStartAt(text, i + 1, spans, s);
    } else if i < |text| && s != spans[0] {
      SpansStartAt(text, spans[0].1, spans[1..], s);
    }
  }

  /** Every brace of p that the scan meets is closed within p. */
  ghost predicate IsClean(p: string, i: nat, spans: seq<(nat, nat)>)
    requires IsScan(p, i, spans)
    decreases |p| - i
  {
    if i >= |p| then true
    else if p[i] != '{' then IsClean(p, i + 1, spans)
    else spans != [] && IsClean(p, spans[0].1, spans[1..])
  }

  lemma SpanSurvives(p: string, more: string, i: nat, end: nat)
    requires IsSpan(p, i, end)
    ensures IsSpan(p + more, i, end)
  {
    forall e | i <= e <= end ensures (p + more)[i..e] == p[i..e] {
    }
    forall e | i < e < end ensures ModeAfter(START, (p + more)[i..e]).depth > 0 {
      assert (p + more)[i..e] == p[i..e];
    }
  }

  lemma UnclosedRunsOver(p: string, more: string, i: nat, end: nat)
    requires IsUnclosed(p, i) && IsSpan(p + more, i, end)
    ensures end > |p|
  {
    var e := if end <= |p| then end else |p|;
    assert (p + more)[i..e] == p[i..e];
  }

  lemma SpanMoves(p: string, o: string, rest: string)
    requires IsSpan(o, 0, |o|)
    ensures IsSpan(p + o + rest, |p|, |p| + |o|)
  {
    var text := p + o + rest;
    forall e | 0 <= e <= |o| ensures text[|p|..|p| + e] == o[0..e] {
    }
    assert text[|p|] == o[0];
    assert text[|p|..|p| + |o|] == o[0..|o|];
    forall e | |p| < e < |p| + |o| ensures ModeAfter(START, text[|p|..e]).depth > 0 {
      assert text[|p|..e] == o[0..e - |p|];
    }
  }

  /** Main result: an object in a text is considered if and only if every brace that
      the scan meets before it is closed before it; what follows it plays no part. */
  lemma {:induction false} ObjectIsFoundExactlyWhen(p: string, o: string, rest: string, i: nat,
                                                    before: seq<(nat, nat)>, spans: seq<(nat, nat)>)
    requires IsSpan(o, 0, |o|) && i <= |p|
    requires IsScan(p, i, before) && IsScan(p + o + rest, i, spans)
    ensures (|p|, |p| + |o|) in spans <==> IsClean(p, i, before)
    decreases |p| - i
  {
    var text := p + o + rest;
    assert text == p + (o + rest);
    var it := (|p|, |p| + |o|);
    SpanMoves(p, o, rest);
    hide IsSpan, IsUnclosed;
    if i == |p| {
      SpanStarts(text, i, it.1);
      if spans == [] {
        UnclosedIsNoSpan(text, i, it.1);
      } else {
        SpanIsUnique(text, i, spans[0].1, it.1);
      }
    } else if p[i] != '{' {
      assert text[i] == p[i];
      ObjectIsFoundExactlyWhen(p, o, rest, i + 1, before, spans);
    } else if before != [] {
      var end := before[0].1;
      assert text[i] == p[i];
      SpanStarts(p, i, end);
      SpanSurvives(p, o + rest, i, end);
      if spans == [] {
        UnclosedIsNoSpan(text, i, end);
      } else {
        SpanIsUnique(text, i, spans[0].1, end);
        ObjectIsFoundExactlyWhen(p, o, rest, end, before[1..], spans[1..]);
        InRest(spans, it);
      }
    } else {
      assert text[i] == p[i];
      if spans != [] {
        UnclosedRunsOver(p, o + rest, i, spans[0].1);
        if it in spans[1..] {
          SpansStartAt(text, spans[0].1, spans[1..], it);
        }
        InRest(spans, it);
      }
    }
  }

  lemma InRest(spans: seq<(nat, nat)>, s: (nat, nat))
    requires spans != []
    ensures s in spans <==> s == spans[0] || s in spans[1..]
  {
  }

  /** So the bundle of such an object is among those returned. */
  lemma BundleOfAnObjectIsReturned<T>(p: string, o: string, rest: string, before: seq<(nat, nat)>,
                                      spans: seq<(nat, nat)>, parse: string -> Option<T>)
    requires IsSpan(o, 0, |o|) && parse(o).Some?
    requires IsScan(p, 0, before) && IsClean(p, 0, before) && IsScan(p + o + rest, 0, spans)
    ensures parse(o).value in Accepted(p + o + rest, spans, parse)
  {
    ObjectIsFoundExactlyWhen(p, o, rest, 0, before, spans);
    var text := p + o + rest;
    var ks := BundlesOfExactlyTheSpansThatParse(text, spans, parse);
    hide IsScan, IsClean, IsSpan;
    var k :| 0 <= k < |spans| && spans[k] == (|p|, |p| + |o|);
    assert text[|p|..|p| + |o|] == o;
    var i :| 0 <= i < |ks| && ks[i] == k;
    assert Accepted(text, spans, parse)[i] == parse(o).value;
  }

  predicate NoBrace(t: string) {
    forall k :: 0 <= k < |t| ==> t[k] != '{'
  }

  lemma {:induction false} NoBraceNoSpan(text: string, i: nat, spans: seq<(nat, nat)>)
    requires IsScan(text, i, spans) && forall k :: i <= k < |text| ==> text[k] != '{'
    ensures spans == []
    decreases |text| - i
  {
    if i < |text| {
      NoBraceNoSpan(text, i + 1, spans);
    }
  }

  lemma {:induction false} FirstSpanBehind(text: string, i: nat, at: nat, end: nat, spans: seq<(nat, nat)>)
    requires IsScan(text, i, spans) && i <= at && IsSpan(text, at, end)
    requires forall k :: i <= k < at ==> text[k] != '{'
    requires forall k :: end <= k < |text| ==> text[k] != '{'
    ensures spans == [(at, end)]
    decreases |text| - i
  {
    SpanStarts(text, at, end);
    hide IsSpan, IsUnclosed;
    if i < at {
      FirstSpanBehind(text, i + 1, at, end, spans);
    } else if spans == [] {
      UnclosedIsNoSpan(text, at, end);
    } else {
      SpanIsUnique(text, at, spans[0].1, end);
      NoBraceNoSpan(text, end, spans[1..]);
      assert spans == [spans[0]] + spans[1..];
    }
  }

  // ---- Objects as they are written ----

  /** A JSON text, spelled out: every blank and every literal as it is written. */
  datatype Json =
    | Atom(text: string)
    | Text(literal: string)
    | Array(blank: string, items: seq<Padded>)
    | Object(blank: string, fields: seq<Field>)

  datatype Padded = Padded(left: string, value: Json, right: string)

  datatype Field = Field(left: string, name: string, right: string, value: Padded)

  /** Blanks and literals are those of RFC 8259; numbers and names hold no quotes and
      no braces. */
  predicate IsWritten(j: Json) {
    match j
    case Atom(t) => IsPlain(t)
    case Text(t) => IsLiteral(t)
    case Array(blank, items) => IsBlank(blank) && forall k :: 0 <= k < |items| ==> IsPadded(items[k])
    case Object(blank, fields) => IsBlank(blank) && forall k :: 0 <= k < |fields| ==> IsField(fields[k])
  }

  predicate IsPadded(v: Padded) {
    IsBlank(v.left) && IsWritten(v.value) && IsBlank(v.right)
  }

  predicate IsField(f: Field) {
    IsBlank(f.left) && IsLiteral(f.name) && IsBlank(f.right) && IsPadded(f.value)
  }

  predicate IsBlank(t: string) {
    forall k :: 0 <= k < |t| ==> t[k] in {' ', '\t', '\n', '\r'}
  }

  predicate IsPlain(t: string) {
    forall k :: 0 <= k < |t| ==> t[k] != '"' && t[k] != '{' && t[k] != '}'
  }

  /** The reader of strings takes all of it. */
  predicate IsLiteral(t: string) {
    ParseString(t).Some? && ParseString(t).value.1 == []
  }

  function Render(j: Json): string {
    match j
    case Atom(t) => t
    case Text(t) => t
    case Array(blank, items) => "[" + blank + RenderItems(items) + "]"
    case Object(blank, fields) => "{" + (blank + RenderFields(fields)) + "}"
  }

  function RenderPadded(v: Padded): string {
    v.left + Render(v.value) + v.right
  }

  function RenderField(f: Field): string {
    f.left + f.name + f.right + ":" + RenderPadded(f.value)
  }

  function RenderItems(items: seq<Padded>): string {
    if items == [] then []
    else (if |items| == 1 then [] else RenderItems(items[..|items| - 1]) + ",") + RenderPadded(items[|items| - 1])
  }

  function RenderFields(fields: seq<Field>): string {
    if fields == [] then []
    else (if |fields| == 1 then [] else RenderFields(fields[..|fields| - 1]) + ",") + RenderField(fields[|fields| - 1])
  }

  /** Scanned outside strings at depth d, s comes back to where it started and never
      goes below. */
  ghost predicate IsQuiet(d: nat, s: string) {
    && ModeAfter(Mode(d, false, false), s) == Mode(d, false, false)
    && forall k :: 0 <= k <= |s| ==> ModeAfter(Mode(d, false, false), s[..k]).depth >= d
  }

  lemma {:induction false} ModeConcat(m: Mode, a: string, b: string)
    ensures ModeAfter(m, a + b) == ModeAfter(ModeAfter(m, a), b)
  {
    if b == [] {
      assert a + b == a;
    } else {
      var n := |b| - 1;
      assert (a + b)[..|a| + n] == a + b[..n];
      ModeConcat(m, a, b[..n]);
    }
  }

  lemma QuietConcat(d: nat, a: string, b: string)
    requires IsQuiet(d, a) && IsQuiet(d, b)
    ensures IsQuiet(d, a + b)
  {
    hide ModeAfter;
    var m := Mode(d, false, false);
    ModeConcat(m, a, b);
    forall k | 0 <= k <= |a + b| ensures ModeAfter(m, (a + b)[..k]).depth >= d {
      if k <= |a| {
        assert (a + b)[..k] == a[..k];
      } else {
        assert (a + b)[..k] == a + b[..k - |a|];
        ModeConcat(m, a, b[..k - |a|]);
      }
    }
  }

  lemma {:induction false} PlainIsQuiet(d: nat, t: string)
    requires IsPlain(t)
    ensures IsQuiet(d, t)
  {
    if t != [] {
      var n := |t| - 1;
      PlainIsQuiet(d, t[..n]);
      forall k | 0 <= k <= n ensures t[..n][..k] == t[..k] {
      }
      assert t[..|t|] == t;
    }
  }

  /** Scanned inside a string at depth d, t comes back to where it started, and the
      depth stays. */
  ghost predicate Stays(d: nat, t: string) {
    && ModeAfter(Mode(d, true, false), t) == Mode(d, true, false)
    && forall k :: 0 <= k <= |t| ==> ModeAfter(Mode(d, true, false), t[..k]).depth == d
  }

  lemma StaysConcat(d: nat, a: string, b: string)
    requires Stays(d, a) && Stays(d, b)
    ensures Stays(d, a + b)
  {
    hide ModeAfter;
    var m := Mode(d, true, false);
    ModeConcat(m, a, b);
    forall k | 0 <= k <= |a + b| ensures ModeAfter(m, (a + b)[..k]).depth == d {
      if k <= |a| {
        assert (a + b)[..k] == a[..k];
      } else {
        assert (a + b)[..k] == a + b[..k - |a|];
        ModeConcat(m, a, b[..k - |a|]);
      }
    }
  }

  /** A text of which no character is special inside a string. */
  predicate IsTame(t: string) {
    forall k :: 0 <= k < |t| ==> t[k] != '"' && t[k] != '\\'
  }

  lemma {:induction false} TameStays(d: nat, t: string)
    requires IsTame(t)
    ensures Stays(d, t)
  {
    if t != [] {
      var n := |t| - 1;
      TameStays(d, t[..n]);
      forall k | 0 <= k <= n ensures t[..n][..k] == t[..k] {
      }
      assert t[..|t|] == t;
    }
  }

  lemma PairStays(d: nat, c: char)
    ensures Stays(d, ['\\', c])
  {
    var m := Mode(d, true, false);
    var t := ['\\', c];
    assert t[..0] == [] && t[..1] == ['\\'] && t[..2] == t;
    assert ['\\'][..0] == [];
    assert ModeAfter(m, ['\\']) == Mode(d, true, true);
  }

  lemma UnitIsTame(t: string)
    requires Unit(t).Some?
    ensures |t| >= 4 && IsTame(t[..4])
  {
  }

  /** One character of a literal, however it is escaped. */
  lemma OneCharStays(d: nat, t: string)
    requires t != [] && t[0] != '"' && OneChar(t).Some?
    ensures Stays(d, t[..OneChar(t).value.1])
  {
    hide Stays, Unit, ModeAfter;
    var n := OneChar(t).value.1;
    if n == 1 {
      TameStays(d, t[..1]);
    } else {
      PairStays(d, t[1]);
      assert t[..2] == ['\\', t[1]];
      if n > 2 {
        UnitIsTame(t[2..]);
        assert t[2..][..4] == t[2..6];
        TameStays(d, t[2..6]);
        StaysConcat(d, t[..2], t[2..6]);
        assert t[..2] + t[2..6] == t[..6];
        if n > 6 {
          PairStays(d, t[7]);
          assert t[6..8] == ['\\', t[7]];
          UnitIsTame(t[8..]);
          assert t[8..][..4] == t[8..12];
          TameStays(d, t[8..12]);
          StaysConcat(d, t[..6], t[6..8]);
          assert t[..6] + t[6..8] == t[..8];
          StaysConcat(d, t[..8], t[8..12]);
          assert t[..8] + t[8..12] == t[..12];
        }
      }
    }
  }

  /** The body of a literal: everything up to its closing quote stays. */
  lemma {:induction false} BodyStays(d: nat, t: string) returns (n: nat)
    requires ParseBody(t).Some?
    ensures n < |t| && t[n] == '"' && Stays(d, t[..n]) && ParseBody(t).value.1 == t[n + 1..]
    decreases |t|
  {
    hide Stays, OneChar;
    if t[0] == '"' {
      n := 0;
      TameStays(d, t[..0]);
    } else {
      var m := OneChar(t).value.1;
      OneCharStays(d, t);
      n := BodyStays(d, t[m..]);
      StaysConcat(d, t[..m], t[m..][..n]);
      assert t[..m] + t[m..][..n] == t[..m + n];
      assert t[m..][n + 1..] == t[m + n + 1..];
      n := m + n;
    }
  }

  /** Any literal that the reader accepts brings the scan back to where it was. */
  lemma LiteralIsQuiet(d: nat, t: string)
    requires IsLiteral(t)
    ensures IsQuiet(d, t)
  {
    hide IsQuiet, Stays, ParseBody;
    var n := BodyStays(d, t[1..]);
    assert t == "\"" + (t[1..][..n] + "\"");
    QuotedIsQuiet(d, t[1..][..n]);
  }

  lemma QuotedIsQuiet(d: nat, inner: string)
    requires Stays(d, inner)
    ensures IsQuiet(d, "\"" + (inner + "\""))
  {
    var m, s, t := Mode(d, false, false), Mode(d, true, false), "\"" + (inner + "\"");
    QuoteMark(m);
    QuoteMark(s);
    hide ModeAfter;
    ModeConcat(m, "\"", inner + "\"");
    ModeConcat(s, inner, "\"");
    assert ModeAfter(m, t) == m;
    hide Stays;
    forall k | 0 <= k <= |t| ensures ModeAfter(m, t[..k]).depth >= d {
      QuotedDepth(d, inner, k);
    }
  }

  lemma QuotedDepth(d: nat, inner: string, k: nat)
    requires Stays(d, inner) && k <= |inner| + 2
    ensures ModeAfter(Mode(d, false, false), ("\"" + (inner + "\""))[..k]).depth == d
  {
    var m, s, t := Mode(d, false, false), Mode(d, true, false), "\"" + (inner + "\"");
    QuoteMark(m);
    QuoteMark(s);
    hide ModeAfter;
    if k == 0 {
      NoText(m);
      assert t[..k] == [];
    } else if k <= 1 + |inner| {
      assert t[..k] == "\"" + inner[..k - 1];
      ModeConcat(m, "\"", inner[..k - 1]);
    } else {
      assert t[..k] == t;
      ModeConcat(m, "\"", inner + "\"");
      ModeConcat(s, inner, "\"");
    }
  }

  lemma QuoteMark(m: Mode)
    requires !m.escaped
    ensures ModeAfter(m, "\"") == m.(inString := !m.inString)
  {
    assert "\""[..0] == [];
  }

  lemma Braces(d: nat)
    ensures ModeAfter(Mode(d, false, false), "{") == Mode(d + 1, false, false)
    ensures ModeAfter(Mode(d + 1, false, false), "}") == Mode(d, false, false)
  {
    assert "{"[..0] == [] && "}"[..0] == [];
  }

  /** Behind an opening brace every depth is one more. */
  lemma BehindBrace(d: nat, s: string, k: nat)
    requires k <= |s|
    ensures ModeAfter(Mode(d, false, false), ("{" + s)[..k + 1]) == ModeAfter(Mode(d + 1, false, false), s[..k])
  {
    Braces(d);
    hide ModeAfter;
    assert ("{" + s)[..k + 1] == "{" + s[..k];
    ModeConcat(Mode(d, false, false), "{", s[..k]);
  }

  lemma QuietInBraces(d: nat, s: string)
    requires IsQuiet(d + 1, s)
    ensures IsQuiet(d, "{" + s + "}")
    ensures forall k :: 0 < k < |s| + 2 ==> ModeAfter(Mode(d, false, false), ("{" + s + "}")[..k]).depth > d
  {
    var m, m1, t := Mode(d, false, false), Mode(d + 1, false, false), "{" + s + "}";
    Braces(d);
    NoText(m);
    hide ModeAfter;
    assert t == "{" + (s + "}");
    ModeConcat(m, "{", s + "}");
    ModeConcat(m1, s, "}");
    assert t[..0] == [] && t[..|t|] == t;
    forall k | 0 < k < |s| + 2 ensures ModeAfter(m, t[..k]).depth > d {
      assert t[..k] == ("{" + s)[..k - 1 + 1];
      BehindBrace(d, s, k - 1);
    }
  }

  lemma BlankIsQuiet(d: nat, t: string)
    requires IsBlank(t)
    ensures IsQuiet(d, t)
  {
    PlainIsQuiet(d, t);
  }

  lemma {:induction false} RenderIsQuiet(d: nat, j: Json)
    requires IsWritten(j)
    ensures IsQuiet(d, Render(j))
    decreases j, 2, 0
  {
    hide IsQuiet, IsLiteral;
    match j
    case Atom(t) => PlainIsQuiet(d, t);
    case Text(t) => LiteralIsQuiet(d, t);
    case Array(blank, items) =>
      ItemsAreQuiet(d, j, |items|);
      assert items[..|items|] == items;
      PlainIsQuiet(d, "[");
      PlainIsQuiet(d, "]");
      BlankIsQuiet(d, blank);
      QuietConcat(d, "[", blank);
      QuietConcat(d, "[" + blank, RenderItems(items));
      QuietConcat(d, "[" + blank + RenderItems(items), "]");
    case Object(blank, fields) =>
      FieldsAreQuiet(d + 1, j, |fields|);
      assert fields[..|fields|] == fields;
      BlankIsQuiet(d + 1, blank);
      QuietConcat(d + 1, blank, RenderFields(fields));
      QuietInBraces(d, blank + RenderFields(fields));
  }

  lemma PaddedIsQuiet(d: nat, v: Padded)
    requires IsPadded(v) && IsQuiet(d, Render(v.value))
    ensures IsQuiet(d, RenderPadded(v))
  {
    hide IsQuiet, Render;
    BlankIsQuiet(d, v.left);
    BlankIsQuiet(d, v.right);
    QuietConcat(d, v.left, Render(v.value));
    QuietConcat(d, v.left + Render(v.value), v.right);
  }

  lemma FieldIsQuiet(d: nat, f: Field)
    requires IsField(f) && IsQuiet(d, Render(f.value.value))
    ensures IsQuiet(d, RenderField(f))
  {
    hide IsQuiet, Render, RenderPadded, IsLiteral;
    PaddedIsQuiet(d, f.value);
    BlankIsQuiet(d, f.left);
    BlankIsQuiet(d, f.right);
    LiteralIsQuiet(d, f.name);
    PlainIsQuiet(d, ":");
    QuietConcat(d, f.left, f.name);
    QuietConcat(d, f.left + f.name, f.right);
    QuietConcat(d, f.left + f.name + f.right, ":");
    QuietConcat(d, f.left + f.name + f.right + ":", RenderPadded(f.value));
  }

  lemma {:induction false} ItemsAreQuiet(d: nat, j: Json, n: nat)
    requires IsWritten(j) && j.Array? && n <= |j.items|
    ensures IsQuiet(d, RenderItems(j.items[..n]))
    decreases j, 1, n
  {
    hide IsQuiet, RenderPadded;
    var items := j.items[..n];
    PlainIsQuiet(d, "");
    if n > 0 {
      var last := j.items[n - 1];
      assert IsPadded(last) && last == items[n - 1] && items[..n - 1] == j.items[..n - 1];
      RenderIsQuiet(d, j.items[n - 1].value);
      PaddedIsQuiet(d, last);
      if n > 1 {
        ItemsAreQuiet(d, j, n - 1);
        PlainIsQuiet(d, ",");
        QuietConcat(d, RenderItems(items[..n - 1]), ",");
        QuietConcat(d, RenderItems(items[..n - 1]) + ",", RenderPadded(last));
      } else {
        assert [] + RenderPadded(last) == RenderPadded(last);
      }
    }
  }

  lemma {:induction false} FieldsAreQuiet(d: nat, j: Json, n: nat)
    requires IsWritten(j) && j.Object? && n <= |j.fields|
    ensures IsQuiet(d, RenderFields(j.fields[..n]))
    decreases j, 1, n
  {
    hide IsQuiet, RenderField;
    var fields := j.fields[..n];
    PlainIsQuiet(d, "");
    if n > 0 {
      var last := j.fields[n - 1];
      assert IsField(last) && last == fields[n - 1] && fields[..n - 1] == j.fields[..n - 1];
      assert IsPadded(last.value) && IsWritten(last.value.value);
      RenderIsQuiet(d, j.fields[n - 1].value.value);
      FieldIsQuiet(d, last);
      if n > 1 {
        FieldsAreQuiet(d, j, n - 1);
        PlainIsQuiet(d, ",");
        QuietConcat(d, RenderFields(fields[..n - 1]), ",");
        QuietConcat(d, RenderFields(fields[..n - 1]) + ",", RenderField(last));
      } else {
        assert [] + RenderField(last) == RenderField(last);
      }
    }
  }

  /** Main result: a JSON object, with any blanks and any literals, whatever braces and
      quotes its texts hold, is a span by itself: no string can fool the scan. */
  lemma WrittenObjectIsASpan(j: Json)
    requires j.Object? && IsWritten(j)
    ensures IsSpan(Render(j), 0, |Render(j)|)
  {
    var s := j.blank + RenderFields(j.fields);
    var o := "{" + s + "}";
    assert Render(j) == o;
    assert j.fields[..|j.fields|] == j.fields;
    hide ModeAfter, Render, RenderFields;
    FieldsAreQuiet(1, j, |j.fields|);
    BlankIsQuiet(1, j.blank);
    QuietConcat(1, j.blank, RenderFields(j.fields));
    QuietInBraces(0, s);
    assert o[0..|o|] == o && o[..|o|] == o;
    forall e | 0 < e < |o| ensures ModeAfter(START, o[0..e]).depth > 0 {
      assert o[0..e] == o[..e];
    }
  }

  /** Main result: a comment that holds one object among other words gives back exactly
      its bundle, or nothing if it is none. */
  lemma OneObjectIsReturned<T>(p: string, j: Json, rest: string, spans: seq<(nat, nat)>, parse: string -> Option<T>)
    requires j.Object? && IsWritten(j) && NoBrace(p) && NoBrace(rest) && IsScan(p + Render(j) + rest, 0, spans)
    ensures Accepted(p + Render(j) + rest, spans, parse)
         == if parse(Render(j)).Some? then [parse(Render(j)).value] else []
  {
    var o := Render(j);
    var text := p + o + rest;
    WrittenObjectIsASpan(j);
    SpanMoves(p, o, rest);
    hide IsWritten, Render, IsScan, IsSpan;
    FirstSpanBehind(text, 0, |p|, |p| + |o|, spans);
    assert text[|p|..|p| + |o|] == o;
    assert spans[..0] == [] && Accepted(text, [], parse) == [];
  }

  /** In particular one whose strings the build script's writer has written. */
  lemma QuotesAreLiterals(s: string)
    ensures IsLiteral(Quote(s))
  {
    QuoteReadsBack(s, []);
    assert Quote(s) + [] == Quote(s);
  }

  /** Scanned from depth 1 on, the text never comes back to depth 0. */
  ghost predicate StaysOpen(rest: string) {
    forall e :: 0 <= e <= |rest| ==> ModeAfter(Mode(1, false, false), rest[..e]).depth > 0
  }

  lemma BehindStrayBrace(j: Json, rest: string, e: nat)
    requires IsWritten(j) && 0 < e <= 1 + |Render(j)| + |rest|
    ensures var n := 1 + |Render(j)|;
            var depth := ModeAfter(START, ("{" + Render(j) + rest)[0..e]).depth;
            if e <= n then depth > 0 else depth == ModeAfter(Mode(1, false, false), rest[..e - n]).depth
  {
    var o, n, text := Render(j), 1 + |Render(j)|, "{" + Render(j) + rest;
    RenderIsQuiet(1, j);
    hide ModeAfter, Render;
    assert text == "{" + (o + rest) && text[0..e] == ("{" + (o + rest))[..e - 1 + 1];
    BehindBrace(0, o + rest, e - 1);
    if e <= n {
      assert (o + rest)[..e - 1] == o[..e - 1];
    } else {
      assert (o + rest)[..e - 1] == o + rest[..e - n];
      ModeConcat(Mode(1, false, false), o, rest[..e - n]);
    }
  }

  /** Main result: one stray brace before an object hides it whatever follows, inside a
      longer span if the text closes the brace later on; if and only if it never does,
      everything behind it is hidden too. */
  lemma StrayBraceHides(j: Json, rest: string, spans: seq<(nat, nat)>)
    requires IsWritten(j) && IsScan("{" + Render(j) + rest, 0, spans)
    ensures var n := 1 + |Render(j)|;
            && (1, n) !in spans
            && (spans == [] <==> StaysOpen(rest))
            && (spans != [] ==> spans[0].0 == 0 && spans[0].1 > n)
  {
    var text, n := "{" + Render(j) + rest, 1 + |Render(j)|;
    hide Render;
    assert |text| == n + |rest| && text[0] == '{';
    if spans != [] {
      BehindStrayBrace(j, rest, spans[0].1);
      SpanIsNotOpen(rest, text, n, spans[0].1, j);
      if (1, n) in spans[1..] {
        SpansStartAt(text, spans[0].1, spans[1..], (1, n));
      }
      InRest(spans, (1, n));
    } else {
      forall e | 0 <= e <= |rest| ensures ModeAfter(Mode(1, false, false), rest[..e]).depth > 0 {
        if e == 0 {
          NoText(Mode(1, false, false));
          assert rest[..0] == [];
        } else {
          BehindStrayBrace(j, rest, n + e);
        }
      }
    }
  }

  lemma SpanIsNotOpen(rest: string, text: string, n: nat, end: nat, j: Json)
    requires IsWritten(j) && n == 1 + |Render(j)| && text == "{" + Render(j) + rest && IsSpan(text, 0, end)
    ensures end > n && !StaysOpen(rest)
  {
    BehindStrayBrace(j, rest, end);
  }
}
