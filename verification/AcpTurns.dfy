/** The editor protocol server: prompts, cancels and driver updates of many
    sessions interleave freely, yet each session's frames come out turn by turn. */
module AcpTurns {
  import opened Wrappers

  type Update = string

  datatype Outcome = Completed(text: string) | Failed(text: string) | Cancelled

  function StopReason(o: Outcome): string {
    match o
    case Completed(_) => "end_turn"
    case Failed(_) => "refusal"
    case Cancelled => "cancelled"
  }

  function FinalText(o: Outcome): Option<string> {
    match o
    case Completed(m) => Some(m)
    case Failed(m) => Some(m)
    case Cancelled => None
  }

  datatype Frame =
    | Created(session: nat)
    | Rejected(id: int)
    | Notify(session: nat, update: Update)
    | Chunk(session: nat, text: string)
    | Answer(session: nat, id: int, stopReason: string)

  /** A turn waits for its session, has taken its turn lock, runs with its cancel
      token in place, has returned but not been drained, has its token cleared,
      has sent its closing text, has answered, or has given the lock back. */
  datatype Phase = Waiting | Locked | Running | Returned | Cleared | Closed | Answered | Ended

  /** `produced` is all the driver has sent, `passed` what the pump has passed on,
      and `channel` what lies between them. */
  datatype Turn = Turn(session: nat, id: int, phase: Phase, produced: seq<Update>, channel: seq<Update>,
                       passed: seq<Update>, outcome: Outcome)

  /** `served` lists the turns in the order in which they got the lock. */
  datatype Session = Session(lock: Option<nat>, cancel: Option<nat>, served: seq<nat>)

  /** Tokens carry the number of their turn. A cancel takes the token out of its slot
      under the lock, and fires it afterwards. */
  datatype Server = Server(sessions: seq<Session>, turns: seq<Turn>, taken: set<nat>, fired: set<nat>,
                           outbound: seq<Frame>)

  const CHANNEL_CAPACITY := 64

  datatype Step =
    | SessionNew
    | Prompt(session: nat, id: int, wellFormed: bool)
    | Cancel(session: nat)
    | Fire(k: nat)
    | Lock(k: nat)
    | Register(k: nat)
    | Emit(k: nat, update: Update)
    | Pump(k: nat)
    | Return(k: nat, done: Option<string>, error: Option<string>)
    | ClearCancel(k: nat)
    | Close(k: nat)
    | SendAnswer(k: nat)
    | Unlock(k: nat)

  predicate At(w: Server, k: nat, phase: Phase) {
    k < |w.turns| && w.turns[k].session < |w.sessions| && w.turns[k].phase == phase
  }

  predicate Enabled(w: Server, s: Step) {
    match s
    case SessionNew => true
    case Prompt(_, _, _) => true
    case Cancel(_) => true
    case Fire(k) => k in w.taken
    case Lock(k) => At(w, k, Waiting) && w.sessions[w.turns[k].session].lock.None?
    case Register(k) => At(w, k, Locked)
    case Emit(k, _) => At(w, k, Running) && |w.turns[k].channel| < CHANNEL_CAPACITY
    case Pump(k) => (At(w, k, Running) || At(w, k, Returned)) && w.turns[k].channel != []
    case Return(k, _, _) => At(w, k, Running)
    case ClearCancel(k) => At(w, k, Returned) && w.turns[k].channel == []
    case Close(k) => At(w, k, Cleared)
    case SendAnswer(k) => At(w, k, Closed)
    case Unlock(k) => At(w, k, Answered)
  }

  /** The end of a run: a fired token wins over everything, then the reply. */
  function Fold(cancelled: bool, done: Option<string>, error: Option<string>): Outcome {
    if cancelled then Cancelled
    else if done.Some? then Completed(done.value)
    else if error.Some? then Failed(error.value)
    else Failed("agent produced no output")
  }

  function WithTurn(w: Server, k: nat, t: Turn): Server
    requires k < |w.turns|
  {
    w.(turns := w.turns[k := t])
  }

  function WithSession(w: Server, n: nat, s: Session): Server
    requires n < |w.sessions|
  {
    w.(sessions := w.sessions[n := s])
  }

  function Send(w: Server, f: Frame): Server {
    w.(outbound := w.outbound + [f])
  }

  function Closing(t: Turn): seq<Frame> {
    if FinalText(t.outcome).Some? then [Chunk(t.session, FinalText(t.outcome).value)] else []
  }

  function Next(w: Server, s: Step): Server
    requires Enabled(w, s)
  {
    match s
    case SessionNew => Send(w.(sessions := w.sessions + [Session(None, None, [])]), Created(|w.sessions|))
    case Prompt(n, id, wellFormed) =>
      if n >= |w.sessions| || !wellFormed then Send(w, Rejected(id))
      else w.(turns := w.turns + [Turn(n, id, Waiting, [], [], [], Cancelled)])
    case Cancel(n) =>
      if n < |w.sessions| && w.sessions[n].cancel.Some? then
        WithSession(w, n, w.sessions[n].(cancel := None)).(taken := w.taken + {w.sessions[n].cancel.value})
      else w
    case Fire(k) => w.(taken := w.taken - {k}, fired := w.fired + {k})
    case Lock(k) =>
      var n := w.turns[k].session;
      WithSession(WithTurn(w, k, w.turns[k].(phase := Locked)), n,
                  w.sessions[n].(lock := Some(k), served := w.sessions[n].served + [k]))
    case Register(k) =>
      var n := w.turns[k].session;
      WithSession(WithTurn(w, k, w.turns[k].(phase := Running)), n, w.sessions[n].(cancel := Some(k)))
    case Emit(k, u) =>
      var t := w.turns[k];
      WithTurn(w, k, t.(produced := t.produced + [u], channel := t.channel + [u]))
    case Pump(k) =>
      var t := w.turns[k];
      Send(WithTurn(w, k, t.(channel := t.channel[1..], passed := t.passed + [t.channel[0]])),
           Notify(t.session, t.channel[0]))
    case Return(k, done, error) =>
      WithTurn(w, k, w.turns[k].(phase := Returned, outcome := Fold(k in w.fired, done, error)))
    case ClearCancel(k) =>
      var n := w.turns[k].session;
      WithSession(WithTurn(w, k, w.turns[k].(phase := Cleared)), n, w.sessions[n].(cancel := None))
    case Close(k) =>
      var t := w.turns[k];
      var w1 := WithTurn(w, k, t.(phase := Closed));
      w1.(outbound := w1.outbound + Closing(t))
    case SendAnswer(k) =>
      var t := w.turns[k];
      Send(WithTurn(w, k, t.(phase := Answered)), Answer(t.session, t.id, StopReason(t.outcome)))
    case Unlock(k) =>
      var n := w.turns[k].session;
      WithSession(WithTurn(w, k, w.turns[k].(phase := Ended)), n, w.sessions[n].(lock := None))
  }

  // ---- What a session says ----

  /** The frames of one session, rejections and greetings left out. */
  function Said(out: seq<Frame>, n: nat): seq<Frame> {
    if out == [] then []
    else
      var f := out[|out| - 1];
      Said(out[..|out| - 1], n)
      + (if (f.Notify? || f.Chunk? || f.Answer?) && f.session == n then [f] else [])
  }

  function Notes(n: nat, us: seq<Update>): seq<Frame> {
    seq(|us|, i requires 0 <= i < |us| => Notify(n, us[i]))
  }

  /** What a turn has said so far: its updates in driver order, then its closing
      text if it has one, then its one answer. */
  function Block(t: Turn): seq<Frame> {
    Notes(t.session, t.passed)
    + (if t.phase.Closed? || t.phase.Answered? || t.phase.Ended? then Closing(t) else [])
    + (if t.phase.Answered? || t.phase.Ended? then [Answer(t.session, t.id, StopReason(t.outcome))] else [])
  }

  function Blocks(turns: seq<Turn>, served: seq<nat>): seq<Frame> {
    if served == [] then []
    else
      var k := served[|served| - 1];
      Blocks(turns, served[..|served| - 1]) + (if k < |turns| then Block(turns[k]) else [])
  }

  // ---- What every step keeps ----

  ghost predicate TurnOk(w: Server, k: nat)
    requires k < |w.turns|
  {
    var t := w.turns[k];
    ChannelOk(t) && SeatOk(w, k)
  }

  ghost predicate SeatOk(w: Server, k: nat)
    requires k < |w.turns|
  {
    var t := w.turns[k];
    && t.session < |w.sessions|
    && (t.phase.Waiting? || t.phase.Locked? ==> k !in w.taken && k !in w.fired)
    && (t.phase.Waiting? <==> k !in w.sessions[t.session].served)
    && (w.sessions[t.session].lock == Some(k) <==> !t.phase.Waiting? && !t.phase.Ended?)
  }

  /** Nothing is lost or reordered between the driver and the pump. */
  ghost predicate ChannelOk(t: Turn) {
    && t.produced == t.passed + t.channel
    && (t.phase.Waiting? || t.phase.Locked? ==> t.produced == [])
    && (t.phase.Cleared? || t.phase.Closed? || t.phase.Answered? || t.phase.Ended? ==> t.channel == [])
  }

  ghost predicate SessionOk(w: Server, n: nat)
    requires n < |w.sessions|
  {
    ServedOk(w, n) && SlotOk(w, n)
  }

  ghost predicate ServedOk(w: Server, n: nat)
    requires n < |w.sessions|
  {
    var s := w.sessions[n];
    && (forall i :: 0 <= i < |s.served| ==> s.served[i] < |w.turns| && w.turns[s.served[i]].session == n)
    && (forall i, j :: 0 <= i < j < |s.served| ==> s.served[i] != s.served[j])
    && (s.lock.Some? ==> s.served != [] && s.served[|s.served| - 1] == s.lock.value)
  }

  ghost predicate SlotOk(w: Server, n: nat)
    requires n < |w.sessions|
  {
    var s := w.sessions[n];
    s.cancel.Some? ==>
      && s.lock == s.cancel && s.cancel.value < |w.turns|
      && (w.turns[s.cancel.value].phase.Running? || w.turns[s.cancel.value].phase.Returned?)
  }

  ghost predicate Says(w: Server, n: nat)
    requires n < |w.sessions|
  {
    Said(w.outbound, n) == Blocks(w.turns, w.sessions[n].served)
  }

  ghost predicate Inv(w: Server) {
    && (forall k :: 0 <= k < |w.turns| ==> TurnOk(w, k))
    && (forall n :: 0 <= n < |w.sessions| ==> SessionOk(w, n))
    && (forall n :: 0 <= n < |w.sessions| ==> Says(w, n))
    && (forall k :: k in w.taken ==> k < |w.turns|)
    && (forall k :: k in w.fired ==> k < |w.turns|)
    && (forall i :: 0 <= i < |w.outbound| && !w.outbound[i].Rejected? ==> w.outbound[i].session < |w.sessions|)
  }

  function Mover(s: Step): Option<nat> {
    match s
    case SessionNew => None
    case Prompt(_, _, _) => None
    case Cancel(_) => None
    case Fire(_) => None
    case _ => Some(s.k)
  }

  /** A mover touches its own turn and its own session only, and there the lock
      passes between nobody and itself. */
  ghost predicate Frames(w: Server, w': Server, k: nat)
    requires k < |w.turns| && w.turns[k].session < |w.sessions|
  {
    var n := w.turns[k].session;
    && |w'.turns| == |w.turns| && |w'.sessions| == |w.sessions| && w'.fired == w.fired && w'.taken == w.taken
    && w'.turns == w.turns[k := w'.turns[k]] && w'.turns[k].session == n
    && w'.sessions == w.sessions[n := w'.sessions[n]]
    && var s, s' := w.sessions[n], w'.sessions[n];
       if w.turns[k].phase.Waiting? then s.lock.None? && s'.lock == Some(k) && s'.served == s.served + [k]
       else s'.served == s.served && (s'.lock == s.lock || (s.lock == Some(k) && s'.lock.None?))
  }

  lemma MoversFrame(w: Server, s: Step, k: nat)
    requires Enabled(w, s) && Mover(s) == Some(k) && TurnOk(w, k) && SessionOk(w, w.turns[k].session)
    ensures Frames(w, Next(w, s), k)
  {
    hide Fold, Closing, Says;
  }

  lemma OwnTurn(w: Server, s: Step, k: nat)
    requires Enabled(w, s) && Mover(s) == Some(k) && TurnOk(w, k) && SessionOk(w, w.turns[k].session)
    ensures Frames(w, Next(w, s), k) && TurnOk(Next(w, s), k)
  {
    MoversFrame(w, s, k);
    OwnChannel(w, s, k);
    OwnSeat(w, s, k);
    hide Next, Enabled, ChannelOk, SeatOk;
  }

  lemma OwnSeat(w: Server, s: Step, k: nat)
    requires Enabled(w, s) && Mover(s) == Some(k) && SeatOk(w, k) && SessionOk(w, w.turns[k].session)
    ensures k < |Next(w, s).turns| && SeatOk(Next(w, s), k)
  {
    hide Fold, Closing, ServedOk, SlotOk;
  }

  lemma OwnChannel(w: Server, s: Step, k: nat)
    requires Enabled(w, s) && Mover(s) == Some(k) && ChannelOk(w.turns[k])
    ensures ChannelOk(Next(w, s).turns[k])
  {
    hide Fold, Closing;
    var t, t' := w.turns[k], Next(w, s).turns[k];
    assert s.Emit? ==> (t.passed + t.channel) + [s.update] == t.passed + (t.channel + [s.update]);
    assert s.Pump? ==> t.passed + t.channel == (t.passed + [t.channel[0]]) + t.channel[1..];
  }

  lemma OtherTurn(w: Server, w': Server, k: nat, j: nat)
    requires k < |w.turns| && w.turns[k].session < |w.sessions| && Frames(w, w', k)
    requires j < |w.turns| && j != k && TurnOk(w, j)
    ensures TurnOk(w', j)
  {
    hide ChannelOk;
    var n := w.turns[j].session;
    assert w'.turns[j] == w.turns[j];
    assert j in w'.sessions[n].served <==> j in w.sessions[n].served;
  }

  lemma OwnSession(w: Server, s: Step, k: nat)
    requires Enabled(w, s) && Mover(s) == Some(k) && TurnOk(w, k) && SessionOk(w, w.turns[k].session)
    ensures w.turns[k].session < |Next(w, s).sessions| && SessionOk(Next(w, s), w.turns[k].session)
  {
    MoversFrame(w, s, k);
    OwnServed(w, Next(w, s), k);
    OwnSlot(w, s, k);
  }

  lemma OwnServed(w: Server, w': Server, k: nat)
    requires k < |w.turns| && w.turns[k].session < |w.sessions| && Frames(w, w', k) && TurnOk(w, k)
    requires ServedOk(w, w.turns[k].session)
    ensures ServedOk(w', w.turns[k].session)
  {
    hide ChannelOk;
    var n := w.turns[k].session;
    assert forall i :: 0 <= i < |w.turns| ==> w'.turns[i].session == w.turns[i].session;
    assert k in w.sessions[n].served ==> w'.sessions[n].served == w.sessions[n].served;
  }

  lemma OwnSlot(w: Server, s: Step, k: nat)
    requires Enabled(w, s) && Mover(s) == Some(k) && TurnOk(w, k) && SlotOk(w, w.turns[k].session)
    ensures w.turns[k].session < |Next(w, s).sessions| && SlotOk(Next(w, s), w.turns[k].session)
  {
    hide ChannelOk, Fold, Closing;
  }

  lemma OtherSession(w: Server, w': Server, k: nat, n: nat)
    requires k < |w.turns| && w.turns[k].session < |w.sessions| && Frames(w, w', k)
    requires n < |w.sessions| && n != w.turns[k].session && SessionOk(w, n)
    ensures SessionOk(w', n)
  {
  }

  lemma MoveKeeps(w: Server, s: Step, k: nat)
    requires Inv(w) && Enabled(w, s) && Mover(s) == Some(k)
    ensures forall j :: 0 <= j < |Next(w, s).turns| ==> TurnOk(Next(w, s), j)
    ensures forall n :: 0 <= n < |Next(w, s).sessions| ==> SessionOk(Next(w, s), n)
  {
    var w' := Next(w, s);
    assert TurnOk(w, k) && w.turns[k].session < |w.sessions| && SessionOk(w, w.turns[k].session);
    hide Next, TurnOk, SessionOk, Says;
    OwnTurn(w, s, k);
    OwnSession(w, s, k);
    forall j | 0 <= j < |w'.turns| ensures TurnOk(w', j) {
      if j != k { OtherTurn(w, w', k, j); }
    }
    forall n | 0 <= n < |w'.sessions| ensures SessionOk(w', n) {
      if n != w.turns[k].session { OtherSession(w, w', k, n); }
    }
  }

  lemma OthersKeep(w: Server, s: Step)
    requires Inv(w) && Enabled(w, s) && Mover(s).None?
    ensures forall j :: 0 <= j < |Next(w, s).turns| ==> TurnOk(Next(w, s), j)
    ensures forall n :: 0 <= n < |Next(w, s).sessions| ==> SessionOk(Next(w, s), n)
  {
    hide Says;
    var w' := Next(w, s);
    forall j | 0 <= j < |w'.turns| ensures TurnOk(w', j) {
      if j < |w.turns| {
        KeepsTurn(w, s, j);
      } else if s.Prompt? {
        assert SessionOk(w, s.session);
      }
    }
    forall n | 0 <= n < |w'.sessions| ensures SessionOk(w', n) {
      assert n < |w.sessions| ==> SessionOk(w, n);
    }
  }

  lemma KeepsTurn(w: Server, s: Step, j: nat)
    requires Inv(w) && Enabled(w, s) && Mover(s).None? && j < |w.turns|
    ensures TurnOk(Next(w, s), j)
  {
    hide Says, ChannelOk;
    assert TurnOk(w, j) && SessionOk(w, w.turns[j].session);
    if s.Cancel? && s.session < |w.sessions| && w.sessions[s.session].cancel.Some? {
      assert SessionOk(w, s.session);
    }
    hide Inv, SessionOk;
  }

  lemma {:induction false} SaidAppends(out: seq<Frame>, fs: seq<Frame>, n: nat)
    ensures Said(out + fs, n) == Said(out, n) + Said(fs, n)
  {
    if fs == [] {
      assert out + fs == out;
    } else {
      var m := |fs| - 1;
      assert (out + fs)[..|out| + m] == out + fs[..m];
      SaidAppends(out, fs[..m], n);
    }
  }

  lemma SaidOne(out: seq<Frame>, f: Frame, n: nat)
    ensures Said(out + [f], n)
         == Said(out, n) + (if (f.Notify? || f.Chunk? || f.Answer?) && f.session == n then [f] else [])
  {
    assert (out + [f])[..|out|] == out;
  }

  lemma {:induction false} SaidNothing(out: seq<Frame>, n: nat)
    requires forall i :: 0 <= i < |out| && !out[i].Rejected? ==> out[i].session < n
    ensures Said(out, n) == []
  {
    if out != [] {
      SaidNothing(out[..|out| - 1], n);
    }
  }

  lemma {:induction false} BlocksOfOthers(turns: seq<Turn>, served: seq<nat>, k: nat, t: Turn)
    requires k < |turns| && k !in served
    ensures Blocks(turns[k := t], served) == Blocks(turns, served)
  {
    hide Block;
    if served != [] {
      BlocksOfOthers(turns, served[..|served| - 1], k, t);
    }
  }

  lemma {:induction false} BlocksOfFormer(turns: seq<Turn>, served: seq<nat>, t: Turn)
    requires forall i :: 0 <= i < |served| ==> served[i] < |turns|
    ensures Blocks(turns + [t], served) == Blocks(turns, served)
  {
    hide Block;
    if served != [] {
      BlocksOfFormer(turns, served[..|served| - 1], t);
    }
  }

  /** What a move says is what its turn's block gains. */
  function Saying(w: Server, s: Step, k: nat): seq<Frame>
    requires k < |w.turns|
  {
    var t := w.turns[k];
    match s
    case Pump(_) => if t.channel != [] then [Notify(t.session, t.channel[0])] else []
    case Close(_) => Closing(t)
    case SendAnswer(_) => [Answer(t.session, t.id, StopReason(t.outcome))]
    case _ => []
  }

  lemma MoveSays(w: Server, s: Step, k: nat)
    requires Enabled(w, s) && Mover(s) == Some(k) && ChannelOk(w.turns[k])
    ensures var w' := Next(w, s);
            && k < |w'.turns|
            && w'.outbound == w.outbound + Saying(w, s, k)
            && Block(w'.turns[k]) == Block(w.turns[k]) + Saying(w, s, k)
            && (s.Lock? ==> Block(w'.turns[k]) == [])
  {
    hide Fold, FinalText, StopReason;
    var t := w.turns[k];
    if s.Pump? {
      assert Notes(t.session, t.passed + [t.channel[0]])
          == Notes(t.session, t.passed) + [Notify(t.session, t.channel[0])];
    }
  }

  lemma SayingIsItsOwn(w: Server, s: Step, k: nat)
    requires k < |w.turns|
    ensures forall i :: 0 <= i < |Saying(w, s, k)| ==>
              (Saying(w, s, k)[i].Notify? || Saying(w, s, k)[i].Chunk? || Saying(w, s, k)[i].Answer?)
              && Saying(w, s, k)[i].session == w.turns[k].session
  {
    hide FinalText, StopReason;
  }

  lemma {:induction false} SaidByOne(fs: seq<Frame>, n: nat, m: nat)
    requires forall i :: 0 <= i < |fs| ==> (fs[i].Notify? || fs[i].Chunk? || fs[i].Answer?) && fs[i].session == n
    ensures Said(fs, m) == if m == n then fs else []
  {
    if fs != [] {
      SaidByOne(fs[..|fs| - 1], n, m);
    }
  }

  lemma MoveKeepsSays(w: Server, s: Step, k: nat, m: nat)
    requires Inv(w) && Enabled(w, s) && Mover(s) == Some(k) && m < |w.sessions|
    ensures m < |Next(w, s).sessions| && Says(Next(w, s), m)
  {
    var w', n := Next(w, s), w.turns[k].session;
    var fs := Saying(w, s, k);
    assert TurnOk(w, k) && SessionOk(w, n) && Says(w, m) && SessionOk(w, m);
    MoversFrame(w, s, k);
    MoveSays(w, s, k);
    SayingIsItsOwn(w, s, k);
    SaidAppends(w.outbound, fs, m);
    SaidByOne(fs, n, m);
    hide Said, Block, Saying, ChannelOk, Inv;
    var served := w.sessions[m].served;
    if m != n {
      assert k !in served;
      hide Next, SessionOk, TurnOk;
      BlocksOfOthers(w.turns, served, k, w'.turns[k]);
    } else if s.Lock? {
      BlocksOfOthers(w.turns, served, k, w'.turns[k]);
      assert w'.sessions[n].served[..|served|] == served;
      hide Frames, SessionOk, TurnOk;
    } else {
      OwnBlockGrows(w, s, k);
    }
  }

  lemma OwnBlockGrows(w: Server, s: Step, k: nat)
    requires Enabled(w, s) && Mover(s) == Some(k) && !s.Lock? && TurnOk(w, k) && SessionOk(w, w.turns[k].session)
    ensures var w', n := Next(w, s), w.turns[k].session;
            && n < |w'.sessions|
            && Blocks(w'.turns, w'.sessions[n].served) == Blocks(w.turns, w.sessions[n].served) + Saying(w, s, k)
  {
    var w', n := Next(w, s), w.turns[k].session;
    hide Next, Enabled, Block, Blocks, Saying, ChannelOk, SlotOk;
    MoversFrame(w, s, k);
    MoveSays(w, s, k);
    HasTheLock(w, s, k);
    LastBlockGrows(w.turns, w.sessions[n].served, k, w'.turns[k], Saying(w, s, k));
  }

  lemma HasTheLock(w: Server, s: Step, k: nat)
    requires Enabled(w, s) && Mover(s) == Some(k) && !s.Lock?
    ensures At(w, k, w.turns[k].phase) && !w.turns[k].phase.Waiting? && !w.turns[k].phase.Ended?
  {
  }

  lemma LastBlockGrows(turns: seq<Turn>, served: seq<nat>, k: nat, t: Turn, more: seq<Frame>)
    requires k < |turns| && Block(t) == Block(turns[k]) + more
    requires served != [] && served[|served| - 1] == k
    requires forall i, j :: 0 <= i < j < |served| ==> served[i] != served[j]
    ensures Blocks(turns[k := t], served) == Blocks(turns, served) + more
  {
    hide Block;
    BlocksOfOthers(turns, served[..|served| - 1], k, t);
  }

  lemma OthersFrame(w: Server, s: Step, m: nat)
    requires Enabled(w, s) && Mover(s).None? && m < |w.sessions|
    ensures var w' := Next(w, s);
            && m < |w'.sessions| && w'.sessions[m].served == w.sessions[m].served
            && (w'.turns == w.turns
                || (|w'.turns| == |w.turns| + 1 && w'.turns == w.turns + [w'.turns[|w.turns|]]))
  {
  }

  lemma OthersKeepSays(w: Server, s: Step, m: nat)
    requires Inv(w) && Enabled(w, s) && Mover(s).None? && m < |Next(w, s).sessions|
    ensures Says(Next(w, s), m)
  {
    hide Says;
    if m < |w.sessions| {
      assert Says(w, m) && SessionOk(w, m);
      FormerSaysTheSame(w, s, m);
    } else {
      NewcomerIsSilent(w, s, m);
    }
  }

  lemma FormerSaysTheSame(w: Server, s: Step, m: nat)
    requires Enabled(w, s) && Mover(s).None? && m < |w.sessions| && Says(w, m) && ServedOk(w, m)
    ensures m < |Next(w, s).sessions| && Says(Next(w, s), m)
  {
    var w' := Next(w, s);
    OthersSayNothing(w, s, m);
    OthersFrame(w, s, m);
    hide Said, Next, Enabled, Blocks;
    if w'.turns != w.turns {
      BlocksOfFormer(w.turns, w.sessions[m].served, w'.turns[|w.turns|]);
    }
  }

  lemma NewcomerIsSilent(w: Server, s: Step, m: nat)
    requires Enabled(w, s) && Mover(s).None? && |w.sessions| <= m < |Next(w, s).sessions|
    requires forall i :: 0 <= i < |w.outbound| && !w.outbound[i].Rejected? ==> w.outbound[i].session < |w.sessions|
    ensures Says(Next(w, s), m)
  {
    OthersSayNothing(w, s, m);
    SaidNothing(w.outbound, m);
    hide Said;
  }

  lemma OthersSayNothing(w: Server, s: Step, m: nat)
    requires Enabled(w, s) && Mover(s).None?
    ensures Said(Next(w, s).outbound, m) == Said(w.outbound, m)
  {
    var w' := Next(w, s);
    if w'.outbound != w.outbound {
      SaidOne(w.outbound, w'.outbound[|w.outbound|], m);
    }
  }

  lemma StepKeepsFrames(w: Server, s: Step)
    requires Inv(w) && Enabled(w, s)
    ensures var w' := Next(w, s);
            && (forall k :: k in w'.taken ==> k < |w'.turns|)
            && (forall k :: k in w'.fired ==> k < |w'.turns|)
            && (forall i :: 0 <= i < |w'.outbound| && !w'.outbound[i].Rejected? ==>
                  w'.outbound[i].session < |w'.sessions|)
  {
    hide Says, TurnOk, Fold, ServedOk;
    if s.Cancel? && s.session < |w.sessions| {
      assert SessionOk(w, s.session);
    }
    hide SessionOk, SlotOk;
  }

  lemma StepKeeps(w: Server, s: Step)
    requires Inv(w) && Enabled(w, s)
    ensures Inv(Next(w, s))
  {
    var w' := Next(w, s);
    StepKeepsFrames(w, s);
    if Mover(s).Some? {
      MoveKeeps(w, s, s.k);
      MoversStay(w, s);
      forall m | 0 <= m < |w'.sessions| ensures Says(w', m) {
        MoveKeepsSays(w, s, s.k, m);
      }
    } else {
      OthersKeep(w, s);
      forall m | 0 <= m < |w'.sessions| ensures Says(w', m) {
        OthersKeepSays(w, s, m);
      }
    }
    hide Next, Says, TurnOk, SessionOk;
  }

  lemma MoversStay(w: Server, s: Step)
    requires Enabled(w, s) && Mover(s).Some?
    ensures |Next(w, s).sessions| == |w.sessions|
  {
  }

  // ---- Runs ----

  predicate CanRun(w: Server, steps: seq<Step>)
    decreases |steps|
  {
    steps == [] || (Enabled(w, steps[0]) && CanRun(Next(w, steps[0]), steps[1..]))
  }

  function Run(w: Server, steps: seq<Step>): Server
    requires CanRun(w, steps)
    decreases |steps|
  {
    if steps == [] then w else Run(Next(w, steps[0]), steps[1..])
  }

  const OPENING := Server([], [], {}, {}, [])

  lemma {:induction false} RunKeeps(w: Server, steps: seq<Step>)
    requires Inv(w) && CanRun(w, steps)
    ensures Inv(Run(w, steps))
    decreases |steps|
  {
    hide Inv, Next, Enabled;
    if steps != [] {
      StepKeeps(w, steps[0]);
      RunKeeps(Next(w, steps[0]), steps[1..]);
    }
  }

  /** A list of all ended turns of a session, each once. */
  ghost predicate IsEndedOf(w: Server, n: nat, done: seq<nat>) {
    && (forall i :: 0 <= i < |done| ==> At(w, done[i], Ended) && w.turns[done[i]].session == n)
    && (forall i, j :: 0 <= i < j < |done| ==> done[i] != done[j])
    && (forall k :: 0 <= k < |w.turns| && At(w, k, Ended) && w.turns[k].session == n ==> k in done)
  }

  /** Main result: in every interleaving, what a session says is one complete block
      for each ended turn, one after the other, then what the turn in flight has
      said so far; nothing else, and no turn twice. */
  lemma SessionSpeaksTurnByTurn(steps: seq<Step>, n: nat) returns (done: seq<nat>, current: Option<nat>)
    requires CanRun(OPENING, steps) && n < |Run(OPENING, steps).sessions|
    ensures var w := Run(OPENING, steps);
            && IsEndedOf(w, n, done) && current == w.sessions[n].lock
            && (current.Some? ==> current.value < |w.turns| && w.turns[current.value].session == n)
            && Said(w.outbound, n)
               == Blocks(w.turns, done) + (if current.Some? then Block(w.turns[current.value]) else [])
  {
    RunKeeps(OPENING, steps);
    hide CanRun, Run;
    var w := Run(OPENING, steps);
    assert SessionOk(w, n) && Says(w, n);
    var served := w.sessions[n].served;
    current := w.sessions[n].lock;
    done := if current.Some? then served[..|served| - 1] else served;
    EndedAreServed(w, n, done);
  }

  lemma EndedAreServed(w: Server, n: nat, done: seq<nat>)
    requires Inv(w) && n < |w.sessions|
    requires var s := w.sessions[n];
             if s.lock.Some? then s.served != [] && done == s.served[..|s.served| - 1] else done == s.served
    ensures IsEndedOf(w, n, done)
  {
    hide ChannelOk, Says, Said;
    var s := w.sessions[n];
    assert SessionOk(w, n);
    forall i | 0 <= i < |done| ensures At(w, done[i], Ended) && w.turns[done[i]].session == n {
      assert s.served[i] == done[i];
      assert TurnOk(w, done[i]);
      assert s.served[i] in s.served;
    }
    forall k | 0 <= k < |w.turns| && At(w, k, Ended) && w.turns[k].session == n ensures k in done {
      assert TurnOk(w, k);
      assert k in s.served;
      assert s.lock.Some? ==> k != s.served[|s.served| - 1];
    }
  }

  /** A complete block: every update the driver sent, in its order, the closing
      text, and last the one answer with the reason of that very turn. */
  lemma EndedBlocksAreComplete(steps: seq<Step>, k: nat)
    requires CanRun(OPENING, steps) && At(Run(OPENING, steps), k, Ended)
    ensures var t := Run(OPENING, steps).turns[k];
            Block(t) == Notes(t.session, t.produced) + Closing(t) + [Answer(t.session, t.id, StopReason(t.outcome))]
  {
    RunKeeps(OPENING, steps);
    hide CanRun, Run;
    var w := Run(OPENING, steps);
    assert TurnOk(w, k);
    assert w.turns[k].passed + [] == w.turns[k].passed;
  }

  // ---- Cancels ----

  /** Main result: a cancel takes the token of the turn in flight of its own session,
      or nothing, leaves none for a second one, and fires it once; no cancel reaches a
      turn that has not begun. */
  lemma CancelHitsTheTurnInFlight(w: Server, n: nat)
    requires Inv(w)
    ensures var w' := Next(w, Cancel(n));
            && w'.turns == w.turns && w'.outbound == w.outbound && w'.fired == w.fired
            && forall k :: k in w'.taken && k !in w.taken ==>
                 && k < |w.turns| && w.turns[k].session == n && w.sessions[n].lock == Some(k)
                 && (w.turns[k].phase.Running? || w.turns[k].phase.Returned?)
    ensures n < |w.sessions| ==>
              Next(w, Cancel(n)).sessions[n] == w.sessions[n].(cancel := None)
              && (w.sessions[n].cancel.Some? ==> w.sessions[n].cancel.value in Next(w, Cancel(n)).taken)
    ensures forall k :: k in w.taken ==>
              Enabled(w, Fire(k)) && k in Next(w, Fire(k)).fired && k !in Next(w, Fire(k)).taken
    ensures forall k :: 0 <= k < |w.turns| && (k in w.taken || k in w.fired) ==>
              !w.turns[k].phase.Waiting? && !w.turns[k].phase.Locked?
  {
    if n < |w.sessions| {
      assert SessionOk(w, n);
      if w.sessions[n].cancel.Some? {
        assert w.sessions[n].cancel.value in w.sessions[n].served;
      }
    }
    forall k | 0 <= k < |w.turns| && (k in w.taken || k in w.fired)
      ensures !w.turns[k].phase.Waiting? && !w.turns[k].phase.Locked?
    {
      assert TurnOk(w, k);
    }
  }

  /** One step: the outcome of a turn is settled once, when its driver returns. */
  lemma CancelledExactlyWhenFiredInTime(w: Server, s: Step, k: nat)
    requires Enabled(w, s) && k < |w.turns|
    ensures var w' := Next(w, s);
            && k < |w'.turns|
            && (if s.Return? && s.k == k then w'.turns[k].outcome.Cancelled? <==> k in w.fired
                else w'.turns[k].outcome == w.turns[k].outcome)
  {
  }

  // ---- Nobody waits for ever ----

  /** While a turn has not ended some turn of its session can move, a running one by
      its driver returning. */
  lemma NoTurnIsStuck(w: Server, k: nat) returns (s: Step)
    requires Inv(w) && k < |w.turns| && !w.turns[k].phase.Ended?
    ensures Mover(s).Some? && Enabled(w, s)
    ensures s.k < |w.turns| && w.turns[s.k].session == w.turns[k].session
  {
    hide Says;
    assert TurnOk(w, k);
    var n := w.turns[k].session;
    assert SessionOk(w, n);
    if w.sessions[n].lock.None? {
      s := Lock(k);
    } else {
      var j := w.sessions[n].lock.value;
      assert j in w.sessions[n].served;
      assert TurnOk(w, j);
      s := match w.turns[j].phase
           case Locked => Register(j)
           case Running => Return(j, None, None)
           case Returned => if w.turns[j].channel == [] then ClearCancel(j) else Pump(j)
           case Cleared => Close(j)
           case Closed => SendAnswer(j)
           case _ => Unlock(j);
    }
  }
}
