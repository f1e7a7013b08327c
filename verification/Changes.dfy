/** Every way one step can change one stream object, named, and what follows over whole runs: how
    a direction can have ended, what a task's `send` does with its bytes, and what is certain to
    have been said. */
module Changes {
  import opened Wire
  import opened MuxSpec
  import opened MuxInvariant
  import opened StreamLife

  datatype Change =
    | Same
    | Fed(data: seq<byte>, breach: bool)
    | HeardEof
    | HeardCredit(delta: nat)
    | Aborted
    | Released
    | Took
    | AckedChunk
    | Sent(view: seq<byte>)
    | GaveUp
    | EndedSend

  function Changed(c: Conn, s: Stream, x: Change): Stream
    requires x.Took? ==> s.incoming != []
  {
    match x
    case Same => s
    case Fed(data, breach) => Arrived(s, data, breach)
    case HeardEof => FeedEof(s)
    case HeardCredit(delta) => Grant(s, delta)
    case Aborted => ClosedOff(s, LaneReset)
    case Released => ClosedOff(s, LaneEof)
    case Took => Taken(s)
    case AckedChunk => Acked(s, c.cfg, c.wsOpen)
    case Sent(view) => SendStep(s, view, c.wsOpen)
    case GaveUp => s.(sender := Idle)
    case EndedSend => s.(sendEnded := true)
  }

  /** The frame that arrives with a step. */
  function Hears(e: Event): Option<Frame> { if e.Recv? && e.m.Binary? then Decode(e.m.bytes) else None }

  /** Stream `h` changes by `x` only if the step is one for that. */
  predicate Causes(c: Conn, e: Event, h: nat, x: Change)
    requires h < |c.objs|
  {
    var s, f := c.objs[h], Hears(e);
    match x
    case Same => true
    case Fed(data, _) => f == Some(Frame(DATA, s.id, data))
    case HeardEof => f == Some(Frame(EOF, s.id, []))
    case HeardCredit(delta) => f.Some? && f.value.ftype == WINDOW_UPDATE && f.value.sid == s.id && delta > 0
    case Aborted => !s.closed && (e.ResetE? || e.RunEnd? || (f.Some? && f.value.sid == s.id))
    case Released => !s.closed && e == CloseE(h)
    case Took => e == ReadE(h)
    case AckedChunk => e == AckE(h)
    case Sent(view) =>
      || (e == StartSendE(h, view) && !s.closed && !s.sendEnded)
      || ((e == ResumeE(h) || e == WakeE(h)) && !s.sender.Idle? && view == s.sender.view)
    case GaveUp => e == StallE(h)
    case EndedSend => e == SendEofE(h) && !s.closed
  }

  predicate Explains(c: Conn, d: Conn, e: Event, h: nat, x: Change) {
    && h < |c.objs| && h < |d.objs| && (x.Took? ==> c.objs[h].incoming != [])
    && Causes(c, e, h, x) && d.objs[h] == Changed(c, c.objs[h], x)
  }

  /** A frame that makes no sense for its stream aborts it. */
  lemma BadFrame(c: Conn, id: u32)
    requires Inv(c) && id in c.reg
    ensures Registered(c, id) && !c.objs[c.reg[id]].closed && c.objs[c.reg[id]].id == id
    ensures SendReset(CloseLocal(c, c.reg[id], LaneReset), id).objs == c.objs[c.reg[id] := ClosedOff(c.objs[c.reg[id]], LaneReset)]
  {
    hide Inv, ClosedOff, CloseLocal, SendReset;
    RegisteredAt(c, id);
    CloseShape(c, c.reg[id], LaneReset);
    BookkeepingShape(CloseLocal(c, c.reg[id], LaneReset), id);
  }

  lemma EofExplained(c: Conn, e: Event, f: Frame) returns (x: Change)
    requires Inv(c) && Hears(e) == Some(f) && f.ftype == EOF && Registered(c, f.sid)
    ensures Explains(c, DispatchEof(c, f), e, c.reg[f.sid], x)
  {
    hide Inv, ClosedOff, FeedEof, CloseLocal, SendReset, Hears;
    BadFrame(c, f.sid);
    x := if f.payload == [] then HeardEof else Aborted;
  }

  lemma CreditExplained(c: Conn, e: Event, f: Frame) returns (x: Change)
    requires Inv(c) && Hears(e) == Some(f) && f.ftype == WINDOW_UPDATE && Registered(c, f.sid)
    ensures Explains(c, DispatchCredit(c, f), e, c.reg[f.sid], x)
  {
    hide Inv, ClosedOff, Grant, CloseLocal, Ignore, SendReset, Unpack32, Hears;
    BadFrame(c, f.sid);
    BookkeepingShape(c, f.sid);
    x := if |f.payload| != 4 then Aborted else if Unpack32(f.payload) != 0 then HeardCredit(Unpack32(f.payload)) else Same;
  }

  lemma DataExplained(c: Conn, e: Event, f: Frame, ok: bool)
    requires Inv(c) && Hears(e) == Some(f) && f.ftype == DATA && Registered(c, f.sid)
    ensures var h := c.reg[f.sid];
            Explains(c, Feed(c, h, f.payload, ok), e, h, Fed(f.payload, Breach(c, h, |f.payload|, ok)))
  {
    hide Inv, Arrived, Breach, Feed, Hears;
    RegisteredAt(c, f.sid);
    FeedShape(c, c.reg[f.sid], f.payload, ok);
  }

  lemma AbortExplained(c: Conn, e: Event, f: Frame)
    requires Inv(c) && Hears(e) == Some(f) && Registered(c, f.sid)
    ensures Explains(c, CloseLocal(c, c.reg[f.sid], LaneReset), e, c.reg[f.sid], Aborted)
  {
    hide Inv, ClosedOff, CloseLocal, Hears;
    RegisteredAt(c, f.sid);
    CloseShape(c, c.reg[f.sid], LaneReset);
  }

  lemma FrameExplained(c: Conn, e: Event, f: Frame, ok: bool) returns (x: Change)
    requires Inv(c) && Hears(e) == Some(f) && StreamFrame(f.ftype) && f.sid != 0 && Registered(c, f.sid)
    ensures Explains(c, Dispatch(c, f, ok), e, c.reg[f.sid], x)
  {
    hide Inv, Breach, CloseLocal, Feed, Hears, Explains, DispatchEof, DispatchCredit;
    if f.ftype == DATA {
      x := Fed(f.payload, Breach(c, c.reg[f.sid], |f.payload|, ok));
      DataExplained(c, e, f, ok);
    } else if f.ftype == EOF {
      x := EofExplained(c, e, f);
    } else if f.ftype == WINDOW_UPDATE {
      x := CreditExplained(c, e, f);
    } else {
      x := Aborted;
      AbortExplained(c, e, f);
    }
  }

  lemma SendExplained(c: Conn, e: Event, h: nat, view: seq<byte>)
    requires h < |c.objs| && Causes(c, e, h, Sent(view))
    ensures Explains(c, SendLoop(c, h, view), e, h, Sent(view))
  {
    hide SendLoop, SendStep, Causes;
    TaskShape(c, h, view);
  }

  lemma CloseExplained(c: Conn, e: Event, h: nat)
    requires h < |c.objs| && (e == CloseE(h) || e == ResetE(h))
    ensures Explains(c, if e.CloseE? then CloseLocal(c, h, LaneEof) else ResetStream(c, h), e, h,
                     if c.objs[h].closed then Same else if e.CloseE? then Released else Aborted)
  {
    hide ClosedOff, CloseLocal;
    CloseShape(c, h, LaneEof);
    CloseShape(c, h, LaneReset);
  }

  lemma AckExplained(c: Conn, h: nat)
    requires h < |c.objs|
    ensures Explains(c, Ack(c, h), AckE(h), h, AckedChunk)
  {
    hide Ack, Acked;
    TaskShape(c, h, []);
  }

  lemma TaskExplained(c: Conn, e: Event, h: nat) returns (x: Change)
    requires Enabled(c, e) && !e.Recv? && !e.RunEnd? && Target(c, e) == h
    ensures Explains(c, Step(c, e), e, h, x)
  {
    hide ClosedOff, SendLoop, Ack, Taken, CloseLocal, ResetStream, SendStep, Acked;
    match e
    case StartSendE(_, data) =>
      if c.objs[h].closed || c.objs[h].sendEnded { x := Same; } else { x := Sent(data); SendExplained(c, e, h, data); }
    case ResumeE(_) => x := Sent(c.objs[h].sender.view); SendExplained(c, e, h, c.objs[h].sender.view);
    case WakeE(_) => x := Sent(c.objs[h].sender.view); SendExplained(c, e, h, c.objs[h].sender.view);
    case StallE(_) => x := GaveUp;
    case SendEofE(_) => x := if c.objs[h].closed then Same else EndedSend;
    case ReadE(_) => x := Took;
    case AckE(_) => x := AckedChunk; AckExplained(c, h);
    case CloseE(_) => x := if c.objs[h].closed then Same else Released; CloseExplained(c, e, h);
    case ResetE(_) => x := if c.objs[h].closed then Same else Aborted; CloseExplained(c, e, h);
    case _ => x := Same; assert false;
  }

  /** One step, any peer: each stream changes in one of these ways, by a step that is for that. */
  lemma StepExplained(c: Conn, e: Event, h: nat) returns (x: Change)
    requires Inv(c) && Enabled(c, e) && h < |c.objs|
    ensures Explains(c, Step(c, e), e, h, x)
  {
    hide Inv, Causes, Changed, Dispatch, Step, Enabled, Registered;
    if e.RunEnd? {
      x := EndExplained(c, e, h);
    } else if Target(c, e) != h {
      x := Same;
      Isolated(c, e);
      SameExplained(c, Step(c, e), e, h);
    } else if e.Recv? {
      x := FrameExplained(c, e, Hears(e).value, e.reserveOk);
      ReceiveIs(c, e);
    } else {
      x := TaskExplained(c, e, h);
    }
  }

  lemma ReceiveIs(c: Conn, e: Event)
    requires Enabled(c, e) && Hears(e).Some?
    ensures Step(c, e) == Dispatch(c, Hears(e).value, e.reserveOk)
  {
    hide Dispatch, Decode;
  }

  lemma SameExplained(c: Conn, d: Conn, e: Event, h: nat)
    requires h < |c.objs| && h < |d.objs| && d.objs[h] == c.objs[h]
    ensures Explains(c, d, e, h, Same)
  {
  }

  lemma EndExplained(c: Conn, e: Event, h: nat) returns (x: Change)
    requires Inv(c) && e.RunEnd? && Enabled(c, e) && h < |c.objs|
    ensures Explains(c, Step(c, e), e, h, x)
  {
    hide Inv, AbortEach, ClosedOff;
    AbortForm(c, e.hs);
    x := if h in e.hs && !c.objs[h].closed then Aborted else Same;
  }

  // -- what a step says

  /** The frame, other than data and credit, that a step is there to send. */
  function Owes(c: Conn, e: Event): Option<Frame>
    requires Enabled(c, e)
  {
    match e
    case OpenE => if OpenRefused(c) then None else Some(Frame(OPEN, c.nextId, []))
    case SendEofE(h) => if c.objs[h].closed || c.objs[h].sendEnded then None else Some(Frame(EOF, c.objs[h].id, []))
    case ResetE(h) => if c.objs[h].closed then None else Some(Frame(RESET, c.objs[h].id, []))
    case FlushResetE(id) => Some(Frame(RESET, id, []))
    case GoawayE => Some(Frame(GOAWAY, 0, []))
    case _ => None
  }

  /** Only an ack returns credit. */
  function Kind(e: Event): byte { if e.AckE? then WINDOW_UPDATE else DATA }

  /** Data or credit of a stream that is there. */
  predicate Traffic(c: Conn, f: Frame, t: byte) { f.ftype == t && exists h | 0 <= h < |c.objs| :: c.objs[h].id == f.sid }

  /** A step sends what it owes, if the link is up, and otherwise at most one frame of traffic. */
  ghost predicate Tells(c: Conn, d: Conn, owed: Option<Frame>, t: byte) {
    if owed.Some? then d.out == (if c.wsOpen then c.out + [owed.value] else c.out)
    else d.out == c.out || (c.wsOpen && exists f :: Traffic(c, f, t) && d.out == c.out + [f])
  }

  lemma SendTells(c: Conn, h: nat, view: seq<byte>)
    requires h < |c.objs|
    ensures Tells(c, SendLoop(c, h, view), None, DATA)
  {
    hide SendStep;
    if Sends(c.objs[h], view) { assert Traffic(c, Frame(DATA, c.objs[h].id, view[..SendSize(c.objs[h], view)]), DATA); }
  }

  lemma AckTells(c: Conn, h: nat)
    requires h < |c.objs|
    ensures Tells(c, Ack(c, h), None, WINDOW_UPDATE)
  {
    hide Acked, Pack32;
    var s := c.objs[h];
    var delta := s.unacked + s.hist.held;
    if AckSends(s, c.cfg) && delta < 0x1_0000_0000 { assert Traffic(c, Frame(WINDOW_UPDATE, s.id, Pack32(delta)), WINDOW_UPDATE); }
  }

  lemma DispatchSilent(c: Conn, f: Frame, ok: bool)
    ensures Dispatch(c, f, ok).out == c.out
  {
    hide ClosedOff, Arrived, Grant, FeedEof, Breach, CloseLocal, Ignore, SendReset, Feed, Unpack32;
    BookkeepingShape(c, f.sid);
    if Registered(c, f.sid) {
      CloseShape(c, c.reg[f.sid], LaneReset);
      BookkeepingShape(CloseLocal(c, c.reg[f.sid], LaneReset), f.sid);
      FeedShape(c, c.reg[f.sid], f.payload, ok);
    }
  }

  lemma OpenTells(c: Conn)
    ensures OpenStream(c).out == if OpenRefused(c) || !c.wsOpen then c.out else c.out + [Frame(OPEN, c.nextId, [])]
  {
    hide CloseLocal;
    if !OpenRefused(c) { CloseShape(Allocate(c), |c.objs|, LaneEof); }
  }

  lemma ResetTells(c: Conn, h: nat)
    requires h < |c.objs|
    ensures ResetStream(c, h).out == if c.objs[h].closed || !c.wsOpen then c.out else c.out + [Frame(RESET, c.objs[h].id, [])]
  {
    hide ClosedOff;
  }

  lemma {:induction false} AbortSays(c: Conn, hs: seq<nat>)
    requires Below(hs, |c.objs|)
    ensures AbortEach(c, hs).out == c.out
    decreases |hs|
  {
    hide CloseLocal;
    if hs != [] {
      CloseShape(c, hs[0], LaneReset);
      AbortSays(CloseLocal(c, hs[0], LaneReset), hs[1..]);
    }
  }

  lemma RecvSilent(c: Conn, e: Event)
    requires e.Recv? && Enabled(c, e)
    ensures Step(c, e).out == c.out
  {
    hide Dispatch, Decode;
    if Hears(e).Some? { DispatchSilent(c, Hears(e).value, e.reserveOk); }
  }

  lemma StepTells(c: Conn, e: Event)
    requires Enabled(c, e)
    ensures Tells(c, Step(c, e), Owes(c, e), Kind(e))
  {
    hide Receive, SendLoop, Ack, CloseLocal, ResetStream, OpenStream, AbortEach, Taken, Traffic, OpenRefused;
    match e
    case Recv(_, _) => RecvSilent(c, e);
    case RunEnd(hs) => AbortSays(c, hs);
    case OpenE => OpenTells(c);
    case StartSendE(h, data) => SendTells(c, h, data);
    case ResumeE(h) => SendTells(c, h, c.objs[h].sender.view);
    case WakeE(h) => SendTells(c, h, c.objs[h].sender.view);
    case AckE(h) => AckTells(c, h);
    case CloseE(h) => CloseShape(c, h, LaneEof);
    case ResetE(h) => ResetTells(c, h);
    case _ =>
  }

  // -- what no step undoes

  predicate Outlasts(c: Conn, d: Conn) {
    && d.cfg == c.cfg && (d.wsOpen ==> c.wsOpen)
    && (c.goingAway ==> d.goingAway) && (c.peerGoingAway ==> d.peerGoingAway)
  }

  predicate SameFlags(c: Conn, d: Conn) {
    d.cfg == c.cfg && (d.wsOpen ==> c.wsOpen) && d.goingAway == c.goingAway && d.peerGoingAway == c.peerGoingAway
  }

  predicate Steady(c: Conn, d: Conn) { SameFlags(c, d) && d.ignored == c.ignored && d.phase == c.phase }

  /** The peer announces that it is going away. */
  predicate HearsGoaway(e: Event) { Hears(e) == Some(Frame(GOAWAY, 0, [])) }

  /** The frame reader goes on, or has ignored one frame more. */
  predicate Heeds(c: Conn, d: Conn) { (d.ignored == c.ignored && d.phase == c.phase) || d == Ignore(c) }

  lemma CloseSteady(c: Conn, h: nat, lane: Lane)
    requires h < |c.objs|
    ensures Steady(c, CloseLocal(c, h, lane))
  {
    hide ClosedOff;
  }

  lemma {:induction false} AbortSteady(c: Conn, hs: seq<nat>)
    requires Below(hs, |c.objs|)
    ensures Steady(c, AbortEach(c, hs))
    decreases |hs|
  {
    if hs != [] {
      CloseSteady(c, hs[0], LaneReset);
      AbortSteady(CloseLocal(c, hs[0], LaneReset), hs[1..]);
    }
  }

  lemma ResetSteady(c: Conn, id: u32)
    ensures Steady(c, SendReset(c, id))
  {
  }

  lemma AnswerSteady(c: Conn, h: nat, id: u32)
    requires h < |c.objs|
    ensures Steady(c, SendReset(CloseLocal(c, h, LaneReset), id))
  {
    hide CloseLocal, SendReset;
    CloseSteady(c, h, LaneReset);
    ResetSteady(CloseLocal(c, h, LaneReset), id);
  }

  lemma RegisteredSteady(c: Conn, f: Frame, ok: bool)
    requires Registered(c, f.sid) && StreamFrame(f.ftype)
    ensures SameFlags(c, Dispatch(c, f, ok)) && Heeds(c, Dispatch(c, f, ok))
  {
    hide CloseLocal, Arrived, Breach, Grant, FeedEof, SendReset, Unpack32;
    CloseSteady(c, c.reg[f.sid], LaneReset);
    AnswerSteady(c, c.reg[f.sid], f.sid);
  }

  lemma DispatchSteady(c: Conn, f: Frame, ok: bool)
    ensures Outlasts(c, Dispatch(c, f, ok)) && Heeds(c, Dispatch(c, f, ok)) && Dispatch(c, f, ok).goingAway == c.goingAway
    ensures f != Frame(GOAWAY, 0, []) ==> SameFlags(c, Dispatch(c, f, ok))
  {
    hide CloseLocal, Feed, SendReset, DispatchEof, DispatchCredit;
    ResetSteady(c, f.sid);
    if Registered(c, f.sid) && StreamFrame(f.ftype) { RegisteredSteady(c, f, ok); }
  }

  lemma IgnoreSteady(c: Conn)
    ensures SameFlags(c, Ignore(c))
  {
  }

  lemma RecvSteady(c: Conn, m: Message, ok: bool)
    ensures Outlasts(c, Receive(c, m, ok)) && Heeds(c, Receive(c, m, ok)) && Receive(c, m, ok).goingAway == c.goingAway
    ensures !HearsGoaway(Recv(m, ok)) ==> SameFlags(c, Receive(c, m, ok))
  {
    hide Dispatch, Decode, Ignore;
    IgnoreSteady(c);
    if m.Binary? && Decode(m.bytes).Some? { DispatchSteady(c, Decode(m.bytes).value, ok); }
  }

  lemma TaskSteady(c: Conn, h: nat, view: seq<byte>)
    requires h < |c.objs|
    ensures Steady(c, SendLoop(c, h, view)) && Steady(c, Ack(c, h))
  {
    hide SendStep, Acked, Pack32;
  }

  /** The configuration is for life, and so are a dead link and either GOAWAY. */
  lemma StepOutlasts(c: Conn, e: Event)
    requires Enabled(c, e)
    ensures Outlasts(c, Step(c, e))
    ensures !e.GoawayE? ==> Step(c, e).goingAway == c.goingAway
    ensures !HearsGoaway(e) ==> Step(c, e).peerGoingAway == c.peerGoingAway
    ensures !e.RunEnd? ==> Heeds(c, Step(c, e))
  {
    hide Receive, CloseLocal, SendLoop, Ack, Taken, AbortEach, Decode, Ignore;
    match e
    case Recv(m, ok) => RecvSteady(c, m, ok);
    case RunEnd(hs) => AbortSteady(c, hs);
    case OpenE => if !OpenRefused(c) { CloseSteady(Allocate(c), |c.objs|, LaneEof); }
    case StartSendE(h, data) => TaskSteady(c, h, data);
    case ResumeE(h) => TaskSteady(c, h, c.objs[h].sender.view);
    case WakeE(h) => TaskSteady(c, h, c.objs[h].sender.view);
    case AckE(h) => TaskSteady(c, h, []);
    case CloseE(h) => CloseSteady(c, h, LaneEof);
    case ResetE(h) => CloseSteady(c, h, LaneReset);
    case _ =>
  }

  lemma {:induction false} RunOutlasts(c: Conn, es: seq<Event>)
    requires Run(c, es).Some?
    ensures Outlasts(c, Run(c, es).value)
    decreases |es|
  {
    hide Step, Enabled;
    if es != [] {
      StepOutlasts(c, es[0]);
      RunOutlasts(Step(c, es[0]), es[1..]);
    }
  }
}
