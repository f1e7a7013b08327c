/** What one end says is acted on at the other: an EOF ends the direction, a RESET ends the stream,
    a GOAWAY makes the connection drain, in every interleaving of the two ends. */
module Arrivals {
  import opened Wire
  import opened MuxSpec
  import opened MuxInvariant
  import opened Channel
  import opened Endpoints
  import opened StreamLife
  import opened Changes
  import opened WholeRuns
  import Effects
  import Outcomes
  import Guarantees

  /** What has arrived has been acted on. */
  predicate HeededBy(s: Stream, log: seq<Frame>) {
    && (HasFrame(log, EOF, s.id) ==> s.recv != LaneOpen)
    && (HasFrame(log, RESET, s.id) ==> s.closed)
  }

  predicate Heeded(x: Conn, log: seq<Frame>) {
    && (x.peerGoingAway <==> HasFrame(log, GOAWAY, 0))
    && forall h | 0 <= h < |x.objs| :: HeededBy(x.objs[h], log)
  }

  /** The responder speaks only of ids the initiator has used. */
  predicate Known(y: Sys) {
    && (forall i | 0 <= i < |y.b.out| :: y.b.out[i].sid <= |y.a.objs|)
    && (forall id | id in y.b.resetSends :: id <= |y.a.objs|)
  }

  predicate Full(y: Sys) {
    && SysInv(y) && Said(y.a) && Said(y.b) && Known(y)
    && Heeded(y.a, y.b.out[..y.toA]) && Heeded(y.b, y.a.out[..y.toB])
  }

  predicate NotOf(log: seq<Frame>, id: u32) { forall i | 0 <= i < |log| :: log[i].sid != id }

  // -- steps at one end

  lemma SameHeeded(c: Conn, e: Event, h: nat, log: seq<Frame>)
    requires Inv(c) && Enabled(c, e) && h < |c.objs| && HeededBy(c.objs[h], log)
    ensures h < |Step(c, e).objs| && HeededBy(Step(c, e).objs[h], log)
  {
    hide Inv, Step, Enabled, HasFrame, Queued;
    StepAdvances(c, e, h);
  }

  lemma FreshHeeded(s: Stream, log: seq<Frame>)
    requires NotOf(log, s.id)
    ensures HeededBy(s, log)
  {
  }

  /** A step that receives nothing. */
  lemma LocalHeeded(c: Conn, e: Event, log: seq<Frame>)
    requires Inv(c) && Enabled(c, e) && !e.Recv? && Heeded(c, log)
    requires e.OpenE? && c.nextId <= 0xFFFF_FFFF ==> NotOf(log, c.nextId)
    ensures Heeded(Step(c, e), log)
  {
    hide Inv, Step, Enabled, HasFrame, HeededBy, NotOf;
    var d := Step(c, e);
    StepOutlasts(c, e);
    Adds(c, e);
    forall h | 0 <= h < |d.objs| ensures HeededBy(d.objs[h], log) {
      if h < |c.objs| { SameHeeded(c, e, h, log); } else { FreshHeeded(d.objs[h], log); }
    }
  }

  /** A frame of a peer that keeps the protocol, for stream `h` or not. */
  lemma FrameHeeded(c: Conn, f: Frame, ok: bool, h: nat, log: seq<Frame>)
    requires Inv(c) && FrameFits(f) && c.phase == Running && h < |c.objs| && HeededBy(c.objs[h], log)
    ensures h < |Dispatch(c, f, ok).objs| && HeededBy(Dispatch(c, f, ok).objs[h], log + [f])
  {
    hide Inv, HasFrame, Dispatch, Queued;
    var e := Recv(Binary(Encode(f)), ok);
    DecodeEncode(f);
    StepAdvances(c, e, h);
    PushFrame(log, f, EOF, c.objs[h].id);
    PushFrame(log, f, RESET, c.objs[h].id);
    if c.objs[h].closed {
      StreamEnded(c, h);
    } else if f.sid == c.objs[h].id && (f.ftype == EOF || f.ftype == RESET) {
      EndHeeded(c, f, ok, h);
      if f.ftype == RESET { EndedAfter(c, f, ok, h); }
    }
  }

  lemma EndHeeded(c: Conn, f: Frame, ok: bool, h: nat)
    requires Inv(c) && FrameFits(f) && c.phase == Running
    requires h < |c.objs| && !c.objs[h].closed && f.sid == c.objs[h].id && (f.ftype == EOF || f.ftype == RESET)
    ensures h < |Dispatch(c, f, ok).objs|
    ensures f.ftype == EOF ==> Dispatch(c, f, ok).objs[h].recv != LaneOpen
    ensures f.ftype == RESET ==> Dispatch(c, f, ok).objs[h].closed
  {
    hide Inv, Dispatch, Step, Enabled;
    LiveIsRegistered(c, h);
    NamedId(c, h);
    Outcomes.ArrivesIs(c, f, ok);
    if f.ftype == EOF { Outcomes.EofFrame(c, f.sid, ok); } else { Outcomes.AbortingFrame(c, f, ok); }
  }

  lemma StreamEnded(c: Conn, h: nat)
    requires Inv(c) && h < |c.objs| && c.objs[h].closed
    ensures c.objs[h].recv != LaneOpen
  {
    StreamAt(c, h);
    hide Inv, QueueInv, SenderInv, LedgerInv, LaneInv;
  }

  lemma LiveIsRegistered(c: Conn, h: nat)
    requires Inv(c) && h < |c.objs|
    ensures !c.objs[h].closed ==> c.objs[h].id in c.reg && c.reg[c.objs[h].id] == h
  {
    hide StreamsInv, AccountInv, IdInv, ResetInv, DrainInv, OutInv, EndedInv;
  }

  lemma EndedAfter(c: Conn, f: Frame, ok: bool, h: nat)
    requires Inv(c) && c.phase == Running && h < |Dispatch(c, f, ok).objs| && Dispatch(c, f, ok).objs[h].closed
    ensures Dispatch(c, f, ok).objs[h].recv != LaneOpen
  {
    hide Inv, Dispatch;
    DispatchKeeps(c, f, ok);
    StreamEnded(Dispatch(c, f, ok), h);
  }

  // -- deliveries

  /** The next frame of the other end, delivered. */
  lemma DeliveredHeeded(x: Conn, f: Frame, ok: bool, log: seq<Frame>)
    requires Inv(x) && x.phase == Running && FrameFits(f) && Heeded(x, log)
    requires f.ftype == OPEN && x.cfg.responder ==> NotOf(log, f.sid)
    ensures Heeded(Receive(x, Binary(Encode(f)), ok), log + [f])
  {
    hide Inv, Dispatch, HasFrame, HeededBy, NotOf;
    var e := Recv(Binary(Encode(f)), ok);
    var d := Step(x, e);
    DecodeEncode(f);
    StepOutlasts(x, e);
    Adds(x, e);
    PushFrame(log, f, GOAWAY, 0);
    if f.ftype == GOAWAY { Outcomes.GoawayFrame(x, ok); }
    forall h | 0 <= h < |d.objs| ensures HeededBy(d.objs[h], log + [f]) {
      if h < |x.objs| { FrameHeeded(x, f, ok, h, log); } else { NewHeeded(d.objs[h], f, log); }
    }
  }

  lemma NewHeeded(s: Stream, f: Frame, log: seq<Frame>)
    requires f.ftype == OPEN && NotOf(log, s.id)
    ensures HeededBy(s, log + [f])
  {
    PushFrame(log, f, EOF, s.id);
    PushFrame(log, f, RESET, s.id);
  }

  // -- the ids the responder uses

  lemma RepliesNamed(c: Conn, e: Event, most: nat)
    requires Enabled(c, e) && c.cfg.responder
    requires (forall h | 0 <= h < |c.objs| :: c.objs[h].id <= most) && (forall id | id in c.resetSends :: id <= most)
    requires forall i | 0 <= i < |c.out| :: c.out[i].sid <= most
    ensures forall i | 0 <= i < |Step(c, e).out| :: Step(c, e).out[i].sid <= most
  {
    hide Step;
    StepTells(c, e);
  }

  lemma RepliesOwed(c: Conn, e: Event)
    requires Inv(c) && Enabled(c, e)
    ensures forall id | id in Step(c, e).resetSends :: id in c.resetSends || (Hears(e).Some? && id == Hears(e).value.sid)
  {
    hide Inv, Receive, SendLoop, Ack, Read, CloseLocal, ResetStream, OpenStream, AbortEach;
    match e
    case Recv(_, _) => RecvOwes(c, e);
    case RunEnd(hs) =>
    case _ => TaskOwes(c, e);
  }

  lemma CloseOwes(c: Conn, h: nat, lane: Lane)
    requires h < |c.objs|
    ensures CloseLocal(c, h, lane).resetSends == c.resetSends
  {
    hide ClosedOff;
  }

  lemma SendOwes(c: Conn, h: nat, view: seq<byte>)
    requires h < |c.objs|
    ensures SendLoop(c, h, view).resetSends == c.resetSends && Ack(c, h).resetSends == c.resetSends
  {
    hide SendStep, Acked, Pack32;
  }

  lemma TaskOwes(c: Conn, e: Event)
    requires Enabled(c, e) && !e.Recv? && !e.RunEnd?
    ensures Step(c, e).resetSends <= c.resetSends
  {
    hide SendLoop, Ack, CloseLocal, Taken;
    match e
    case OpenE => if !OpenRefused(c) { CloseOwes(Allocate(c), |c.objs|, LaneEof); }
    case StartSendE(h, data) => SendOwes(c, h, data);
    case ResumeE(h) => SendOwes(c, h, c.objs[h].sender.view);
    case WakeE(h) => SendOwes(c, h, c.objs[h].sender.view);
    case AckE(h) => SendOwes(c, h, []);
    case CloseE(h) => CloseOwes(c, h, LaneEof);
    case ResetE(h) => CloseOwes(c, h, LaneReset);
    case _ =>
  }

  lemma RecvOwes(c: Conn, e: Event)
    requires e.Recv? && Enabled(c, e)
    ensures forall id | id in Step(c, e).resetSends :: id in c.resetSends || (Hears(e).Some? && id == Hears(e).value.sid)
  {
    hide Dispatch, Decode;
    if Hears(e).Some? { DispatchOwes(c, Hears(e).value, e.reserveOk); }
  }

  lemma AnswerOwes(c: Conn, id: u32)
    ensures forall x | x in SendReset(c, id).resetSends :: x in c.resetSends || x == id
  {
  }

  lemma LiveOwes(c: Conn, f: Frame, ok: bool)
    requires Registered(c, f.sid) && StreamFrame(f.ftype)
    ensures forall id | id in Dispatch(c, f, ok).resetSends :: id in c.resetSends || id == f.sid
  {
    hide CloseLocal, Arrived, Grant, FeedEof, Breach, Unpack32, SendReset;
    CloseOwes(c, c.reg[f.sid], LaneReset);
    AnswerOwes(CloseLocal(c, c.reg[f.sid], LaneReset), f.sid);
  }

  lemma DispatchOwes(c: Conn, f: Frame, ok: bool)
    ensures forall id | id in Dispatch(c, f, ok).resetSends :: id in c.resetSends || id == f.sid
  {
    hide CloseLocal, Feed, SendReset, DispatchEof, DispatchCredit, Registered;
    AnswerOwes(c, f.sid);
    if Registered(c, f.sid) && StreamFrame(f.ftype) { LiveOwes(c, f, ok); }
  }

  // -- the two ends

  lemma NoneYet(log: seq<Frame>, n: nat)
    requires OpenFirst(log) && n < |log| && log[n].ftype == OPEN
    ensures NotOf(log[..n], log[n].sid)
  {
  }

  lemma AtAFull(y: Sys, e: Event)
    requires Full(y) && SysEnabled(y, AtA(e))
    ensures Full(SysStep(y, AtA(e)))
  {
    hide EndInv, Effects.LinkInv, OpenFirst, NamesInv, NoOpen, Step, Enabled, Heeded, Said;
    EndIsInv(y.a);
    SysStepKeeps(y, AtA(e));
    StepSaid(y.a, e);
    OpenIds(y.a);
    Adds(y.a, e);
    LocalHeeded(y.a, e, y.b.out[..y.toA]);
    HeardPrefix(y, AtA(e));
  }

  lemma NeverOpens(c: Conn, e: Event)
    requires c.cfg.responder && Enabled(c, e)
    ensures !e.OpenE?
  {
  }

  lemma NamesBelow(y: Sys)
    requires SysInv(y)
    ensures forall h | 0 <= h < |y.b.objs| :: y.b.objs[h].id <= |y.a.objs|
  {
    hide EndInv, Effects.LinkInv, OpenFirst, NoOpen, Opened;
  }

  lemma KnownAtB(y: Sys, e: Event)
    requires SysInv(y) && Known(y) && SysEnabled(y, AtB(e))
    ensures Known(SysStep(y, AtB(e))) && !e.OpenE?
  {
    hide EndInv, Effects.LinkInv, OpenFirst, NoOpen, NamesInv, Step, Enabled;
    EndIsInv(y.b);
    NeverOpens(y.b, e);
    NamesBelow(y);
    RepliesNamed(y.b, e, |y.a.objs|);
    RepliesOwed(y.b, e);
  }

  lemma AtBFull(y: Sys, e: Event)
    requires Full(y) && SysEnabled(y, AtB(e))
    ensures Full(SysStep(y, AtB(e)))
  {
    hide EndInv, Effects.LinkInv, OpenFirst, NoOpen, Step, Enabled, Heeded, Said, Known, NamesInv;
    EndIsInv(y.b);
    SysStepKeeps(y, AtB(e));
    StepSaid(y.b, e);
    KnownAtB(y, e);
    LocalHeeded(y.b, e, y.a.out[..y.toB]);
    HeardPrefix(y, AtB(e));
  }

  /** What has been delivered is not changed by more being sent. */
  lemma HeardPrefix(y: Sys, ev: SysEvent)
    requires SysInv(y) && SysEnabled(y, ev) && (ev.AtA? || ev.AtB?)
    ensures var d := SysStep(y, ev);
            && y.toA <= |y.b.out| && y.toA <= |d.b.out| && d.b.out[..y.toA] == y.b.out[..y.toA]
            && y.toB <= |y.a.out| && y.toB <= |d.a.out| && d.a.out[..y.toB] == y.a.out[..y.toB]
  {
    hide EndInv, Effects.LinkInv, OpenFirst, NamesInv, NoOpen, Step, Enabled;
    StepTells(if ev.AtA? then y.a else y.b, ev.e);
  }

  lemma ToAFull(y: Sys, ok: bool)
    requires Full(y) && SysEnabled(y, ToA(ok))
    ensures Full(SysStep(y, ToA(ok)))
  {
    hide EndInv, Effects.LinkInv, OpenFirst, NamesInv, NoOpen, Heeded, Said, Receive;
    var f := y.b.out[y.toA];
    EndIsInv(y.a);
    SysStepKeeps(y, ToA(ok));
    ReceivedSaid(y.a, Binary(Encode(f)), ok);
    NextFits(y.b, y.toA);
    DeliveredHeeded(y.a, f, ok, y.b.out[..y.toA]);
    assert y.b.out[..y.toA + 1] == y.b.out[..y.toA] + [f];
  }

  lemma ReceivedSaid(c: Conn, m: Message, ok: bool)
    requires Inv(c) && c.phase == Running && Said(c)
    ensures Said(Receive(c, m, ok)) && Receive(c, m, ok).out == c.out && |Receive(c, m, ok).objs| >= |c.objs|
  {
    hide Inv, Said, Receive;
    StepSaid(c, Recv(m, ok));
    RecvSilent(c, Recv(m, ok));
    Adds(c, Recv(m, ok));
  }

  lemma KnownToB(y: Sys, ok: bool)
    requires SysInv(y) && Known(y) && SysEnabled(y, ToB(ok))
    ensures Known(SysStep(y, ToB(ok)))
  {
    hide EndInv, Effects.LinkInv, OpenFirst, NamesInv, NoOpen, Receive;
    var f := y.a.out[y.toB];
    var e := Recv(Binary(Encode(f)), ok);
    EndIsInv(y.a);
    EndIsInv(y.b);
    NextFits(y.a, y.toB);
    OpenIds(y.a);
    DecodeEncode(f);
    RecvSilent(y.b, e);
    RepliesOwed(y.b, e);
  }

  lemma ToBFull(y: Sys, ok: bool)
    requires Full(y) && SysEnabled(y, ToB(ok))
    ensures Full(SysStep(y, ToB(ok)))
  {
    hide EndInv, Effects.LinkInv, OpenFirst, NamesInv, NoOpen, Heeded, Said, Receive, Known;
    var f := y.a.out[y.toB];
    EndIsInv(y.b);
    SysStepKeeps(y, ToB(ok));
    ReceivedSaid(y.b, Binary(Encode(f)), ok);
    NextFits(y.a, y.toB);
    if f.ftype == OPEN { NoneYet(y.a.out, y.toB); }
    DeliveredHeeded(y.b, f, ok, y.a.out[..y.toB]);
    assert y.a.out[..y.toB + 1] == y.a.out[..y.toB] + [f];
    KnownToB(y, ok);
  }

  lemma StepFull(y: Sys, ev: SysEvent)
    requires Full(y) && SysEnabled(y, ev)
    ensures Full(SysStep(y, ev))
  {
    hide Full, SysStep;
    match ev
    case AtA(e) => AtAFull(y, e);
    case AtB(e) => AtBFull(y, e);
    case ToA(ok) => ToAFull(y, ok);
    case ToB(ok) => ToBFull(y, ok);
  }

  lemma {:induction false} RunFull(y: Sys, es: seq<SysEvent>)
    requires Full(y) && SysRun(y, es).Some?
    ensures Full(SysRun(y, es).value)
    decreases |es|
  {
    hide Full, SysStep, SysEnabled;
    if es != [] {
      StepFull(y, es[0]);
      RunFull(SysStep(y, es[0]), es[1..]);
    }
  }

  lemma ReachableFull(y: Sys)
    requires Reachable(y)
    ensures Full(y)
  {
    hide SysInv, SysRun;
    var window: int, maxA: nat, maxB: nat, es: seq<SysEvent> :|
      1 <= window <= MAX_FLOW_WINDOW && SysRun(SysInit(window, maxA, maxB), es) == Some(y);
    SysInitInv(window, maxA, maxB);
    RunFull(SysInit(window, maxA, maxB), es);
  }

  /** An end that was made arrives. Of a stream both ends know: once the sender's EOF has been
      delivered the receiver's direction is over, once a RESET has, its stream is; and while the
      sender's link is up, an end that it made is on its way or has been delivered. */
  lemma EndsArrive(y: Sys, h: nat)
    requires Reachable(y) && h < |y.b.objs|
    ensures 1 <= y.b.objs[h].id <= |y.a.objs| && y.toB <= |y.a.out| && y.toA <= |y.b.out|
    ensures var sa, sb := y.a.objs[Guarantees.Peer(y, h)], y.b.objs[h];
            && ArrivesAt(sa, sb, y.a, y.toB) && ArrivesAt(sb, sa, y.b, y.toA)
  {
    hide Reachable, SysInv, EndInv, Effects.LinkInv, Said, HasFrame;
    ReachableFull(y);
    Guarantees.Paired(y, h);
    EndArrives(y.a, Guarantees.Peer(y, h), y.b.objs[h], y.toB);
    EndArrives(y.b, h, y.a.objs[Guarantees.Peer(y, h)], y.toA);
  }

  /** From `s`, an end of `x` of whose log `n` frames have been delivered, to `r`. */
  predicate ArrivesAt(s: Stream, r: Stream, x: Conn, n: nat)
    requires n <= |x.out|
  {
    && (HasFrame(x.out[..n], EOF, s.id) ==> r.recv != LaneOpen)
    && (HasFrame(x.out[..n], RESET, s.id) ==> r.closed)
    && (s.sendEnded && x.wsOpen ==> HasFrame(x.out, EOF, s.id))
    && (s.sendEnded && x.wsOpen && n == |x.out| ==> r.recv != LaneOpen)
  }

  lemma EndArrives(x: Conn, h: nat, r: Stream, n: nat)
    requires h < |x.objs| && n <= |x.out| && Said(x) && r.id == x.objs[h].id && HeededBy(r, x.out[..n])
    ensures ArrivesAt(x.objs[h], r, x, n)
  {
    hide HasFrame;
    assert n == |x.out| ==> x.out[..n] == x.out;
  }

  /** A GOAWAY is heeded: each end takes the other to be going away exactly when the other's GOAWAY
      has been delivered; and while the link of an end that is going away is up and everything it
      said has been delivered, both ends drain. */
  lemma GoawayArrives(y: Sys)
    requires Reachable(y)
    ensures y.toB <= |y.a.out| && y.toA <= |y.b.out|
    ensures y.b.peerGoingAway <==> HasFrame(y.a.out[..y.toB], GOAWAY, 0)
    ensures y.a.peerGoingAway <==> HasFrame(y.b.out[..y.toA], GOAWAY, 0)
    ensures y.a.goingAway && y.a.wsOpen && y.toB == |y.a.out| ==> Draining(y.a) && Draining(y.b)
    ensures y.b.goingAway && y.b.wsOpen && y.toA == |y.b.out| ==> Draining(y.a) && Draining(y.b)
  {
    hide Reachable, EndInv, Effects.LinkInv, OpenFirst, NamesInv, NoOpen, HasFrame;
    ReachableFull(y);
    assert y.toB == |y.a.out| ==> y.a.out[..y.toB] == y.a.out;
    assert y.toA == |y.b.out| ==> y.b.out[..y.toA] == y.b.out;
  }
}
