/** How one stream object can change from step to step, under any peer, and which step can
    change it: the lane is write-once, nothing is queued behind a terminal, a task or a frame
    touches one stream only, and draining only shrinks the registry. */
module StreamLife {
  import opened Wire
  import opened MuxSpec
  import opened MuxInvariant

  /** One step in the life of a stream, read or not. */
  predicate Advances(s: Stream, s': Stream) {
    && s'.id == s.id
    && (s.closed ==> s'.closed)
    && (s.recv != LaneOpen ==> s'.recv == s.recv && Queued(s') == Queued(s))
    && Queued(s) <= Queued(s')
    && s.hist.taken <= s'.hist.taken
    && s.hist.sent <= s'.hist.sent
    && (s.sendEnded ==> s'.sendEnded && s'.hist.sent == s.hist.sent)
    && (s.hist.peerEof ==> s'.hist.peerEof)
  }

  lemma AdvancesTransitive(s: Stream, t: Stream, u: Stream)
    requires Advances(s, t) && Advances(t, u)
    ensures Advances(s, u)
  {
    hide Queued;
  }

  lemma EndRecvAdvances(s: Stream, lane: Lane)
    ensures Advances(s, EndRecv(s, lane)) && EndRecv(s, lane).hist.taken == s.hist.taken
  {
    if s.recv == LaneOpen { assert Queued(EndRecv(s, lane)) == Queued(s) + [End]; }
  }

  lemma ClosedOffAdvances(s: Stream, lane: Lane)
    ensures Advances(s, ClosedOff(s, lane)) && ClosedOff(s, lane).hist.taken == s.hist.taken
  {
    var s0 := s.(closed := true, waiter := true, recvBuffered := 0, recvFrames := 0);
    assert Queued(s0) == Queued(s);
    EndRecvAdvances(s0, lane);
  }

  lemma ArrivedAdvances(s: Stream, data: seq<byte>, breach: bool)
    ensures Advances(s, Arrived(s, data, breach)) && Arrived(s, data, breach).hist.taken == s.hist.taken
  {
    var a := Arrived(s, data, breach);
    EndRecvAdvances(s, LaneReset);
    if s.recv == LaneOpen && data != [] {
      if breach {
        assert Queued(a) == Queued(EndRecv(s, LaneReset));
      } else {
        assert Queued(a) == Queued(s) + [Chunk(data)];
      }
    }
    hide EndRecv;
  }

  lemma FeedEofAdvances(s: Stream)
    ensures Advances(s, FeedEof(s)) && FeedEof(s).hist.taken == s.hist.taken
  {
    EndRecvAdvances(s, LaneEof);
    assert Queued(FeedEof(s)) == Queued(EndRecv(s, LaneEof));
    hide EndRecv, Queued;
  }

  lemma TakenAdvances(s: Stream)
    requires s.incoming != []
    ensures Advances(s, Taken(s)) && Taken(s).hist.taken == s.hist.taken + [s.incoming[0]]
  {
    assert Queued(Taken(s)) == Queued(s);
  }

  lemma AckedAdvances(s: Stream, cfg: Config, wsOpen: bool)
    ensures Advances(s, Acked(s, cfg, wsOpen)) && Acked(s, cfg, wsOpen).hist.taken == s.hist.taken
  {
    hide Config.Threshold;
  }

  lemma GrantAdvances(s: Stream, delta: nat)
    ensures Advances(s, Grant(s, delta)) && Grant(s, delta).hist.taken == s.hist.taken
  {
  }

  lemma SendAdvances(s: Stream, view: seq<byte>, wsOpen: bool)
    ensures Advances(s, SendStep(s, view, wsOpen)) && SendStep(s, view, wsOpen).hist.taken == s.hist.taken
  {
  }

  lemma StillAdvances(s: Stream)
    ensures Advances(s, s.(sender := Idle)) && Advances(s, s.(sendEnded := true)) && Advances(s, s)
  {
  }

  /** The stream a step is about, or -1. */
  function Target(c: Conn, e: Event): int {
    match e
    case Recv(Binary(b), _) =>
      (match Decode(b)
       case Some(f) => if StreamFrame(f.ftype) && f.sid != 0 && Registered(c, f.sid) then c.reg[f.sid] else -1
       case None => -1)
    case StartSendE(h, _) => h
    case ResumeE(h) => h
    case WakeE(h) => h
    case StallE(h) => h
    case SendEofE(h) => h
    case ReadE(h) => h
    case AckE(h) => h
    case CloseE(h) => h
    case ResetE(h) => h
    case _ => -1
  }

  predicate Untouched(c: Conn, c': Conn, k: int) {
    |c.objs| <= |c'.objs| && forall h | 0 <= h < |c.objs| && h != k :: c'.objs[h] == c.objs[h]
  }

  /** Nothing but what the frame reader keeps for the connection as a whole. */
  predicate SameStreams(c: Conn, c': Conn) {
    c'.objs == c.objs && c'.reg == c.reg && Draining(c') == Draining(c)
  }

  lemma BookkeepingShape(c: Conn, id: u32)
    ensures SameStreams(c, Ignore(c)) && SameStreams(c, SendReset(c, id))
    ensures Ignore(c).out == c.out && SendReset(c, id).out == c.out
  {
  }

  lemma CloseShape(c: Conn, h: nat, lane: Lane)
    requires h < |c.objs|
    ensures var c' := CloseLocal(c, h, lane);
            && c'.objs == (if c.objs[h].closed then c.objs else c.objs[h := ClosedOff(c.objs[h], lane)])
            && c'.reg.Keys <= c.reg.Keys && Draining(c') == Draining(c) && c'.out == c.out
  {
    hide ClosedOff;
  }

  lemma FeedShape(c: Conn, h: nat, data: seq<byte>, ok: bool)
    requires h < |c.objs|
    ensures var c' := Feed(c, h, data, ok);
            && c'.objs == c.objs[h := Arrived(c.objs[h], data, Breach(c, h, |data|, ok))]
            && c'.reg == c.reg && Draining(c') == Draining(c) && c'.out == c.out
  {
    hide Arrived, Breach;
  }

  lemma FrameIsolated(c: Conn, f: Frame, ok: bool)
    ensures Untouched(c, Dispatch(c, f, ok), if StreamFrame(f.ftype) && f.sid != 0 && Registered(c, f.sid) then c.reg[f.sid] else -1)
  {
    hide ClosedOff, Arrived, Grant, FeedEof, Breach, CloseLocal, Ignore, SendReset, Feed;
    BookkeepingShape(c, f.sid);
    if StreamFrame(f.ftype) && f.sid != 0 && Registered(c, f.sid) {
      var h := c.reg[f.sid];
      CloseShape(c, h, LaneReset);
      BookkeepingShape(CloseLocal(c, h, LaneReset), f.sid);
      FeedShape(c, h, f.payload, ok);
    }
  }

  /** A task that sends, reads or acks touches its own stream and the log. */
  lemma TaskShape(c: Conn, h: nat, view: seq<byte>)
    requires h < |c.objs|
    ensures SendLoop(c, h, view).objs == c.objs[h := SendStep(c.objs[h], view, c.wsOpen)]
    ensures Ack(c, h).objs == c.objs[h := Acked(c.objs[h], c.cfg, c.wsOpen)]
    ensures SendLoop(c, h, view).reg == c.reg && Ack(c, h).reg == c.reg
    ensures Draining(SendLoop(c, h, view)) == Draining(c) && Draining(Ack(c, h)) == Draining(c)
  {
    hide SendStep, Acked, Pack32;
  }

  lemma OpenIsolated(c: Conn)
    ensures Untouched(c, OpenStream(c), -1)
  {
    hide ClosedOff, CloseLocal;
    if !OpenRefused(c) { CloseShape(Allocate(c), |c.objs|, LaneEof); }
  }

  lemma TaskIsolated(c: Conn, e: Event)
    requires Enabled(c, e) && !e.RunEnd? && !e.Recv?
    ensures Untouched(c, Step(c, e), Target(c, e))
  {
    hide ClosedOff, SendLoop, Ack, Taken, CloseLocal, OpenStream, SendStep, Acked, Pack32;
    match e
    case StartSendE(h, data) => TaskShape(c, h, data);
    case ResumeE(h) => TaskShape(c, h, c.objs[h].sender.view);
    case WakeE(h) => TaskShape(c, h, c.objs[h].sender.view);
    case AckE(h) => TaskShape(c, h, []);
    case CloseE(h) => CloseShape(c, h, LaneEof);
    case ResetE(h) => CloseShape(c, h, LaneReset);
    case OpenE => OpenIsolated(c);
    case _ =>
  }

  /** Streams do not interfere: a step other than the end of the connection changes no stream
      but its own. */
  lemma Isolated(c: Conn, e: Event)
    requires Enabled(c, e) && !e.RunEnd?
    ensures Untouched(c, Step(c, e), Target(c, e))
  {
    if e.Recv? { RecvIsolated(c, e.m, e.reserveOk); } else { TaskIsolated(c, e); }
    hide Untouched, Target, Step;
  }

  lemma RecvIsolated(c: Conn, m: Message, ok: bool)
    ensures Untouched(c, Receive(c, m, ok), Target(c, Recv(m, ok)))
  {
    hide Dispatch, Decode, Ignore;
    BookkeepingShape(c, 0);
    if m.Binary? && Decode(m.bytes).Some? { FrameIsolated(c, Decode(m.bytes).value, ok); }
  }

  predicate Read1(s: Stream, s': Stream) { Advances(s, s') && s'.hist.taken == s.hist.taken }

  lemma CreditAdvances(c: Conn, f: Frame)
    requires Registered(c, f.sid)
    ensures var h := c.reg[f.sid];
            h < |DispatchCredit(c, f).objs| && Read1(c.objs[h], DispatchCredit(c, f).objs[h])
  {
    hide Advances, ClosedOff, Grant, CloseLocal, SendReset, Ignore;
    var h := c.reg[f.sid];
    CloseShape(c, h, LaneReset);
    ClosedOffAdvances(c.objs[h], LaneReset);
    StillAdvances(c.objs[h]);
    BookkeepingShape(CloseLocal(c, h, LaneReset), f.sid);
    BookkeepingShape(c, f.sid);
    if |f.payload| == 4 { GrantAdvances(c.objs[h], Unpack32(f.payload)); }
  }

  lemma EofAdvances(c: Conn, f: Frame)
    requires Registered(c, f.sid)
    ensures var h := c.reg[f.sid];
            h < |DispatchEof(c, f).objs| && Read1(c.objs[h], DispatchEof(c, f).objs[h])
  {
    hide Advances, ClosedOff, FeedEof, CloseLocal, SendReset;
    var h := c.reg[f.sid];
    CloseShape(c, h, LaneReset);
    ClosedOffAdvances(c.objs[h], LaneReset);
    StillAdvances(c.objs[h]);
    BookkeepingShape(CloseLocal(c, h, LaneReset), f.sid);
    FeedEofAdvances(c.objs[h]);
  }

  lemma FrameAdvances(c: Conn, f: Frame, ok: bool)
    requires StreamFrame(f.ftype) && f.sid != 0 && Registered(c, f.sid)
    ensures var h := c.reg[f.sid];
            h < |Dispatch(c, f, ok).objs| && Read1(c.objs[h], Dispatch(c, f, ok).objs[h])
  {
    hide Advances, ClosedOff, Arrived, DispatchEof, DispatchCredit, Breach, Feed, CloseLocal;
    var h := c.reg[f.sid];
    var s := c.objs[h];
    if f.ftype == DATA {
      FeedShape(c, h, f.payload, ok);
      ArrivedAdvances(s, f.payload, Breach(c, h, |f.payload|, ok));
    } else if f.ftype == EOF {
      EofAdvances(c, f);
    } else if f.ftype == WINDOW_UPDATE {
      CreditAdvances(c, f);
    } else {
      CloseShape(c, h, LaneReset);
      ClosedOffAdvances(s, LaneReset);
      StillAdvances(s);
    }
  }

  lemma SendTaskAdvances(c: Conn, h: nat, view: seq<byte>)
    requires h < |c.objs|
    ensures h < |SendLoop(c, h, view).objs| && Read1(c.objs[h], SendLoop(c, h, view).objs[h])
  {
    hide Advances, SendStep;
    SendAdvances(c.objs[h], view, c.wsOpen);
  }

  lemma CloseTaskAdvances(c: Conn, h: nat, lane: Lane)
    requires h < |c.objs|
    ensures h < |CloseLocal(c, h, lane).objs| && Read1(c.objs[h], CloseLocal(c, h, lane).objs[h])
    ensures h < |ResetStream(c, h).objs| && Read1(c.objs[h], ResetStream(c, h).objs[h])
  {
    hide Advances, ClosedOff, CloseLocal;
    CloseShape(c, h, lane);
    CloseShape(c, h, LaneReset);
    ClosedOffAdvances(c.objs[h], lane);
    ClosedOffAdvances(c.objs[h], LaneReset);
    StillAdvances(c.objs[h]);
  }

  lemma TaskAdvances(c: Conn, e: Event)
    requires Enabled(c, e) && !e.RunEnd? && !e.Recv? && !e.ReadE? && Target(c, e) >= 0
    ensures var h := Target(c, e);
            h < |c.objs| && h < |Step(c, e).objs| && Read1(c.objs[h], Step(c, e).objs[h])
  {
    hide Advances, Acked, CloseLocal, ResetStream, SendLoop, Pack32, SendStep, ClosedOff, OpenStream;
    var h := Target(c, e);
    CloseTaskAdvances(c, h, LaneEof);
    AckedAdvances(c.objs[h], c.cfg, c.wsOpen);
    StillAdvances(c.objs[h]);
    if e.StartSendE? { SendTaskAdvances(c, h, e.data); }
    else if !c.objs[h].sender.Idle? { SendTaskAdvances(c, h, c.objs[h].sender.view); }
  }

  lemma TargetAdvances(c: Conn, e: Event)
    requires Enabled(c, e) && !e.RunEnd? && !e.ReadE? && Target(c, e) >= 0
    ensures var h := Target(c, e);
            h < |c.objs| && h < |Step(c, e).objs| && Read1(c.objs[h], Step(c, e).objs[h])
  {
    hide Dispatch, Read1;
    if e.Recv? {
      FrameAdvances(c, Decode(e.m.bytes).value, e.reserveOk);
    } else {
      TaskAdvances(c, e);
    }
  }

  lemma ReadAdvances(c: Conn, h: nat)
    requires h < |c.objs| && c.objs[h].incoming != []
    ensures h < |Read(c, h).objs| && Advances(c.objs[h], Read(c, h).objs[h])
    ensures Read(c, h).objs[h].hist.taken == c.objs[h].hist.taken + [c.objs[h].incoming[0]]
  {
    hide Taken, Advances;
    TakenAdvances(c.objs[h]);
  }

  lemma {:induction false} AbortAdvances(c: Conn, hs: seq<nat>, h: nat)
    requires Below(hs, |c.objs|) && h < |c.objs|
    ensures |AbortEach(c, hs).objs| == |c.objs| && Read1(c.objs[h], AbortEach(c, hs).objs[h])
    decreases |hs|
  {
    hide Advances, ClosedOff, CloseLocal;
    StillAdvances(c.objs[h]);
    if hs != [] {
      var c1 := CloseLocal(c, hs[0], LaneReset);
      CloseShape(c, hs[0], LaneReset);
      ClosedOffAdvances(c.objs[hs[0]], LaneReset);
      AbortAdvances(c1, hs[1..], h);
      AdvancesTransitive(c.objs[h], c1.objs[h], AbortEach(c, hs).objs[h]);
    }
  }

  lemma EndAdvances(c: Conn, hs: seq<nat>, h: nat)
    requires Enabled(c, RunEnd(hs)) && h < |c.objs|
    ensures h < |Step(c, RunEnd(hs)).objs| && Read1(c.objs[h], Step(c, RunEnd(hs)).objs[h])
  {
    hide Read1, AbortEach;
    AbortAdvances(c, hs, h);
  }

  /** Any step, any peer: a lane that has ended keeps its terminal and its queue, a clean end is
      never rewritten as an abort, what has been read or queued stays so, and only a read
      reads. */
  lemma StepAdvances(c: Conn, e: Event, h: nat)
    requires Enabled(c, e) && h < |c.objs|
    ensures h < |Step(c, e).objs| && Advances(c.objs[h], Step(c, e).objs[h])
    ensures e != ReadE(h) ==> Step(c, e).objs[h].hist.taken == c.objs[h].hist.taken
    ensures e == ReadE(h) ==> c.objs[h].incoming != []
                              && Step(c, e).objs[h].hist.taken == c.objs[h].hist.taken + [c.objs[h].incoming[0]]
  {
    hide Advances, AbortEach, Finish, Receive, SendLoop, SendEof, Ack, Read, CloseLocal, ResetStream, OpenStream, FlushReset;
    if e.RunEnd? {
      EndAdvances(c, e.hs, h);
    } else if e == ReadE(h) {
      ReadAdvances(c, h);
    } else {
      Isolated(c, e);
      StillAdvances(c.objs[h]);
      if h == Target(c, e) { TargetAdvances(c, e); }
    }
  }

  lemma {:induction false} RunAdvances(c: Conn, es: seq<Event>, h: nat)
    requires Run(c, es).Some? && h < |c.objs|
    ensures h < |Run(c, es).value.objs| && Advances(c.objs[h], Run(c, es).value.objs[h])
    decreases |es|
  {
    hide Advances, Step, Enabled;
    if es == [] {
      StillAdvances(c.objs[h]);
    } else {
      StepAdvances(c, es[0], h);
      RunAdvances(Step(c, es[0]), es[1..], h);
      AdvancesTransitive(c.objs[h], Step(c, es[0]).objs[h], Run(c, es).value.objs[h]);
    }
  }

  // -- the registry

  /** Closing a stream deregisters that object and no other, even one with the same id. */
  lemma CloseDeregistersOnlyItself(c: Conn, h: nat, lane: Lane)
    requires Inv(c) && h < |c.objs|
    ensures forall id | id in c.reg && c.reg[id] != h :: id in CloseLocal(c, h, lane).reg && CloseLocal(c, h, lane).reg[id] == c.reg[id]
    ensures forall id | id in CloseLocal(c, h, lane).reg :: id in c.reg && c.reg[id] != h
  {
    hide StreamsInv, AccountInv, ClosedOff;
  }

  lemma FrameDrains(c: Conn, f: Frame, ok: bool)
    requires Draining(c)
    ensures Draining(Dispatch(c, f, ok)) && Dispatch(c, f, ok).reg.Keys <= c.reg.Keys
  {
    hide Arrived, Grant, FeedEof, Breach, CloseLocal, Ignore, SendReset, Feed;
    BookkeepingShape(c, f.sid);
    if Registered(c, f.sid) {
      var h := c.reg[f.sid];
      CloseShape(c, h, LaneReset);
      BookkeepingShape(CloseLocal(c, h, LaneReset), f.sid);
      FeedShape(c, h, f.payload, ok);
    }
  }

  lemma {:induction false} AbortDrains(c: Conn, hs: seq<nat>)
    requires Below(hs, |c.objs|)
    ensures Draining(AbortEach(c, hs)) == Draining(c)
    decreases |hs|
  {
    hide CloseLocal, Draining;
    if hs != [] {
      CloseShape(c, hs[0], LaneReset);
      AbortDrains(CloseLocal(c, hs[0], LaneReset), hs[1..]);
    }
  }

  lemma RecvDrains(c: Conn, m: Message, ok: bool)
    requires Draining(c)
    ensures Draining(Receive(c, m, ok)) && Receive(c, m, ok).reg.Keys <= c.reg.Keys
  {
    hide Dispatch, Decode, Ignore, Draining;
    BookkeepingShape(c, 0);
    if m.Binary? && Decode(m.bytes).Some? { FrameDrains(c, Decode(m.bytes).value, ok); }
  }

  /** Once either side has announced GOAWAY the set of live streams only shrinks. */
  lemma StepDrains(c: Conn, e: Event)
    requires Enabled(c, e) && Draining(c)
    ensures Draining(Step(c, e)) && Step(c, e).reg.Keys <= c.reg.Keys
  {
    hide Receive, ClosedOff, SendLoop, Ack, Taken, AbortEach, CloseLocal;
    match e
    case Recv(m, ok) => RecvDrains(c, m, ok);
    case RunEnd(hs) => AbortDrains(c, hs);
    case StartSendE(h, data) => TaskShape(c, h, data);
    case ResumeE(h) => TaskShape(c, h, c.objs[h].sender.view);
    case WakeE(h) => TaskShape(c, h, c.objs[h].sender.view);
    case AckE(h) => TaskShape(c, h, []);
    case CloseE(h) => CloseShape(c, h, LaneEof);
    case ResetE(h) => CloseShape(c, h, LaneReset);
    case _ =>
  }

  lemma {:induction false} RunDrains(c: Conn, es: seq<Event>)
    requires Draining(c) && Run(c, es).Some?
    ensures Draining(Run(c, es).value) && Run(c, es).value.reg.Keys <= c.reg.Keys
    decreases |es|
  {
    hide Step, Enabled, Draining;
    if es != [] {
      StepDrains(c, es[0]);
      RunDrains(Step(c, es[0]), es[1..]);
    }
  }

  /** Every frame sent fits in one WebSocket message. */
  lemma FramesFitTransport(c: Conn, i: nat)
    requires Inv(c) && i < |c.out|
    ensures |Encode(c.out[i])| <= MAX_WS_MESSAGE
  {
    hide StreamsInv, RegInv, AccountInv, Pack32;
  }

  /** The responder refuses this OPEN. */
  predicate Refuses(c: Conn, f: Frame) {
    && c.cfg.responder && f.ftype == OPEN && f.sid != 0
    && (f.payload != [] || Draining(c) || f.sid in c.reg || |c.reg| >= c.cfg.maxStreams)
  }

  /** A refused OPEN leaves every stream alone, and is answered with a RESET exactly when one is
      already on its way for that id or there is room for another. */
  lemma RefusalAnsweredIff(c: Conn, f: Frame, ok: bool)
    requires Inv(c) && Refuses(c, f)
    ensures var d := Dispatch(c, f, ok);
            && d == c.(resetSends := d.resetSends)
            && (f.sid in d.resetSends <==> f.sid in c.resetSends || |c.resetSends| < c.cfg.maxStreams)
  {
    hide Inv;
  }

  /** The arrival of an OPEN without payload. */
  function Opening(id: u32): Event { Recv(Binary(Encode(Frame(OPEN, id, []))), true) }

  lemma OpeningIs(c: Conn, id: u32)
    requires c.phase == Running && c.cfg.responder && id != 0
    ensures Enabled(c, Opening(id))
    ensures Step(c, Opening(id)) ==
              if Draining(c) || id in c.reg || |c.reg| >= c.cfg.maxStreams then SendReset(c, id) else Create(c, id)
  {
    hide Ignore, SendReset, Create;
    DecodeEncode(Frame(OPEN, id, []));
  }

  /** Not every refused OPEN is answered. With room for one stream, the first OPEN is taken, the
      second is refused and its RESET queued, and the third is refused and forgotten. */
  lemma RefusalDropped(window: int)
    ensures var es := [Opening(1), Opening(2), Opening(3)];
            var before, after := Run(Init(Config(window, 1, true)), es[..2]), Run(Init(Config(window, 1, true)), es);
            && before.Some? && after.Some? && after.value == before.value
            && Refuses(before.value, Frame(OPEN, 3, []))
            && |after.value.objs| == 1 && after.value.resetSends == {2} && after.value.out == []
  {
    hide Step, Enabled;
    var es := [Opening(1), Opening(2), Opening(3)];
    var c := Init(Config(window, 1, true));
    OpeningIs(c, 1);
    var c1 := Create(c, 1);
    OpeningIs(c1, 2);
    var c2 := SendReset(c1, 2);
    OpeningIs(c2, 3);
    assert es[..2] == [Opening(1), Opening(2)] && es[1..] == [Opening(2), Opening(3)];
    RunOne(c2, Opening(3));
    RunTwo(c1, Opening(2), Opening(3));
    RunTwo(c, Opening(1), Opening(2));
  }

  lemma RunOne(c: Conn, e: Event)
    requires Enabled(c, e)
    ensures Run(c, [e]) == Some(Step(c, e))
  {
    hide Step, Enabled;
    assert [e][1..] == [] && Run(Step(c, e), []) == Some(Step(c, e));
  }

  lemma RunTwo(c: Conn, e: Event, f: Event)
    requires Enabled(c, e) && Enabled(Step(c, e), f)
    ensures Run(c, [e, f]) == Some(Step(Step(c, e), f))
  {
    hide Step, Enabled;
    assert [e, f][1..] == [f];
    RunOne(Step(c, e), f);
  }
}
