/** What whole runs of one end come to, under any peer: a direction ends cleanly only by the peer's
    EOF, a `send` puts out its bytes once and in order, an end and a GOAWAY are said, credit goes
    back by half windows, and nonsense is not listened to for ever. */
module WholeRuns {
  import opened Wire
  import opened MuxSpec
  import opened MuxInvariant
  import opened Channel
  import opened StreamLife
  import opened Changes

  // -- how a direction ended

  /** A clean end is the peer's. */
  predicate Clean(s: Stream) { s.recv == LaneEof ==> s.hist.peerEof }

  lemma StaysClean(c: Conn, s: Stream, x: Change)
    requires (x.Took? ==> s.incoming != []) && !x.Released? && Clean(s)
    ensures Clean(Changed(c, s, x))
  {
  }

  lemma SameId(c: Conn, s: Stream, x: Change)
    requires x.Took? ==> s.incoming != []
    ensures Changed(c, s, x).id == s.id && (s.closed ==> Changed(c, s, x).closed)
  {
    hide Queued, Arrived, FeedEof, Grant, ClosedOff, Taken, Acked, SendStep;
    match x
    case Fed(data, breach) => ArrivedAdvances(s, data, breach);
    case HeardEof => FeedEofAdvances(s);
    case HeardCredit(delta) => GrantAdvances(s, delta);
    case Aborted => ClosedOffAdvances(s, LaneReset);
    case Released => ClosedOffAdvances(s, LaneEof);
    case Took => TakenAdvances(s);
    case AckedChunk => AckedAdvances(s, c.cfg, c.wsOpen);
    case Sent(view) => SendAdvances(s, view, c.wsOpen);
    case _ =>
  }

  /** A step makes at most one stream: open and unread, unless its OPEN could not be sent. */
  lemma Adds(c: Conn, e: Event)
    requires Inv(c) && Enabled(c, e)
    ensures var d := Step(c, e);
            && |c.objs| <= |d.objs| <= |c.objs| + 1
            && (|d.objs| > |c.objs| ==>
                  && !d.objs[|c.objs|].hist.peerEof && d.objs[|c.objs|].incoming == (if d.objs[|c.objs|].closed then [End] else [])
                  && d.objs[|c.objs|].recv == (if d.objs[|c.objs|].closed then LaneEof else LaneOpen)
                  && !d.objs[|c.objs|].sendEnded && d.objs[|c.objs|].sender.Idle?
                  && (e.OpenE? || (c.cfg.responder && Hears(e).Some? && Hears(e).value.ftype == OPEN
                                   && Hears(e).value.sid == d.objs[|c.objs|].id && !d.objs[|c.objs|].closed))
                  && (e.OpenE? ==> !OpenRefused(c) && d.objs[|c.objs|].id == c.nextId && d.objs[|c.objs|].closed == !c.wsOpen))
  {
    hide Inv, Dispatch, SendLoop, Ack, Read, CloseLocal, ResetStream, OpenStream, AbortEach, Decode, Ignore;
    match e
    case Recv(_, _) => RecvAdds(c, e);
    case RunEnd(hs) => hide Inv; AbortForm(c, hs);
    case OpenE => OpenAdds(c);
    case StartSendE(h, data) => TaskShape(c, h, data);
    case ResumeE(h) => TaskShape(c, h, c.objs[h].sender.view);
    case WakeE(h) => TaskShape(c, h, c.objs[h].sender.view);
    case ReadE(h) => ReadAdvances(c, h); ReadSize(c, h);
    case AckE(h) => TaskShape(c, h, []);
    case CloseE(h) => CloseShape(c, h, LaneEof);
    case ResetE(h) => ResetSize(c, h);
    case _ =>
  }

  lemma ReadSize(c: Conn, h: nat)
    requires h < |c.objs| && c.objs[h].incoming != []
    ensures |Read(c, h).objs| == |c.objs|
  {
    hide Taken;
  }

  lemma ResetSize(c: Conn, h: nat)
    requires h < |c.objs|
    ensures |ResetStream(c, h).objs| == |c.objs|
  {
    hide ClosedOff;
  }

  lemma OpenAdds(c: Conn)
    ensures var d := OpenStream(c);
            && |c.objs| <= |d.objs| <= |c.objs| + 1
            && (|d.objs| > |c.objs| ==>
                  && !OpenRefused(c) && d.objs[|c.objs|].id == c.nextId && d.objs[|c.objs|].closed == !c.wsOpen
                  && !d.objs[|c.objs|].hist.peerEof && d.objs[|c.objs|].incoming == (if c.wsOpen then [] else [End])
                  && d.objs[|c.objs|].recv == (if c.wsOpen then LaneOpen else LaneEof)
                  && !d.objs[|c.objs|].sendEnded && d.objs[|c.objs|].sender.Idle?)
  {
  }

  lemma RecvAdds(c: Conn, e: Event)
    requires e.Recv? && Enabled(c, e)
    ensures var d := Step(c, e);
            && |c.objs| <= |d.objs| <= |c.objs| + 1
            && (|d.objs| > |c.objs| ==>
                  && Hears(e).Some? && Hears(e).value.ftype == OPEN && c.cfg.responder
                  && d.objs[|c.objs|] == NewStream(Hears(e).value.sid, c.cfg.window))
  {
    hide Dispatch, Decode;
    if Hears(e).Some? { DispatchAdds(c, Hears(e).value, e.reserveOk); }
  }

  lemma DispatchAdds(c: Conn, f: Frame, ok: bool)
    ensures var d := Dispatch(c, f, ok);
            && |c.objs| <= |d.objs| <= |c.objs| + 1
            && (|d.objs| > |c.objs| ==> f.ftype == OPEN && c.cfg.responder && d.objs[|c.objs|] == NewStream(f.sid, c.cfg.window))
  {
    hide ClosedOff, Arrived, Grant, FeedEof, Breach, CloseLocal, Ignore, SendReset, Feed, Unpack32;
    BookkeepingShape(c, f.sid);
    if Registered(c, f.sid) {
      CloseShape(c, c.reg[f.sid], LaneReset);
      BookkeepingShape(CloseLocal(c, c.reg[f.sid], LaneReset), f.sid);
      FeedShape(c, c.reg[f.sid], f.payload, ok);
    }
  }

  /** Stream `h`, if there is one, is clean, or its OPEN never went out. */
  predicate CleanAt(c: Conn, h: nat) {
    h < |c.objs| && !Clean(c.objs[h]) ==> !c.cfg.responder && !HasFrame(c.out, OPEN, c.objs[h].id)
  }

  /** An id is announced when its stream is made, or never. */
  lemma AnnouncedAtOnce(c: Conn, e: Event, id: u32)
    requires Enabled(c, e) && !HasFrame(c.out, OPEN, id) && !(e.OpenE? && id == c.nextId && c.wsOpen)
    ensures !HasFrame(Step(c, e).out, OPEN, id)
  {
    hide Step, Enabled, HasFrame;
    StepTells(c, e);
    var owed := Owes(c, e);
    if owed.Some? {
      PushFrame(c.out, owed.value, OPEN, id);
    } else if Step(c, e).out != c.out {
      var f :| Traffic(c, f, Kind(e)) && Step(c, e).out == c.out + [f];
      PushFrame(c.out, f, OPEN, id);
    }
  }

  lemma NotYetNamed(c: Conn, id: u32)
    requires Inv(c) && !c.cfg.responder && id >= c.nextId
    ensures !HasFrame(c.out, OPEN, id)
  {
    hide RegInv, AccountInv, StreamsInv;
  }

  lemma StepClean(c: Conn, e: Event, h: nat)
    requires Inv(c) && Enabled(c, e) && e != CloseE(h) && CleanAt(c, h)
    ensures CleanAt(Step(c, e), h)
  {
    hide Inv, Step, Enabled, Clean, HasFrame, Changed;
    StepOutlasts(c, e);
    if h < |c.objs| {
      var x := StepExplained(c, e, h);
      SameId(c, c.objs[h], x);
      if Clean(c.objs[h]) {
        StaysClean(c, c.objs[h], x);
      } else {
        NamedId(c, h);
        AnnouncedAtOnce(c, e, c.objs[h].id);
      }
    } else {
      Adds(c, e);
      if h < |Step(c, e).objs| { NewClean(c, e); }
    }
  }

  lemma NewClean(c: Conn, e: Event)
    requires Inv(c) && Enabled(c, e) && |Step(c, e).objs| > |c.objs|
    ensures CleanAt(Step(c, e), |c.objs|)
  {
    hide Inv, Step, Enabled, HasFrame;
    Adds(c, e);
    StepOutlasts(c, e);
    if Step(c, e).objs[|c.objs|].closed {
      OnlyInitiator(c, e);
      NotYetNamed(c, c.nextId);
      AnnouncedAtOnce(c, e, c.nextId);
    }
  }

  lemma OnlyInitiator(c: Conn, e: Event)
    requires Enabled(c, e) && e.OpenE?
    ensures !c.cfg.responder
  {
  }

  lemma {:induction false} RunClean(c: Conn, es: seq<Event>, h: nat)
    requires Inv(c) && Run(c, es).Some? && CleanAt(c, h) && forall i | 0 <= i < |es| :: es[i] != CloseE(h)
    ensures CleanAt(Run(c, es).value, h)
    decreases |es|
  {
    hide Inv, Step, Enabled, CleanAt;
    if es != [] {
      StepKeeps(c, es[0]);
      StepClean(c, es[0], h);
      RunClean(Step(c, es[0]), es[1..], h);
    }
  }

  /** The peer's EOF for `id` is among the events. */
  predicate EofCame(es: seq<Event>, id: u32) { exists i | 0 <= i < |es| :: Hears(es[i]) == Some(Frame(EOF, id, [])) }

  lemma EofIsHeard(c: Conn, s: Stream, x: Change)
    requires x.Took? ==> s.incoming != []
    ensures Changed(c, s, x).hist.peerEof ==> s.hist.peerEof || x.HeardEof?
  {
  }

  lemma EofSource(c: Conn, e: Event, h: nat)
    requires Inv(c) && Enabled(c, e) && h < |Step(c, e).objs| && Step(c, e).objs[h].hist.peerEof
    ensures (h < |c.objs| && c.objs[h].hist.peerEof) || Hears(e) == Some(Frame(EOF, Step(c, e).objs[h].id, []))
  {
    hide Inv, Step, Enabled, Hears, Changed;
    Adds(c, e);
    if h < |c.objs| {
      var x := StepExplained(c, e, h);
      SameId(c, c.objs[h], x);
      EofIsHeard(c, c.objs[h], x);
    }
  }

  lemma {:induction false} RunEofSource(c: Conn, es: seq<Event>, h: nat)
    requires Inv(c) && Run(c, es).Some? && h < |Run(c, es).value.objs| && Run(c, es).value.objs[h].hist.peerEof
    ensures (h < |c.objs| && c.objs[h].hist.peerEof) || EofCame(es, Run(c, es).value.objs[h].id)
    decreases |es|
  {
    hide Inv, Step, Enabled, Hears;
    if es != [] {
      var d := Step(c, es[0]);
      StepKeeps(c, es[0]);
      RunEofSource(d, es[1..], h);
      if h < |d.objs| && d.objs[h].hist.peerEof {
        EofSource(c, es[0], h);
        RunAdvances(d, es[1..], h);
      }
      assert forall i | 0 <= i < |es[1..]| :: es[1..][i] == es[i + 1];
    }
  }

  /** A truncated stream never looks complete. On a stream that was announced, or that the peer
      opened, and that its owner has not closed, the direction has ended cleanly exactly when the
      peer's EOF ended it; and a consumer told FIN has had that EOF come. */
  lemma FinMeansEof(cfg: Config, es: seq<Event>, h: nat)
    requires cfg.Valid() && Run(Init(cfg), es).Some? && h < |Run(Init(cfg), es).value.objs|
    requires forall i | 0 <= i < |es| :: es[i] != CloseE(h)
    requires cfg.responder || HasFrame(Run(Init(cfg), es).value.out, OPEN, Run(Init(cfg), es).value.objs[h].id)
    ensures var s := Run(Init(cfg), es).value.objs[h];
            && (s.recv == LaneEof <==> s.hist.peerEof)
            && (s.hist.signal == Fin ==> EofCame(es, s.id))
            && (s.recv == LaneEof ==> EofCame(es, s.id))
            && (s.hist.signal == Rst ==> s.recv == LaneReset)
  {
    hide Inv, Run, HasFrame, EofCame, StreamInv;
    InitInv(cfg);
    RunKeeps(Init(cfg), es);
    RunClean(Init(cfg), es, h);
    var c := Run(Init(cfg), es).value;
    RunOutlasts(Init(cfg), es);
    StreamAt(c, h);
    LaneOf(c.objs[h], c.cfg);
    if c.objs[h].hist.peerEof { RunEofSource(Init(cfg), es, h); }
  }

  lemma LaneOf(s: Stream, cfg: Config)
    requires StreamInv(s, cfg)
    ensures s.hist.peerEof ==> s.recv == LaneEof
    ensures (s.hist.signal == Fin ==> s.recv == LaneEof) && (s.hist.signal == Rst ==> s.recv == LaneReset)
  {
    hide CountInv, SenderInv, LedgerInv, LaneShape;
  }

  // -- what a send does with its bytes

  /** What the task holding the send lock has still to send. */
  function Rest(s: Stream): seq<byte> {
    match s.sender
    case Idle => []
    case Sending(view) => view
    case Parked(view) => view
  }

  /** Of `goal`, all bytes sent so far: a beginning, with the rest in hand while the task is at it.
      Once it has returned, everything has gone, unless the stream or the link had. */
  predicate SendsAll(s: Stream, wsOpen: bool, goal: seq<byte>) {
    && s.hist.sent <= goal
    && (!s.sender.Idle? ==> s.hist.sent + Rest(s) == goal)
    && (s.sender.Idle? ==> s.hist.sent == goal || s.closed || !wsOpen)
  }

  lemma SendGoesOn(s: Stream, view: seq<byte>, wsOpen: bool, goal: seq<byte>)
    requires s.hist.sent + view == goal && !s.sendEnded
    ensures SendsAll(SendStep(s, view, wsOpen), wsOpen, goal)
  {
    if Sends(s, view) {
      var n := SendSize(s, view);
      assert view == view[..n] + view[n..];
      assert s.hist.sent + view == (s.hist.sent + view[..n]) + view[n..];
    }
  }

  lemma Unhurried(c: Conn, s: Stream, x: Change)
    requires (x.Took? ==> s.incoming != []) && !x.Sent? && !x.GaveUp?
    ensures var d := Changed(c, s, x);
            d.sender == s.sender && d.hist.sent == s.hist.sent && (s.closed ==> d.closed)
  {
    hide SendStep, Overrun;
    SameId(c, s, x);
  }

  lemma StepSendsAll(c: Conn, e: Event, h: nat, goal: seq<byte>)
    requires Inv(c) && Enabled(c, e) && h < |c.objs| && SendsAll(c.objs[h], c.wsOpen, goal)
    requires e != StallE(h) && !(e.StartSendE? && e.h == h)
    ensures h < |Step(c, e).objs| && SendsAll(Step(c, e).objs[h], Step(c, e).wsOpen, goal)
  {
    hide Inv, Step, Enabled, SendStep, Hears;
    var x := StepExplained(c, e, h);
    StepOutlasts(c, e);
    if x.Sent? {
      SenderNotEnded(c, h);
      SendGoesOn(c.objs[h], x.view, c.wsOpen, goal);
      SendKeepsLink(c, e);
    } else {
      Unhurried(c, c.objs[h], x);
      hide Changed;
    }
  }

  lemma SendKeepsLink(c: Conn, e: Event)
    requires Enabled(c, e) && (e.StartSendE? || e.ResumeE? || e.WakeE?)
    ensures Step(c, e).wsOpen == c.wsOpen
  {
    hide SendStep;
  }

  lemma {:induction false} RunSendsAll(c: Conn, es: seq<Event>, h: nat, goal: seq<byte>)
    requires Inv(c) && Run(c, es).Some? && h < |c.objs| && SendsAll(c.objs[h], c.wsOpen, goal)
    requires forall i | 0 <= i < |es| :: es[i] != StallE(h) && !(es[i].StartSendE? && es[i].h == h)
    ensures h < |Run(c, es).value.objs| && SendsAll(Run(c, es).value.objs[h], Run(c, es).value.wsOpen, goal)
    decreases |es|
  {
    hide Inv, Step, Enabled, SendsAll;
    if es != [] {
      StepKeeps(c, es[0]);
      StepSendsAll(c, es[0], h, goal);
      RunSendsAll(Step(c, es[0]), es[1..], h, goal);
    }
  }

  /** `send` is whole and in order. From the call on, and until it gives up for want of credit or
      of a link, the bytes sent are those sent before and a beginning of the data, every byte once;
      while it waits it holds exactly what is left, and when it has returned with the stream and
      the link alive, everything is out. */
  lemma SendIsWhole(c: Conn, h: nat, data: seq<byte>, es: seq<Event>)
    requires Inv(c) && Enabled(c, StartSendE(h, data)) && !c.objs[h].closed && !c.objs[h].sendEnded
    requires Run(Step(c, StartSendE(h, data)), es).Some?
    requires forall i | 0 <= i < |es| :: es[i] != StallE(h) && !(es[i].StartSendE? && es[i].h == h)
    ensures var d := Run(Step(c, StartSendE(h, data)), es).value;
            && h < |d.objs|
            && var s, goal := d.objs[h], c.objs[h].hist.sent + data;
               && s.hist.sent <= goal
               && (!s.sender.Idle? ==> s.hist.sent + Rest(s) == goal)
               && (s.sender.Idle? ==> s.hist.sent == goal || s.closed || !d.wsOpen)
  {
    hide Inv, SendStep, Run;
    var goal := c.objs[h].hist.sent + data;
    var c1 := Step(c, StartSendE(h, data));
    StepKeeps(c, StartSendE(h, data));
    SendGoesOn(c.objs[h], data, c.wsOpen, goal);
    SendKeepsLink(c, StartSendE(h, data));
    TaskShape(c, h, data);
    RunSendsAll(c1, es, h, goal);
  }

  // -- what is certainly said

  /** While the link is up, an end that was made has been said, and so has a GOAWAY. */
  predicate Said(c: Conn) {
    c.wsOpen ==>
      && (c.goingAway ==> HasFrame(c.out, GOAWAY, 0))
      && forall h | 0 <= h < |c.objs| && c.objs[h].sendEnded :: HasFrame(c.out, EOF, c.objs[h].id)
  }

  lemma StillSaid(c: Conn, e: Event, t: byte, id: u32)
    requires Enabled(c, e) && HasFrame(c.out, t, id)
    ensures HasFrame(Step(c, e).out, t, id)
  {
    hide Step, Enabled, HasFrame;
    StepTells(c, e);
    var owed := Owes(c, e);
    if owed.Some? {
      PushFrame(c.out, owed.value, t, id);
    } else if Step(c, e).out != c.out {
      var f :| Traffic(c, f, Kind(e)) && Step(c, e).out == c.out + [f];
      PushFrame(c.out, f, t, id);
    }
  }

  lemma EndOnce(c: Conn, s: Stream, x: Change)
    requires x.Took? ==> s.incoming != []
    ensures Changed(c, s, x).sendEnded ==> s.sendEnded || x.EndedSend?
  {
  }

  lemma StepSaid(c: Conn, e: Event)
    requires Inv(c) && Enabled(c, e) && Said(c)
    ensures Said(Step(c, e))
  {
    hide Inv, Step, Enabled, HasFrame;
    var d := Step(c, e);
    StepOutlasts(c, e);
    if d.wsOpen {
      if d.goingAway { GoawaySaid(c, e); }
      Adds(c, e);
      forall h | 0 <= h < |d.objs| && d.objs[h].sendEnded ensures HasFrame(d.out, EOF, d.objs[h].id) { EndSaid(c, e, h); }
    }
  }

  lemma GoawaySaid(c: Conn, e: Event)
    requires Inv(c) && Enabled(c, e) && Said(c) && c.wsOpen && Step(c, e).goingAway
    ensures HasFrame(Step(c, e).out, GOAWAY, 0)
  {
    hide Inv, Step, Enabled, HasFrame;
    if e.GoawayE? {
      StepTells(c, e);
      PushFrame(c.out, Frame(GOAWAY, 0, []), GOAWAY, 0);
    } else {
      StepOutlasts(c, e);
      StillSaid(c, e, GOAWAY, 0);
    }
  }

  lemma EndSaid(c: Conn, e: Event, h: nat)
    requires Inv(c) && Enabled(c, e) && Said(c) && c.wsOpen
    requires h < |Step(c, e).objs| && Step(c, e).objs[h].sendEnded
    ensures HasFrame(Step(c, e).out, EOF, Step(c, e).objs[h].id)
  {
    hide Inv, Step, Enabled, HasFrame, Changed;
    Adds(c, e);
    var x := StepExplained(c, e, h);
    SameId(c, c.objs[h], x);
    EndOnce(c, c.objs[h], x);
    if c.objs[h].sendEnded {
      StillSaid(c, e, EOF, c.objs[h].id);
    } else {
      StepTells(c, e);
      PushFrame(c.out, Frame(EOF, c.objs[h].id, []), EOF, c.objs[h].id);
    }
  }

  /** Over whole runs. */
  lemma {:induction false} RunSaid(c: Conn, es: seq<Event>)
    requires Inv(c) && Run(c, es).Some? && Said(c)
    ensures Said(Run(c, es).value)
    decreases |es|
  {
    hide Inv, Step, Enabled, Said;
    if es != [] {
      StepKeeps(c, es[0]);
      StepSaid(c, es[0]);
      RunSaid(Step(c, es[0]), es[1..]);
    }
  }

  // -- limits

  /** The frame reader goes on only below the limit, and a connection past it is broken. */
  predicate Patient(c: Conn) {
    && (c.phase == Running ==> c.ignored < 65_536)
    && (c.ignored >= 65_536 ==> !c.wsOpen)
  }

  lemma StepPatient(c: Conn, e: Event)
    requires Enabled(c, e) && Patient(c)
    ensures Patient(Step(c, e)) && Step(c, e).ignored <= c.ignored + 1
  {
    StepOutlasts(c, e);
    if e.RunEnd? { AbortSteady(c, e.hs); hide AbortEach; } else { hide Step; }
  }

  /** A peer is heard out for at most 65,536 frames that mean nothing: the one that makes up the
      number breaks the link, and no frame is read after it. */
  lemma {:induction false} RunPatient(c: Conn, es: seq<Event>)
    requires Run(c, es).Some? && Patient(c)
    ensures Patient(Run(c, es).value)
    decreases |es|
  {
    hide Step, Patient;
    if es != [] {
      StepPatient(c, es[0]);
      RunPatient(Step(c, es[0]), es[1..]);
    }
  }

  /** Every credit frame is worth half the window. */
  predicate Halves(c: Conn) {
    forall i | 0 <= i < |c.out| && c.out[i].ftype == WINDOW_UPDATE ::
      |c.out[i].payload| == 4 && Unpack32(c.out[i].payload) >= if c.cfg.window < 2 then 1 else c.cfg.window / 2
  }

  lemma AckHalves(c: Conn, h: nat)
    requires Inv(c) && Enabled(c, AckE(h)) && Halves(c)
    ensures Halves(Step(c, AckE(h)))
  {
    hide Inv, StreamInv, Pack32, Unpack32;
    StreamAt(c, h);
    ConfigValid(c);
    AckStream(c.objs[h], c.cfg, c.wsOpen);
    UnpackPack(c.objs[h].unacked + c.objs[h].hist.held);
  }

  lemma StepHalves(c: Conn, e: Event)
    requires Inv(c) && Enabled(c, e) && Halves(c)
    ensures Halves(Step(c, e))
  {
    hide Inv, Enabled, Unpack32;
    if e.AckE? {
      AckHalves(c, e.h);
    } else {
      hide Step;
      StepTells(c, e);
      StepOutlasts(c, e);
    }
  }

  lemma {:induction false} RunHalves(c: Conn, es: seq<Event>)
    requires Inv(c) && Run(c, es).Some? && Halves(c)
    ensures Halves(Run(c, es).value) && Inv(Run(c, es).value)
    decreases |es|
  {
    hide Inv, Step, Enabled, Halves;
    if es != [] {
      StepKeeps(c, es[0]);
      StepHalves(c, es[0]);
      RunHalves(Step(c, es[0]), es[1..]);
    }
  }

  /** Credit is held back up to half a window and never longer: over any run, what a stream has
      not returned of what was acked is less than half the window, and every credit frame sent
      returns at least half. */
  lemma CreditByHalves(cfg: Config, es: seq<Event>)
    requires cfg.Valid() && Run(Init(cfg), es).Some?
    ensures var c, half := Run(Init(cfg), es).value, if cfg.window < 2 then 1 else cfg.window / 2;
            && (forall h | 0 <= h < |c.objs| :: c.objs[h].unacked < half)
            && forall i | 0 <= i < |c.out| && c.out[i].ftype == WINDOW_UPDATE ::
                 |c.out[i].payload| == 4 && Unpack32(c.out[i].payload) >= half
  {
    hide Inv, Run, StreamInv, Unpack32;
    InitInv(cfg);
    RunHalves(Init(cfg), es);
    RunOutlasts(Init(cfg), es);
    var c := Run(Init(cfg), es).value;
    forall h | 0 <= h < |c.objs| ensures c.objs[h].unacked < if cfg.window < 2 then 1 else cfg.window / 2 {
      StreamAt(c, h);
      HeldBack(c.objs[h], c.cfg);
    }
  }

  lemma HeldBack(s: Stream, cfg: Config)
    requires StreamInv(s, cfg) && cfg.Valid()
    ensures s.unacked < if cfg.window < 2 then 1 else cfg.window / 2
  {
    hide QueueInv, CountInv, SenderInv, LaneInv;
  }
}
