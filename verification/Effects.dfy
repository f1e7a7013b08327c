/** The footprint of each step on one end's streams, and what it keeps: each stream's history
    agrees with the log of frames sent, and with the part of the peer's log received. */
module Effects {
  import opened Wire
  import opened MuxSpec
  import opened MuxInvariant
  import opened Channel

  // -- agreement with the logs

  predicate Unique(objs: seq<Stream>) {
    forall i, j | 0 <= i < j < |objs| :: objs[i].id != objs[j].id
  }

  predicate SaidBy(s: Stream, out: seq<Frame>) {
    && s.hist.sent == DataOf(out, s.id)
    && s.hist.credited == CreditOf(out, s.id)
    && (HasEof(out, s.id) ==> s.sendEnded)
  }

  predicate Speaks(t: byte) { t == DATA || t == WINDOW_UPDATE || t == EOF }

  /** Only a stream speaks for its id. */
  predicate Spoken(objs: seq<Stream>, out: seq<Frame>) {
    forall i | 0 <= i < |out| && Speaks(out[i].ftype) :: exists h | 0 <= h < |objs| :: objs[h].id == out[i].sid
  }

  predicate LogInv(objs: seq<Stream>, out: seq<Frame>) {
    && (forall h | 0 <= h < |objs| :: SaidBy(objs[h], out))
    && Spoken(objs, out)
    && EofLast(out)
  }

  /** Bytes that have reached the stream object, kept or not. */
  function Fed(s: Stream): nat { |Bytes(Queued(s))| + s.hist.dropped }

  /** What a stream has had from its peer, against the part of the peer's log received. Frames
      that come after the teardown no longer count. */
  predicate HeardOf(s: Stream, log: seq<Frame>) {
    && (if s.closed then Fed(s) <= |DataOf(log, s.id)| && s.hist.granted <= CreditOf(log, s.id)
        else Fed(s) == |DataOf(log, s.id)| && s.hist.granted == CreditOf(log, s.id))
    && Bytes(Queued(s)) <= DataOf(log, s.id)
    && (s.recv == LaneOpen ==> Bytes(Queued(s)) == DataOf(log, s.id))
    && (s.hist.peerEof ==> HasEof(log, s.id) && Bytes(Queued(s)) == DataOf(log, s.id))
  }

  predicate LinkInv(objs: seq<Stream>, log: seq<Frame>) {
    forall h | 0 <= h < |objs| :: HeardOf(objs[h], log)
  }

  predicate LossOk(s: Stream, wsOpen: bool) {
    && (s.hist.unsent > 0 ==> !wsOpen)
    && (s.hist.uncredited > 0 ==> s.closed || s.recv == LaneReset || !wsOpen)
  }

  predicate LossInv(objs: seq<Stream>, wsOpen: bool) {
    forall h | 0 <= h < |objs| :: LossOk(objs[h], wsOpen)
  }

  // -- steps that receive nothing

  /** A local move of one stream, with the frame it sends, if any. */
  predicate Local(s: Stream, s': Stream, f: Option<Frame>) {
    && s'.id == s.id
    && (s.closed ==> s'.closed)
    && (s.sendEnded ==> s'.sendEnded)
    && (s.recv != LaneOpen ==> s'.recv == s.recv)
    && Bytes(Queued(s')) == Bytes(Queued(s))
    && s'.hist.granted == s.hist.granted && s'.hist.dropped == s.hist.dropped && s'.hist.peerEof == s.hist.peerEof
    && (f.Some? ==>
          && f.value.sid == s.id
          && (f.value.ftype == DATA ==> !s.sendEnded)
          && (f.value.ftype == EOF ==> s'.sendEnded)
          && f.value.ftype != OPEN)
    && s'.hist.sent == s.hist.sent + (if f.Some? && f.value.ftype == DATA then f.value.payload else [])
    && s'.hist.credited == s.hist.credited + (if f.Some? then FrameCredit(f.value, s.id) else 0)
  }

  /** Stream `h` moves and the others stay. */
  predicate Moves(c: Conn, c': Conn, h: nat, f: Option<Frame>) {
    && h < |c.objs| && c'.cfg == c.cfg
    && |c'.objs| == |c.objs| && c'.objs == c.objs[h := c'.objs[h]]
    && c'.out == (if f.Some? then c.out + [f.value] else c.out)
    && Local(c.objs[h], c'.objs[h], f)
    && c'.wsOpen == c.wsOpen && (LossOk(c.objs[h], c.wsOpen) ==> LossOk(c'.objs[h], c.wsOpen))
  }

  /** No stream moves; at most a frame that speaks for none is sent. */
  ghost predicate Stays(c: Conn, c': Conn) {
    && c'.cfg == c.cfg && c'.objs == c.objs && (c'.wsOpen ==> c.wsOpen)
    && (c'.out == c.out || exists f :: c'.out == c.out + [f] && !Speaks(f.ftype) && f.ftype != OPEN)
  }

  lemma PushOther(out: seq<Frame>, f: Frame, s: Stream)
    requires f.sid != s.id || !Speaks(f.ftype)
    ensures SaidBy(s, out + [f]) <==> SaidBy(s, out)
  {
    Push(out, f, s.id);
  }

  lemma MovesSaid(s: Stream, s': Stream, out: seq<Frame>, f: Frame)
    requires Local(s, s', Some(f)) && SaidBy(s, out)
    ensures SaidBy(s', out + [f])
  {
    Push(out, f, s.id);
  }

  lemma MovesKeepsLog(c: Conn, c': Conn, h: nat, f: Option<Frame>)
    requires Moves(c, c', h, f) && Unique(c.objs) && LogInv(c.objs, c.out)
    ensures Unique(c'.objs) && LogInv(c'.objs, c'.out)
  {
    hide SaidBy, Local;
    LocalBasics(c.objs[h], c'.objs[h], f);
    forall i | 0 <= i < |c.objs|
      ensures SaidBy(c'.objs[i], c'.out)
    {
      if i == h {
        if f.Some? { MovesSaid(c.objs[h], c'.objs[h], c.out, f.value); } else { StillSaid(c.objs[h], c'.objs[h], c.out); }
      } else if f.Some? {
        PushOther(c.out, f.value, c.objs[i]);
      }
    }
    MovesKeepsOrder(c, c', h, f);
  }

  lemma StillSaid(s: Stream, s': Stream, out: seq<Frame>)
    requires Local(s, s', None) && SaidBy(s, out)
    ensures SaidBy(s', out)
  {
  }

  lemma LocalBasics(s: Stream, s': Stream, f: Option<Frame>)
    requires Local(s, s', f)
    ensures s'.id == s.id && (f.Some? ==> f.value.sid == s.id && f.value.ftype != OPEN)
  {
  }

  lemma MovesKeepsOrder(c: Conn, c': Conn, h: nat, f: Option<Frame>)
    requires Moves(c, c', h, f) && LogInv(c.objs, c.out)
    ensures Spoken(c'.objs, c'.out) && EofLast(c'.out)
  {
    assert SaidBy(c.objs[h], c.out);
    assert c'.objs[h].id == c.objs[h].id;
    forall i | 0 <= i < |c'.out| && Speaks(c'.out[i].ftype)
      ensures exists k | 0 <= k < |c'.objs| :: c'.objs[k].id == c'.out[i].sid
    {
      if i < |c.out| {
        assert c'.out[i] == c.out[i];
        var k :| 0 <= k < |c.objs| && c.objs[k].id == c.out[i].sid;
        assert c'.objs[k].id == c.out[i].sid;
      } else {
        assert c'.objs[h].id == c'.out[i].sid;
      }
    }
    if f.Some? && f.value.ftype == DATA {
      assert !HasEof(c.out, f.value.sid);
    }
  }

  lemma MovesKeepsLink(c: Conn, c': Conn, h: nat, f: Option<Frame>, log: seq<Frame>)
    requires Moves(c, c', h, f) && LinkInv(c.objs, log)
    ensures LinkInv(c'.objs, log)
  {
    assert HeardOf(c.objs[h], log);
    assert HeardOf(c'.objs[h], log);
    hide HeardOf, Local;
  }

  lemma StaysKeepsLog(c: Conn, c': Conn)
    requires Stays(c, c') && LogInv(c.objs, c.out)
    ensures LogInv(c'.objs, c'.out)
  {
    if c'.out != c.out {
      var f :| c'.out == c.out + [f] && !Speaks(f.ftype) && f.ftype != OPEN;
      forall h | 0 <= h < |c.objs| ensures SaidBy(c.objs[h], c'.out) { PushOther(c.out, f, c.objs[h]); }
    }
  }

  // -- which step moves what

  lemma EndRecvBytes(s: Stream, lane: Lane)
    ensures Bytes(Queued(EndRecv(s, lane))) == Bytes(Queued(s))
  {
    if s.recv == LaneOpen {
      assert Queued(EndRecv(s, lane)) == Queued(s) + [End];
      QueuePush(Queued(s), End);
    }
  }

  lemma CloseIsLocal(s: Stream, lane: Lane)
    ensures Local(s, ClosedOff(s, lane), None)
    ensures LossOk(s, false) && LossOk(ClosedOff(s, lane), false)
    ensures LossOk(s, true) ==> LossOk(ClosedOff(s, lane), true)
  {
    var s0 := s.(closed := true, waiter := true, recvBuffered := 0, recvFrames := 0);
    EndRecvBytes(s0, lane);
    assert Queued(s0) == Queued(s);
  }

  lemma CloseMoves(c: Conn, h: nat, lane: Lane)
    requires h < |c.objs|
    ensures Moves(c, CloseLocal(c, h, lane), h, None)
  {
    hide Local, LossOk, ClosedOff;
    if c.objs[h].closed { SelfMoves(c, h); } else { CloseIsLocal(c.objs[h], lane); }
  }

  lemma ResetMoves(c: Conn, h: nat)
    requires h < |c.objs|
    ensures exists f :: Moves(c, ResetStream(c, h), h, f)
  {
    CloseMoves(c, h, LaneReset);
    var f := if c.objs[h].closed || !c.wsOpen then None else Some(Frame(RESET, c.objs[h].id, []));
    assert Moves(c, ResetStream(c, h), h, f);
  }

  function SendFrame(s: Stream, view: seq<byte>, wsOpen: bool): Option<Frame> {
    if wsOpen && Sends(s, view) then Some(Frame(DATA, s.id, view[..SendSize(s, view)])) else None
  }

  lemma SendIsLocal(s: Stream, view: seq<byte>, wsOpen: bool)
    ensures Local(s, SendStep(s, view, wsOpen), SendFrame(s, view, wsOpen))
    ensures LossOk(s, wsOpen) ==> LossOk(SendStep(s, view, wsOpen), wsOpen)
  {
    hide Bytes;
    assert Queued(SendStep(s, view, wsOpen)) == Queued(s);
  }

  lemma SendLoopMoves(c: Conn, h: nat, view: seq<byte>)
    requires h < |c.objs|
    ensures Moves(c, SendLoop(c, h, view), h, SendFrame(c.objs[h], view, c.wsOpen))
  {
    hide Local, LossOk, SendStep;
    SendIsLocal(c.objs[h], view, c.wsOpen);
  }

  lemma SendEofMoves(c: Conn, h: nat)
    requires h < |c.objs|
    ensures exists f :: Moves(c, SendEof(c, h), h, f)
  {
    var s := c.objs[h];
    assert Queued(s.(sendEnded := true)) == Queued(s);
    var f := if c.wsOpen && !s.closed && !s.sendEnded then Some(Frame(EOF, s.id, [])) else None;
    assert Moves(c, SendEof(c, h), h, f);
  }

  lemma ReadIsLocal(s: Stream)
    requires s.incoming != []
    ensures Local(s, Taken(s), None)
    ensures forall open :: LossOk(s, open) ==> LossOk(Taken(s), open)
  {
    assert Queued(Taken(s)) == Queued(s);
    hide Bytes;
  }

  lemma ReadMoves(c: Conn, h: nat)
    requires h < |c.objs| && c.objs[h].incoming != []
    ensures Moves(c, Read(c, h), h, None)
  {
    hide Local, LossOk, Taken;
    ReadIsLocal(c.objs[h]);
  }

  lemma AckMoves(c: Conn, h: nat)
    requires Inv(c) && h < |c.objs|
    ensures exists f :: Moves(c, Ack(c, h), h, f)
  {
    hide Inv, StreamInv;
    StreamAt(c, h);
    ConfigValid(c);
    var s := c.objs[h];
    AckStream(s, c.cfg, c.wsOpen);
    AckMovesStream(c, h);
  }

  function AckFrame(s: Stream, cfg: Config, wsOpen: bool): Option<Frame>
    requires s.unacked + s.hist.held < 0x1_0000_0000
  {
    if wsOpen && AckSends(s, cfg) then Some(Frame(WINDOW_UPDATE, s.id, Pack32(s.unacked + s.hist.held))) else None
  }

  lemma AckIsLocal(s: Stream, cfg: Config, wsOpen: bool)
    requires s.unacked + s.hist.held < 0x1_0000_0000
    ensures Local(s, Acked(s, cfg, wsOpen), AckFrame(s, cfg, wsOpen))
  {
    hide Pack32, Unpack32, Bytes, Queued;
    UnpackPack(s.unacked + s.hist.held);
    AckSameQueue(s, cfg, wsOpen);
  }

  lemma AckSameQueue(s: Stream, cfg: Config, wsOpen: bool)
    ensures Queued(Acked(s, cfg, wsOpen)) == Queued(s)
  {
  }

  lemma AckLoss(s: Stream, cfg: Config, wsOpen: bool)
    requires s.unacked + s.hist.held < 0x1_0000_0000
    ensures LossOk(s, wsOpen) ==> LossOk(Acked(s, cfg, wsOpen), wsOpen)
  {
  }

  lemma AckMovesStream(c: Conn, h: nat)
    requires h < |c.objs| && c.objs[h].unacked + c.objs[h].hist.held < 0x1_0000_0000
    ensures Moves(c, Ack(c, h), h, AckFrame(c.objs[h], c.cfg, c.wsOpen))
  {
    hide Local, LossOk, Acked, Pack32;
    AckIsLocal(c.objs[h], c.cfg, c.wsOpen);
    AckLoss(c.objs[h], c.cfg, c.wsOpen);
  }

  lemma StallMoves(c: Conn, h: nat)
    requires h < |c.objs|
    ensures Moves(c, Put(c, h, c.objs[h].(sender := Idle)), h, None)
  {
    assert Queued(c.objs[h].(sender := Idle)) == Queued(c.objs[h]);
  }

  lemma QuietStays(c: Conn, e: Event)
    requires Enabled(c, e)
    requires e.FlushResetE? || e.GoawayE? || e.DrainE? || e.DrainWakeE? || e.DrainTimeoutE? || e.LinkDown?
    ensures Stays(c, Step(c, e))
  {
    if e.FlushResetE? && c.wsOpen {
      var f := Frame(RESET, e.id, []);
      assert Step(c, e).out == c.out + [f];
    } else if e.GoawayE? && c.wsOpen {
      var f := Frame(GOAWAY, 0, []);
      assert Step(c, e).out == c.out + [f];
    }
  }

  /** The stream an event is about. */
  function Subject(e: Event): Option<nat> {
    match e
    case StartSendE(h, _) => Some(h)
    case ResumeE(h) => Some(h)
    case WakeE(h) => Some(h)
    case StallE(h) => Some(h)
    case SendEofE(h) => Some(h)
    case ReadE(h) => Some(h)
    case AckE(h) => Some(h)
    case CloseE(h) => Some(h)
    case ResetE(h) => Some(h)
    case _ => None
  }

  lemma SelfMoves(c: Conn, h: nat)
    requires h < |c.objs|
    ensures Moves(c, c, h, None)
  {
  }

  /** A task working on one stream touches no other, and its frame, if any, carries its id. */
  lemma SubjectMoves(c: Conn, e: Event)
    requires Inv(c) && Enabled(c, e) && Subject(e).Some?
    ensures Subject(e).value < |c.objs|
    ensures exists f :: Moves(c, Step(c, e), Subject(e).value, f)
  {
    hide Inv, Moves, SendLoop, SendEof, Read, Ack, CloseLocal, ResetStream;
    var h := Subject(e).value;
    var none: Option<Frame> := None;
    match e
    case StartSendE(_, data) =>
      SelfMoves(c, h);
      SendLoopMoves(c, h, data);
      assert Moves(c, Step(c, e), h, none) || Moves(c, Step(c, e), h, SendFrame(c.objs[h], data, c.wsOpen));
    case ResumeE(_) =>
      SendLoopMoves(c, h, c.objs[h].sender.view);
      assert Moves(c, Step(c, e), h, SendFrame(c.objs[h], c.objs[h].sender.view, c.wsOpen));
    case WakeE(_) =>
      SendLoopMoves(c, h, c.objs[h].sender.view);
      assert Moves(c, Step(c, e), h, SendFrame(c.objs[h], c.objs[h].sender.view, c.wsOpen));
    case StallE(_) => StallMoves(c, h); assert Moves(c, Step(c, e), h, none);
    case SendEofE(_) =>
      SendEofMoves(c, h);
      var f :| Moves(c, SendEof(c, h), h, f);
      assert Moves(c, Step(c, e), h, f);
    case ReadE(_) => ReadMoves(c, h); assert Moves(c, Step(c, e), h, none);
    case AckE(_) =>
      AckMoves(c, h);
      var f :| Moves(c, Ack(c, h), h, f);
      assert Moves(c, Step(c, e), h, f);
    case CloseE(_) => CloseMoves(c, h, LaneEof); assert Moves(c, Step(c, e), h, none);
    case ResetE(_) =>
      ResetMoves(c, h);
      var f :| Moves(c, ResetStream(c, h), h, f);
      assert Moves(c, Step(c, e), h, f);
  }
}
