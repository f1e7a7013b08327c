/** What each frame and each call comes to at one end, in numbers and in what its user sees. */
module Outcomes {
  import opened Wire
  import opened MuxSpec
  import opened MuxInvariant
  import opened StreamLife
  import opened Changes

  /** The arrival of a frame. */
  function Arrives(f: Frame, ok: bool): Event { Recv(Binary(Encode(f)), ok) }

  lemma ArrivesIs(c: Conn, f: Frame, ok: bool)
    requires c.phase == Running
    ensures Enabled(c, Arrives(f, ok)) && Step(c, Arrives(f, ok)) == Dispatch(c, f, ok) && Hears(Arrives(f, ok)) == Some(f)
  {
    hide Dispatch;
    DecodeEncode(f);
  }

  // -- frames

  /** RESET, an EOF with a payload, or credit that is not four bytes. */
  predicate Aborting(f: Frame) {
    f.ftype == RESET || (f.ftype == EOF && f.payload != []) || (f.ftype == WINDOW_UPDATE && |f.payload| != 4)
  }

  lemma ClosedBy(c: Conn, id: u32)
    requires Inv(c) && id in c.reg
    ensures var h := c.reg[id]; var d := CloseLocal(c, h, LaneReset);
            && h < |c.objs| && h < |d.objs| && d.reg == c.reg - {id} && d.resetSends == c.resetSends && d.cfg == c.cfg
            && d.objs[h].closed && d.objs[h].recvBuffered == 0
            && d.objs[h].recv == (if c.objs[h].recv == LaneOpen then LaneReset else c.objs[h].recv)
            && d.objs[h].incoming == (if c.objs[h].recv == LaneOpen then c.objs[h].incoming + [End] else c.objs[h].incoming)
            && d.buffered == c.buffered - c.objs[h].recvBuffered
  {
    RegisteredAt(c, id);
    hide Inv;
  }

  lemma Answers(c: Conn, id: u32)
    requires id != 0
    ensures var d := SendReset(c, id);
            d == c.(resetSends := d.resetSends) && (id in d.resetSends <==> id in c.resetSends || |c.resetSends| < c.cfg.maxStreams)
  {
  }

  /** An aborting frame ends its stream at once: deregistered, what it buffered given back, an open
      direction ended as an abort and never as a clean end, while one that has ended keeps its
      end. The peer's own RESET is not answered; the malformed ones are, if there is room. */
  lemma AbortingFrame(c: Conn, f: Frame, ok: bool)
    requires Inv(c) && c.phase == Running && Aborting(f) && f.sid != 0 && f.sid in c.reg
    ensures Enabled(c, Arrives(f, ok)) && c.reg[f.sid] < |c.objs|
    ensures var d, s := Step(c, Arrives(f, ok)), c.objs[c.reg[f.sid]];
            && c.reg[f.sid] < |d.objs|
            && var s' := d.objs[c.reg[f.sid]];
               && s'.closed && d.reg == c.reg - {f.sid}
               && s'.recvBuffered == 0 && d.buffered == c.buffered - s.recvBuffered
               && (s.recv == LaneOpen ==> s'.recv == LaneReset && s'.incoming == s.incoming + [End])
               && (s.recv != LaneOpen ==> s'.recv == s.recv && s'.incoming == s.incoming)
               && (f.ftype == RESET ==> d.resetSends == c.resetSends)
               && (f.ftype != RESET ==> (f.sid in d.resetSends <==> f.sid in c.resetSends || |c.resetSends| < c.cfg.maxStreams))
  {
    hide Inv, CloseLocal, SendReset, Step, Enabled;
    ArrivesIs(c, f, ok);
    RegisteredAt(c, f.sid);
    ClosedBy(c, f.sid);
    Answers(CloseLocal(c, c.reg[f.sid], LaneReset), f.sid);
  }

  /** Room for `n` more bytes in one more frame: two windows of bytes and a window of frames on the
      stream, 64 MiB and 1,048,576 frames on the connection, and the account's consent. */
  predicate HasRoom(c: Conn, s: Stream, n: nat, ok: bool) {
    && s.recvBuffered + n <= 2 * c.cfg.window && s.recvFrames + 1 <= c.cfg.window
    && c.buffered + n <= 67_108_864 && c.frames + 1 <= 1_048_576 && ok
  }

  /** Data for an open direction is queued exactly when there is room, and otherwise ends it as an
      abort with the bytes lost. */
  lemma DataIff(c: Conn, f: Frame, ok: bool)
    requires Inv(c) && c.phase == Running && f.ftype == DATA && f.payload != [] && f.sid != 0 && f.sid in c.reg
    requires c.reg[f.sid] < |c.objs| && c.objs[c.reg[f.sid]].recv == LaneOpen
    ensures Enabled(c, Arrives(f, ok))
    ensures var h, d := c.reg[f.sid], Step(c, Arrives(f, ok));
            && h < |d.objs| && d.reg == c.reg && d.out == c.out && d.objs[h].closed == c.objs[h].closed
            && (if HasRoom(c, c.objs[h], |f.payload|, ok)
                then d.objs[h].recv == LaneOpen && d.objs[h].incoming == c.objs[h].incoming + [Chunk(f.payload)]
                     && d.buffered == c.buffered + |f.payload| && d.frames == c.frames + 1
                else d.objs[h].recv == LaneReset && d.objs[h].incoming == c.objs[h].incoming + [End] && d.objs[h].resetQueued
                     && d.buffered == c.buffered && d.frames == c.frames)
  {
    hide Inv, Step, Enabled;
    ArrivesIs(c, f, ok);
    RegisteredAt(c, f.sid);
  }

  /** Empty data is nothing at all. */
  lemma EmptyData(c: Conn, id: u32, ok: bool)
    requires Inv(c) && c.phase == Running && id != 0 && id in c.reg && c.reg[id] < |c.objs| && c.objs[c.reg[id]].recv == LaneOpen
    ensures Enabled(c, Arrives(Frame(DATA, id, []), ok)) && Step(c, Arrives(Frame(DATA, id, []), ok)) == c
  {
    hide Inv, Step, Enabled;
    ArrivesIs(c, Frame(DATA, id, []), ok);
    RegisteredAt(c, id);
  }

  /** What there is nothing to do about: not a frame, of no known kind, for no stream that is there,
      credit of zero, an OPEN without an id or at the end that opens, a malformed or second GOAWAY. */
  predicate Nonsense(c: Conn, m: Message) {
    m.Text? || |m.bytes| < 5 ||
    (var f := Decode(m.bytes).value;
     if f.ftype == OPEN then f.sid == 0 || !c.cfg.responder
     else if f.ftype == GOAWAY then f.sid != 0 || f.payload != [] || c.peerGoingAway
     else || f.ftype == 0 || f.ftype > 6 || f.sid == 0 || f.sid !in c.reg
          || (f.ftype == WINDOW_UPDATE && f.payload == [0, 0, 0, 0]))
  }

  lemma ZeroCredit(b: seq<byte>)
    requires |b| == 4
    ensures Unpack32(b) == 0 <==> b == [0, 0, 0, 0]
  {
  }

  lemma LiveFrame(c: Conn, f: Frame, ok: bool)
    requires Inv(c) && StreamFrame(f.ftype) && f.sid != 0 && f.sid in c.reg
    ensures Registered(c, f.sid)
    ensures if f.ftype == WINDOW_UPDATE && f.payload == [0, 0, 0, 0] then Dispatch(c, f, ok) == Ignore(c)
            else Steady(c, Dispatch(c, f, ok))
  {
    hide Inv, Feed, CloseLocal, Unpack32, SendReset, Ignore;
    RegisteredAt(c, f.sid);
    if |f.payload| == 4 { ZeroCredit(f.payload); }
    CloseSteady(c, c.reg[f.sid], LaneReset);
    AnswerSteady(c, c.reg[f.sid], f.sid);
    FeedSteady(c, c.reg[f.sid], f.payload, ok);
  }

  lemma OtherFrame(c: Conn, f: Frame, ok: bool)
    requires f.ftype == OPEN || f.ftype == GOAWAY || !StreamFrame(f.ftype) || f.sid == 0 || f.sid !in c.reg
    ensures var d := Dispatch(c, f, ok);
            var acts := if f.ftype == OPEN then f.sid != 0 && c.cfg.responder
                        else f.ftype == GOAWAY && f.sid == 0 && f.payload == [] && !c.peerGoingAway;
            if acts then d.ignored == c.ignored && d.phase == c.phase else d == Ignore(c)
  {
    hide SendReset, Ignore;
    ResetSteady(c, f.sid);
  }

  lemma IgnoreIs(c: Conn)
    ensures Ignore(c) == if c.ignored + 1 < 65_536 then c.(ignored := c.ignored + 1)
                         else c.(ignored := c.ignored + 1, wsOpen := false, phase := Stopping)
  {
  }

  /** A message is ignored exactly when it is nonsense: it is counted, and the 65,536th breaks the
      link. */
  lemma IgnoredIff(c: Conn, m: Message, ok: bool)
    requires Inv(c) && c.phase == Running
    ensures var d := Step(c, Recv(m, ok));
            if !Nonsense(c, m) then d.ignored == c.ignored && d.phase == Running
            else if c.ignored + 1 < 65_536 then d == c.(ignored := c.ignored + 1)
            else d == c.(ignored := c.ignored + 1, wsOpen := false, phase := Stopping)
  {
    hide Inv, Dispatch, Decode, Ignore;
    IgnoreIs(c);
    if m.Binary? {
      EncodeDecode(m.bytes);
      if Decode(m.bytes).Some? {
        var f := Decode(m.bytes).value;
        if StreamFrame(f.ftype) && f.sid != 0 && f.sid in c.reg { LiveFrame(c, f, ok); } else { OtherFrame(c, f, ok); }
      }
    }
  }

  lemma FeedSteady(c: Conn, h: nat, data: seq<byte>, ok: bool)
    requires h < |c.objs|
    ensures Steady(c, Feed(c, h, data, ok))
  {
    hide Arrived, Breach;
  }

  /** A clean EOF ends the direction behind everything queued and leaves the stream and its other
      direction alone; a second one, or one after an abort, does nothing. */
  lemma EofFrame(c: Conn, id: u32, ok: bool)
    requires Inv(c) && c.phase == Running && id != 0 && id in c.reg
    ensures var e := Arrives(Frame(EOF, id, []), ok);
            && Enabled(c, e) && c.reg[id] < |c.objs|
            && var h, d := c.reg[id], Step(c, e);
               && (c.objs[h].recv != LaneOpen ==> d == c)
               && (c.objs[h].recv == LaneOpen ==>
                     && h < |d.objs| && d.reg == c.reg && d.objs[h].hist.peerEof
                     && d.objs[h] == c.objs[h].(recv := LaneEof, incoming := c.objs[h].incoming + [End], hist := d.objs[h].hist))
  {
    hide Inv, Step, Enabled;
    ArrivesIs(c, Frame(EOF, id, []), ok);
    RegisteredAt(c, id);
  }

  /** Credit opens the window by its amount, up to 2^31 - 1, and wakes the sender; credit of zero
      does neither. */
  lemma CreditFrame(c: Conn, id: u32, delta: u32, ok: bool)
    requires Inv(c) && c.phase == Running && id != 0 && id in c.reg
    ensures var e := Arrives(Frame(WINDOW_UPDATE, id, Pack32(delta)), ok);
            && Enabled(c, e) && c.reg[id] < |c.objs|
            && var h, d := c.reg[id], Step(c, e);
               && h < |d.objs| && d.reg == c.reg
               && (delta > 0 ==>
                     && d.objs[h].window == (if c.objs[h].window + delta < 0x8000_0000 then c.objs[h].window + delta else 0x7FFF_FFFF)
                     && d.objs[h].waiter && d.ignored == c.ignored)
               && (delta == 0 ==> d.objs == c.objs && d.ignored == c.ignored + 1)
  {
    hide Inv, Step, Enabled, Pack32, Unpack32;
    UnpackPack(delta);
    ArrivesIs(c, Frame(WINDOW_UPDATE, id, Pack32(delta)), ok);
    RegisteredAt(c, id);
  }

  /** The first well-formed GOAWAY makes the connection drain and is reported once; every later one
      changes nothing but the count of ignored frames. */
  lemma GoawayFrame(c: Conn, ok: bool)
    requires c.phase == Running
    ensures var e := Arrives(Frame(GOAWAY, 0, []), ok);
            && Enabled(c, e)
            && var d := Step(c, e);
               && d.peerGoingAway && Draining(d) && d.objs == c.objs && d.reg == c.reg
               && d.goawayCalls == c.goawayCalls + (if c.peerGoingAway then 0 else 1)
               && d.ignored == c.ignored + (if c.peerGoingAway then 1 else 0)
  {
    hide Step, Enabled;
    ArrivesIs(c, Frame(GOAWAY, 0, []), ok);
  }

  /** A peer may have a stream: this end answers for it, is not draining, the id is not in use and
      there is room. */
  predicate MayOpen(c: Conn, id: u32) {
    && c.cfg.responder && id != 0
    && !c.goingAway && !c.peerGoingAway && id !in c.reg && |c.reg| < c.cfg.maxStreams
  }

  /** A plain OPEN makes a stream exactly then; the stream starts with a full window and nothing
      else about the connection changes. */
  lemma AcceptedIff(c: Conn, id: u32, ok: bool)
    requires Inv(c) && c.phase == Running
    ensures var e := Arrives(Frame(OPEN, id, []), ok);
            && Enabled(c, e)
            && var d := Step(c, e);
               && (MayOpen(c, id) <==> |d.objs| > |c.objs|)
               && (MayOpen(c, id) ==>
                     && |d.objs| == |c.objs| + 1 && d == c.(objs := d.objs, reg := c.reg[id := |c.objs|])
                     && (forall h | 0 <= h < |c.objs| :: d.objs[h] == c.objs[h])
                     && var s := d.objs[|c.objs|];
                        s.id == id && s.window == c.cfg.window && s.recv == LaneOpen && !s.closed && s.incoming == [])
               && (!MayOpen(c, id) ==> d.objs == c.objs && d.reg == c.reg)
  {
    hide Inv, Step, Enabled;
    ArrivesIs(c, Frame(OPEN, id, []), ok);
  }

  /** `open()` makes a stream exactly when neither side is draining, there is room and ids are
      left; the stream is usable, its OPEN sent, exactly when the link is up as well. */
  lemma OpenedIff(c: Conn)
    requires Inv(c) && !c.cfg.responder
    ensures var d := Step(c, OpenE);
            var may := !c.goingAway && !c.peerGoingAway && |c.reg| < c.cfg.maxStreams && c.nextId < 0x1_0000_0000;
            && (!may ==> d == c)
            && (may ==>
                  && |d.objs| == |c.objs| + 1 && d.nextId == c.nextId + 1
                  && d.objs[|c.objs|].id == c.nextId && d.objs[|c.objs|].window == c.cfg.window
                  && d.objs[|c.objs|].closed == !c.wsOpen
                  && d.out == if c.wsOpen then c.out + [Frame(OPEN, c.nextId, [])] else c.out)
            && (may && c.wsOpen ==> d.reg == c.reg[c.nextId := |c.objs|] && d.objs[|c.objs|].recv == LaneOpen)
            && (may && !c.wsOpen ==> d.reg == c.reg - {c.nextId})
  {
    hide Inv;
  }

  /** A task with bytes to send and a live stream sends as many as fit: all of them, all the credit,
      or all a message can hold. Without credit it parks and says nothing. */
  lemma SendIff(c: Conn, e: Event, h: nat)
    requires Inv(c) && Enabled(c, e) && (e == ResumeE(h) || e == WakeE(h)) && c.wsOpen
    requires !c.objs[h].closed && c.objs[h].sender.view != []
    ensures var s, view, d := c.objs[h], c.objs[h].sender.view, Step(c, e);
            && h < |d.objs|
            && (s.window == 0 ==> d.objs[h].sender == Parked(view) && !d.objs[h].waiter && d.out == c.out)
            && (s.window > 0 ==>
                  exists n: nat ::
                    && 0 < n <= |view| && n <= s.window && n <= 262_139
                    && (n == |view| || n == s.window || n == 262_139)
                    && d.out == c.out + [Frame(DATA, s.id, view[..n])]
                    && d.objs[h].sender == Sending(view[n..]) && d.objs[h].window == s.window - n)
  {
    hide Inv;
    SenderNotEnded(c, h);
    var s, view := c.objs[h], c.objs[h].sender.view;
    assert s.window >= 0 by { WindowCounts(c, h); }
    if s.window > 0 { assert SendSize(s, view) > 0; }
  }

  lemma WindowCounts(c: Conn, h: nat)
    requires Inv(c) && h < |c.objs|
    ensures 0 <= c.objs[h].window <= 0x7FFF_FFFF
  {
    StreamAt(c, h);
    hide Inv, QueueInv, CountInv, LaneInv, LedgerInv;
  }

  /** An ack returns credit as soon as half the window has been read and acked, all of it in one
      frame, and says nothing before; nor does it on a stream that is closed or was reset. */
  lemma AckIff(c: Conn, h: nat)
    requires Inv(c) && Enabled(c, AckE(h)) && c.wsOpen
    ensures var half := if c.cfg.window < 2 then 1 else c.cfg.window / 2;
            var s, d := c.objs[h], Step(c, AckE(h));
            var due := s.unacked + s.hist.held;
            && h < |d.objs| && d.objs[h].hist.held == 0
            && if s.closed || s.recv == LaneReset then d.out == c.out
               else if due < half then d.objs[h].unacked == due && d.out == c.out
               else d.objs[h].unacked == 0 && 0 < due < 0x1_0000_0000
                    && d.out == c.out + [Frame(WINDOW_UPDATE, s.id, Pack32(due))]
  {
    hide Inv, Pack32, StreamInv;
    StreamAt(c, h);
    ConfigValid(c);
    AckStream(c.objs[h], c.cfg, c.wsOpen);
  }

  /** `close` and `reset` deregister the stream and end an open direction, the one cleanly and the
      other as an abort; only `reset` tells the peer. On a closed stream neither does anything. */
  lemma OwnerEnds(c: Conn, h: nat, e: Event)
    requires Inv(c) && h < |c.objs| && (e == CloseE(h) || e == ResetE(h))
    ensures var s, d := c.objs[h], Step(c, e);
            && (s.closed ==> d == c)
            && (!s.closed ==>
                  && h < |d.objs| && d.objs[h].closed && d.reg == c.reg - {s.id} && d.buffered == c.buffered - s.recvBuffered
                  && d.objs[h].recv == (if s.recv != LaneOpen then s.recv else if e.CloseE? then LaneEof else LaneReset)
                  && d.out == if e.ResetE? && c.wsOpen then c.out + [Frame(RESET, s.id, [])] else c.out)
  {
    hide Inv;
  }

  /** A queued refusal is sent once. */
  lemma RefusalSent(c: Conn, id: u32)
    requires Enabled(c, FlushResetE(id))
    ensures var d := Step(c, FlushResetE(id));
            && d == c.(resetSends := c.resetSends - {id}, out := d.out)
            && d.out == if c.wsOpen then c.out + [Frame(RESET, id, [])] else c.out
  {
  }

  /** After `goaway` this end opens nothing and accepts nothing, and the peer is told. */
  lemma GoawayCall(c: Conn, ok: bool)
    requires Inv(c) && c.phase == Running
    ensures var d := Step(c, GoawayE);
            && d.goingAway && d.objs == c.objs && d.reg == c.reg
            && (c.wsOpen ==> d.out == c.out + [Frame(GOAWAY, 0, [])])
            && (!c.cfg.responder ==> Step(d, OpenE) == d)
            && forall id: u32 :: |Step(d, Arrives(Frame(OPEN, id, []), ok)).objs| == |d.objs|
  {
    var d := Step(c, GoawayE);
    ConnStepKeeps(c, GoawayE);
    hide Inv, Step;
    assert d.phase == Running && d.goingAway by { GoawayIs(c); }
    forall id: u32 ensures |Step(d, Arrives(Frame(OPEN, id, []), ok)).objs| == |d.objs| { AcceptedIff(d, id, ok); }
    GoawayIs(c);
    if !c.cfg.responder { OpenedIff(d); }
  }

  lemma GoawayIs(c: Conn)
    ensures Step(c, GoawayE) == c.(goingAway := true, out := if c.wsOpen then c.out + [Frame(GOAWAY, 0, [])] else c.out)
  {
  }

  /** A stream that is closed says nothing more, whatever task still works on it. */
  lemma ClosedIsSilent(c: Conn, e: Event)
    requires Enabled(c, e) && 0 <= Target(c, e) < |c.objs| && c.objs[Target(c, e)].closed
    ensures Step(c, e).out == c.out
  {
    hide Receive, ClosedOff, Taken;
    if e.Recv? { RecvSilent(c, e); }
  }

  /** `drain` waits while there are streams: a pass of its loop parks exactly then. */
  lemma DrainWaitsIff(c: Conn, e: Event)
    requires Enabled(c, e) && (e.DrainE? || e.DrainWakeE?)
    ensures var before := if e.DrainWakeE? then c.parkedDrains - 1 else c.parkedDrains;
            Step(c, e).parkedDrains == before + if c.reg == map[] then 0 else 1
  {
  }
}
