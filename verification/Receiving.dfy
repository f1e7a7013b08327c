/** What receiving one frame does to the agreement between a stream and its peer's log. */
module Receiving {
  import opened Wire
  import opened MuxSpec
  import opened MuxInvariant
  import opened Channel
  import opened Effects

  lemma HeardOther(s: Stream, log: seq<Frame>, f: Frame)
    requires HeardOf(s, log) && f.sid != s.id
    ensures HeardOf(s, log + [f])
  {
    Push(log, f, s.id);
    hide Bytes;
  }

  /** Frames that reach a closed stream are ignored. */
  lemma HeardClosed(s: Stream, log: seq<Frame>, f: Frame)
    requires s.closed && s.recv != LaneOpen && HeardOf(s, log)
    requires f.ftype == DATA && f.sid == s.id ==> !HasEof(log, s.id)
    ensures HeardOf(s, log + [f])
  {
    Push(log, f, s.id);
    hide Bytes;
  }

  predicate DataFor(f: Frame, s: Stream, log: seq<Frame>) {
    f.ftype == DATA && f.sid == s.id && f.payload != [] && !HasEof(log, s.id)
  }

  lemma HeardDrop(s: Stream, log: seq<Frame>, f: Frame)
    requires !s.closed && s.recv != LaneOpen && HeardOf(s, log) && DataFor(f, s, log)
    ensures HeardOf(Drop(s, |f.payload|), log + [f])
  {
    Push(log, f, s.id);
    assert Queued(Drop(s, |f.payload|)) == Queued(s);
    hide Bytes;
  }

  lemma HeardBroken(s: Stream, log: seq<Frame>, f: Frame)
    requires !s.closed && s.recv == LaneOpen && HeardOf(s, log) && DataFor(f, s, log)
    ensures HeardOf(Broken(s, |f.payload|), log + [f])
  {
    Push(log, f, s.id);
    EndRecvBytes(s, LaneReset);
    assert Queued(Broken(s, |f.payload|)) == Queued(EndRecv(s, LaneReset));
    hide Bytes;
  }

  lemma HeardChunk(s: Stream, log: seq<Frame>, f: Frame)
    requires !s.closed && s.recv == LaneOpen && HeardOf(s, log) && DataFor(f, s, log)
    ensures HeardOf(Chunked(s, f.payload), log + [f])
  {
    Push(log, f, s.id);
    assert Queued(Chunked(s, f.payload)) == Queued(s) + [Chunk(f.payload)];
    QueuePush(Queued(s), Chunk(f.payload));
    hide Bytes;
  }

  lemma HeardData(s: Stream, log: seq<Frame>, f: Frame, breach: bool)
    requires !s.closed && HeardOf(s, log) && DataFor(f, s, log)
    ensures HeardOf(Arrived(s, f.payload, breach), log + [f])
  {
    hide HeardOf, Drop, Broken, Chunked;
    if s.recv != LaneOpen { HeardDrop(s, log, f); }
    else if breach { HeardBroken(s, log, f); }
    else { HeardChunk(s, log, f); }
  }

  lemma FeedEofSame(s: Stream)
    ensures Bytes(Queued(FeedEof(s))) == Bytes(Queued(s)) && Fed(FeedEof(s)) == Fed(s)
    ensures var t := FeedEof(s); t.id == s.id && t.closed == s.closed && t.recv != LaneOpen && t.hist.granted == s.hist.granted
    ensures FeedEof(s).hist.peerEof == (s.hist.peerEof || s.recv == LaneOpen)
  {
    hide Bytes;
    EndRecvBytes(s, LaneEof);
    assert Queued(FeedEof(s)) == Queued(EndRecv(s, LaneEof));
  }

  lemma HeardEof(s: Stream, log: seq<Frame>, f: Frame)
    requires !s.closed && HeardOf(s, log) && f.ftype == EOF && f.sid == s.id
    ensures HeardOf(FeedEof(s), log + [f])
  {
    hide Bytes, Queued, FeedEof, Fed, DataOf, CreditOf, HasEof;
    Push(log, f, s.id);
    FeedEofSame(s);
  }

  lemma HeardCredit(s: Stream, log: seq<Frame>, f: Frame)
    requires !s.closed && HeardOf(s, log) && f.ftype == WINDOW_UPDATE && f.sid == s.id && |f.payload| == 4
    requires s.window + Unpack32(f.payload) <= MAX_SEND_WINDOW
    ensures HeardOf(Grant(s, Unpack32(f.payload)), log + [f])
  {
    Push(log, f, s.id);
    assert Queued(Grant(s, Unpack32(f.payload))) == Queued(s);
    hide Bytes, Unpack32;
  }

  lemma HeardReset(s: Stream, log: seq<Frame>, f: Frame)
    requires HeardOf(s, log) && f.ftype == RESET && f.sid == s.id && !s.closed
    ensures HeardOf(ClosedOff(s, LaneReset), log + [f])
  {
    Push(log, f, s.id);
    CloseIsLocal(s, LaneReset);
    hide Bytes, EndRecv;
  }

  /** The frames a peer that follows the protocol can send next. */
  predicate Acceptable(c: Conn, f: Frame, log: seq<Frame>) {
    && FrameFits(f)
    && (f.ftype == DATA ==> !HasEof(log, f.sid))
    && (f.ftype == WINDOW_UPDATE ==> forall h | 0 <= h < |c.objs| && c.objs[h].id == f.sid && !c.objs[h].closed ::
          c.objs[h].window + FrameCredit(f, f.sid) <= MAX_SEND_WINDOW)
    && (f.ftype == OPEN && c.cfg.responder ==>
          && (forall h | 0 <= h < |c.objs| :: c.objs[h].id != f.sid)
          && DataOf(log, f.sid) == [] && CreditOf(log, f.sid) == 0
          && DataOf(c.out, f.sid) == [] && CreditOf(c.out, f.sid) == 0 && !HasEof(c.out, f.sid))
  }

  /** What receiving `f` does to the streams that exist, and which it creates. */
  predicate Heard(c: Conn, c': Conn, f: Frame, log: seq<Frame>) {
    && c'.cfg == c.cfg && c'.out == c.out && (c'.wsOpen ==> c.wsOpen)
    && |c.objs| <= |c'.objs|
    && (forall h | 0 <= h < |c.objs| ::
          && c'.objs[h].id == c.objs[h].id
          && c'.objs[h].hist.sent == c.objs[h].hist.sent
          && c'.objs[h].hist.credited == c.objs[h].hist.credited
          && c'.objs[h].sendEnded == c.objs[h].sendEnded
          && (LossOk(c.objs[h], c.wsOpen) ==> LossOk(c'.objs[h], c.wsOpen))
          && HeardOf(c'.objs[h], log + [f]))
    && (c'.objs == c'.objs[..|c.objs|] ||
          (f.ftype == OPEN && c.cfg.responder && c'.objs == c'.objs[..|c.objs|] + [NewStream(f.sid, c.cfg.window)]))
  }

  lemma AcceptBasics(c: Conn, f: Frame, log: seq<Frame>)
    requires Acceptable(c, f, log)
    ensures f.ftype == DATA ==> f.payload != [] && !HasEof(log, f.sid)
    ensures f.ftype == WINDOW_UPDATE ==> |f.payload| == 4 && Unpack32(f.payload) > 0
    ensures f.ftype == OPEN || f.ftype == EOF || f.ftype == RESET || f.ftype == GOAWAY ==> f.payload == []
    ensures OPEN <= f.ftype <= GOAWAY && (f.sid == 0 <==> f.ftype == GOAWAY)
  {
  }

  lemma AcceptOpen(c: Conn, f: Frame, log: seq<Frame>)
    requires Inv(c) && Acceptable(c, f, log) && f.ftype == OPEN && c.cfg.responder
    ensures forall h | 0 <= h < |c.objs| :: c.objs[h].id != f.sid
    ensures f.sid !in c.reg
  {
    hide Inv;
    if f.sid in c.reg { RegisteredAt(c, f.sid); }
  }

  lemma NewHeard(c: Conn, f: Frame, log: seq<Frame>)
    requires Acceptable(c, f, log) && f.ftype == OPEN && c.cfg.responder
    ensures HeardOf(NewStream(f.sid, c.cfg.window), log + [f])
  {
    Push(log, f, f.sid);
    assert Queued(NewStream(f.sid, c.cfg.window)) == [];
  }

  lemma ClosedLane(c: Conn, h: nat)
    requires Inv(c) && h < |c.objs| && c.objs[h].closed
    ensures c.objs[h].recv != LaneOpen
  {
    StreamAt(c, h);
    hide Inv, QueueInv, SenderInv, LedgerInv, LaneInv;
  }

  /** The frame names no live stream. */
  lemma HeardByNone(c: Conn, c': Conn, f: Frame, log: seq<Frame>)
    requires Inv(c) && LinkInv(c.objs, log) && Acceptable(c, f, log)
    requires c'.objs == c.objs && c'.cfg == c.cfg && c'.out == c.out && (c'.wsOpen ==> c.wsOpen)
    requires forall h | 0 <= h < |c.objs| && c.objs[h].id == f.sid :: c.objs[h].closed
    ensures Heard(c, c', f, log)
  {
    hide Inv, HeardOf, Acceptable;
    AcceptBasics(c, f, log);
    forall h | 0 <= h < |c.objs|
      ensures HeardOf(c'.objs[h], log + [f])
    {
      if c.objs[h].id == f.sid {
        ClosedLane(c, h);
        HeardClosed(c.objs[h], log, f);
      } else {
        HeardOther(c.objs[h], log, f);
      }
    }
  }

  /** The frame is for stream `h`, which becomes `s`. */
  lemma HeardByOne(c: Conn, c': Conn, h: nat, s: Stream, f: Frame, log: seq<Frame>)
    requires Unique(c.objs) && LinkInv(c.objs, log) && h < |c.objs| && c.objs[h].id == f.sid
    requires c'.objs == c.objs[h := s] && c'.cfg == c.cfg && c'.out == c.out && (c'.wsOpen ==> c.wsOpen)
    requires HeardOf(s, log + [f])
    requires Quiet(c.objs[h], s)
    requires LossOk(c.objs[h], c.wsOpen) ==> LossOk(s, c.wsOpen)
    ensures Heard(c, c', f, log)
  {
    hide HeardOf, LossOk;
    forall k | 0 <= k < |c.objs|
      ensures HeardOf(c'.objs[k], log + [f])
    {
      if k != h { HeardOther(c.objs[k], log, f); }
    }
  }

  /** Receiving leaves the send side's history alone. */
  predicate Quiet(s: Stream, s': Stream) {
    && s'.id == s.id && s'.sendEnded == s.sendEnded && s'.hist.sent == s.hist.sent
    && s'.hist.credited == s.hist.credited
    && s'.hist.unsent == s.hist.unsent && s'.hist.uncredited == s.hist.uncredited
    && (s.closed ==> s'.closed) && (s.recv == LaneReset ==> s'.recv == LaneReset)
  }

  lemma ArrivedQuiet(s: Stream, p: seq<byte>, breach: bool)
    ensures Quiet(s, Arrived(s, p, breach))
  {
  }

  lemma EofQuiet(s: Stream)
    ensures Quiet(s, FeedEof(s))
  {
  }

  lemma CreditQuiet(s: Stream, delta: nat)
    ensures Quiet(s, Grant(s, delta))
  {
  }

  lemma CloseQuiet(s: Stream)
    ensures Quiet(s, ClosedOff(s, LaneReset))
  {
  }

  lemma QuietLoss(s: Stream, s': Stream, wsOpen: bool)
    requires Quiet(s, s') && LossOk(s, wsOpen)
    ensures LossOk(s', wsOpen)
  {
  }

  lemma DataHeard(c: Conn, h: nat, f: Frame, ok: bool, log: seq<Frame>)
    requires Unique(c.objs) && LinkInv(c.objs, log) && Acceptable(c, f, log)
    requires h < |c.objs| && c.objs[h].id == f.sid && !c.objs[h].closed && f.ftype == DATA
    ensures Heard(c, Feed(c, h, f.payload, ok), f, log)
  {
    hide HeardOf, Acceptable, Heard, Quiet, Arrived, LossOk, Breach;
    var breach := Breach(c, h, |f.payload|, ok);
    var s := Arrived(c.objs[h], f.payload, breach);
    AcceptBasics(c, f, log);
    HeardData(c.objs[h], log, f, breach);
    ArrivedQuiet(c.objs[h], f.payload, breach);
    if LossOk(c.objs[h], c.wsOpen) { QuietLoss(c.objs[h], s, c.wsOpen); }
    HeardByOne(c, Feed(c, h, f.payload, ok), h, s, f, log);
  }

  lemma PutHeard(c: Conn, h: nat, s: Stream, f: Frame, log: seq<Frame>)
    requires Unique(c.objs) && LinkInv(c.objs, log) && h < |c.objs| && c.objs[h].id == f.sid
    requires HeardOf(s, log + [f]) && Quiet(c.objs[h], s)
    ensures Heard(c, Put(c, h, s), f, log)
  {
    hide HeardOf, Quiet, Heard, LossOk;
    if LossOk(c.objs[h], c.wsOpen) { QuietLoss(c.objs[h], s, c.wsOpen); }
    HeardByOne(c, Put(c, h, s), h, s, f, log);
  }

  lemma CreditHeard(c: Conn, h: nat, f: Frame, log: seq<Frame>)
    requires Unique(c.objs) && LinkInv(c.objs, log) && Acceptable(c, f, log)
    requires h < |c.objs| && c.objs[h].id == f.sid && !c.objs[h].closed && f.ftype == WINDOW_UPDATE
    ensures |f.payload| == 4 && Unpack32(f.payload) != 0
    ensures Heard(c, Put(c, h, Grant(c.objs[h], Unpack32(f.payload))), f, log)
  {
    assert c.objs[h].window + FrameCredit(f, f.sid) <= MAX_SEND_WINDOW;
    assert HeardOf(c.objs[h], log);
    hide HeardOf, Acceptable, Heard, Quiet, Grant, Unpack32;
    HeardCredit(c.objs[h], log, f);
    CreditQuiet(c.objs[h], Unpack32(f.payload));
    PutHeard(c, h, Grant(c.objs[h], Unpack32(f.payload)), f, log);
  }

  lemma EofHeard(c: Conn, h: nat, f: Frame, log: seq<Frame>)
    requires Unique(c.objs) && LinkInv(c.objs, log)
    requires h < |c.objs| && c.objs[h].id == f.sid && !c.objs[h].closed && f.ftype == EOF
    ensures Heard(c, Put(c, h, FeedEof(c.objs[h])), f, log)
  {
    assert HeardOf(c.objs[h], log);
    hide HeardOf, Heard, Quiet, FeedEof;
    HeardEof(c.objs[h], log, f);
    EofQuiet(c.objs[h]);
    PutHeard(c, h, FeedEof(c.objs[h]), f, log);
  }

  lemma ResetHeard(c: Conn, h: nat, f: Frame, log: seq<Frame>)
    requires Unique(c.objs) && LinkInv(c.objs, log)
    requires h < |c.objs| && c.objs[h].id == f.sid && !c.objs[h].closed && f.ftype == RESET
    ensures Heard(c, CloseLocal(c, h, LaneReset), f, log)
  {
    assert HeardOf(c.objs[h], log);
    hide HeardOf, Heard, Quiet, ClosedOff, LossOk;
    HeardReset(c.objs[h], log, f);
    CloseQuiet(c.objs[h]);
    var s := ClosedOff(c.objs[h], LaneReset);
    if LossOk(c.objs[h], c.wsOpen) { QuietLoss(c.objs[h], s, c.wsOpen); }
    HeardByOne(c, CloseLocal(c, h, LaneReset), h, s, f, log);
  }

  lemma OpenHeard(c: Conn, f: Frame, log: seq<Frame>)
    requires Inv(c) && LinkInv(c.objs, log) && Acceptable(c, f, log) && f.ftype == OPEN && c.cfg.responder
    ensures Heard(c, DispatchOpen(c, f), f, log)
  {
    hide Inv, HeardOf, Acceptable, LossOk;
    AcceptBasics(c, f, log);
    AcceptOpen(c, f, log);
    HeardByNone(c, c, f, log);
    NewHeard(c, f, log);
    assert Create(c, f.sid).objs[..|c.objs|] == c.objs;
  }

  lemma IgnoredHeard(c: Conn, c': Conn, f: Frame, log: seq<Frame>)
    requires Inv(c) && LinkInv(c.objs, log) && Acceptable(c, f, log) && !Registered(c, f.sid)
    requires c'.objs == c.objs && c'.cfg == c.cfg && c'.out == c.out && (c'.wsOpen ==> c.wsOpen)
    ensures Heard(c, c', f, log)
  {
    assert forall h | 0 <= h < |c.objs| && c.objs[h].id == f.sid :: c.objs[h].closed by {
      hide StreamsInv, HeardOf, Acceptable;
    }
    hide Inv, HeardOf, Acceptable, Heard;
    HeardByNone(c, c', f, log);
  }

  lemma RegisteredHeard(c: Conn, f: Frame, ok: bool, log: seq<Frame>)
    requires Inv(c) && Unique(c.objs) && LinkInv(c.objs, log) && Acceptable(c, f, log)
    requires StreamFrame(f.ftype) && f.sid != 0 && Registered(c, f.sid)
    ensures Heard(c, Dispatch(c, f, ok), f, log)
  {
    hide Inv, HeardOf, Heard, Acceptable, Feed, FeedEof, Grant, CloseLocal, Put, LinkInv, Unique, Unpack32;
    var h := c.reg[f.sid];
    RegisteredAt(c, f.sid);
    AcceptBasics(c, f, log);
    if f.ftype == DATA { DataHeard(c, h, f, ok, log); }
    else if f.ftype == EOF { EofHeard(c, h, f, log); }
    else if f.ftype == WINDOW_UPDATE { CreditHeard(c, h, f, log); }
    else { ResetHeard(c, h, f, log); }
  }

  lemma GoawayHeard(c: Conn, f: Frame, log: seq<Frame>)
    requires Inv(c) && LinkInv(c.objs, log) && Acceptable(c, f, log) && f.ftype == GOAWAY
    ensures Heard(c, DispatchGoaway(c, f), f, log)
  {
    hide HeardOf, Heard, Acceptable, StreamsInv, RegInv, AccountInv;
    AcceptBasics(c, f, log);
    HeardByNone(c, DispatchGoaway(c, f), f, log);
  }

  /** One frame of a well-behaved peer, through the frame reader. */
  lemma DispatchHeard(c: Conn, f: Frame, ok: bool, log: seq<Frame>)
    requires Inv(c) && Unique(c.objs) && LinkInv(c.objs, log) && Acceptable(c, f, log)
    requires f.ftype == OPEN ==> c.cfg.responder
    ensures Heard(c, Dispatch(c, f, ok), f, log)
  {
    hide Inv, HeardOf, Heard, Acceptable, Feed, DispatchOpen, DispatchEof, DispatchCredit, DispatchGoaway, CloseLocal, LinkInv, Unique;
    AcceptBasics(c, f, log);
    if f.ftype == OPEN { OpenHeard(c, f, log); }
    else if f.ftype == GOAWAY { GoawayHeard(c, f, log); }
    else if Registered(c, f.sid) { RegisteredHeard(c, f, ok, log); }
    else { IgnoredHeard(c, Dispatch(c, f, ok), f, log); }
  }
}
