/** The multiplexed connection refines independent FIFO byte pipes, two for each stream id: every
    step of the system is, on each pipe, nothing at all or one step of a pipe on its own. */
module Pipes {
  import opened Wire
  import opened MuxSpec
  import opened MuxInvariant
  import opened Channel
  import opened Effects
  import opened Endpoints
  import opened StreamLife
  import opened Guarantees

  /** One direction of one stream, as its two users see it. */
  datatype Pipe = Pipe(written: seq<byte>, ended: bool, read: seq<byte>)

  predicate Extends(a: seq<byte>, b: seq<byte>) { |a| < |b| && b[..|a|] == a }

  /** Write to an open pipe, end it, or read the next bytes that were written. */
  predicate PipeStep(p: Pipe, q: Pipe) {
    || q == p
    || (!p.ended && Extends(p.written, q.written) && q == p.(written := q.written))
    || (!p.ended && q == p.(ended := true))
    || (Extends(p.read, q.read) && q.read <= p.written && q == p.(read := q.read))
  }

  function ReadBy(objs: seq<Stream>, id: u32): seq<byte> {
    if objs == [] then []
    else
      var s := objs[|objs|-1];
      if s.id == id then Bytes(s.hist.taken) else ReadBy(objs[..|objs|-1], id)
  }

  /** From the initiator to the responder, and back. */
  function Forth(y: Sys, id: u32): Pipe { Pipe(DataOf(y.a.out, id), HasEof(y.a.out, id), ReadBy(y.b.objs, id)) }

  function Back(y: Sys, id: u32): Pipe { Pipe(DataOf(y.b.out, id), HasEof(y.b.out, id), ReadBy(y.a.objs, id)) }

  lemma {:induction false} ReadAt(objs: seq<Stream>, h: nat)
    requires Unique(objs) && h < |objs|
    ensures ReadBy(objs, objs[h].id) == Bytes(objs[h].hist.taken)
  {
    var n := |objs| - 1;
    if h < n { ReadAt(objs[..n], h); }
  }

  lemma {:induction false} ReadNone(objs: seq<Stream>, id: u32)
    requires forall h | 0 <= h < |objs| :: objs[h].id != id
    ensures ReadBy(objs, id) == []
  {
    if objs != [] { ReadNone(objs[..|objs|-1], id); }
  }

  // -- the writing end

  /** What a step appends to the log of frames. */
  predicate Appends(out: seq<Frame>, out': seq<Frame>) {
    out' == out || (|out'| == |out| + 1 && out' == out + [out'[|out|]])
  }

  lemma SubjectAppends(c: Conn, e: Event)
    requires Inv(c) && Enabled(c, e) && Subject(e).Some?
    ensures Appends(c.out, Step(c, e).out)
  {
    hide Inv, Step, Enabled, Subject, Local, LossOk;
    SubjectMoves(c, e);
    var f :| Moves(c, Step(c, e), Subject(e).value, f);
  }

  lemma ConnAppends(c: Conn, e: Event)
    requires Enabled(c, e) && ConnEvent(e)
    ensures Appends(c.out, Step(c, e).out)
  {
    hide Step, Enabled;
    QuietStays(c, e);
  }

  lemma StepAppends(c: Conn, e: Event)
    requires EndInv(c) && Enabled(c, e) && !e.Recv?
    ensures Appends(c.out, Step(c, e).out)
  {
    hide Inv, Unique, LogInv, LossInv, OpenStream, Appends, Finish;
    if Subject(e).Some? { SubjectAppends(c, e); }
    else if e.RunEnd? { EndAppends(c, e.hs); }
    else if e.OpenE? { OpenAppends(c); }
    else { ConnAppends(c, e); }
  }

  lemma EndAppends(c: Conn, hs: seq<nat>)
    requires EndInv(c) && Enabled(c, RunEnd(hs))
    ensures Appends(c.out, Finish(c, hs).out)
  {
    hide Inv, Unique, LogInv, LossInv, AbortEach;
    AbortSilent(c, hs);
  }

  lemma {:induction false} AbortSilent(c: Conn, hs: seq<nat>)
    requires Below(hs, |c.objs|)
    ensures AbortEach(c, hs).out == c.out
    decreases |hs|
  {
    hide CloseLocal, Moves;
    if hs != [] {
      CloseMoves(c, hs[0], LaneReset);
      MovesSilent(c, CloseLocal(c, hs[0], LaneReset), hs[0]);
      MovesContinues(c, CloseLocal(c, hs[0], LaneReset), hs[0], None);
      AbortSilent(CloseLocal(c, hs[0], LaneReset), hs[1..]);
    }
  }

  lemma OpenAppends(c: Conn)
    requires EndInv(c) && !c.cfg.responder
    ensures Appends(c.out, OpenStream(c).out)
  {
    hide Inv, OpenStream;
    OpenShape(c);
  }

  /** A frame appended writes to one pipe, ends one, or does neither; never after the end. */
  lemma WriteStep(out: seq<Frame>, f: Frame, id: u32, read: seq<byte>)
    requires f.ftype == DATA ==> f.payload != [] && !HasEof(out, f.sid)
    ensures PipeStep(Pipe(DataOf(out, id), HasEof(out, id), read), Pipe(DataOf(out + [f], id), HasEof(out + [f], id), read))
  {
    Push(out, f, id);
  }

  lemma LastAppended(c: Conn)
    requires EndInv(c) && c.out != []
    ensures var n := |c.out| - 1;
            c.out[n].ftype == DATA ==> c.out[n].payload != [] && !HasEof(c.out[..n], c.out[n].sid)
  {
    hide EndInv;
    NextFits(c, |c.out| - 1);
  }

  lemma WritingEnd(c: Conn, c': Conn, id: u32, read: seq<byte>)
    requires EndInv(c') && Appends(c.out, c'.out)
    ensures PipeStep(Pipe(DataOf(c.out, id), HasEof(c.out, id), read), Pipe(DataOf(c'.out, id), HasEof(c'.out, id), read))
  {
    hide EndInv, PipeStep;
    if c'.out != c.out {
      LastAppended(c');
      assert c'.out[..|c.out|] == c.out;
      WriteStep(c.out, c'.out[|c.out|], id, read);
    } else {
      SameStep(Pipe(DataOf(c.out, id), HasEof(c.out, id), read));
    }
  }

  lemma SameStep(p: Pipe)
    ensures PipeStep(p, p)
  {
  }

  // -- the reading end

  /** Bytes taken grow only by a read, at its stream. */
  ghost predicate Reads(c: Conn, c': Conn) {
    && |c.objs| <= |c'.objs|
    && (forall h | 0 <= h < |c.objs| ::
          && c'.objs[h].id == c.objs[h].id
          && (c'.objs[h].hist.taken == c.objs[h].hist.taken
              || exists i :: c'.objs[h].hist.taken == c.objs[h].hist.taken + [i] && SmallItem(i, c.cfg)))
    && (forall h | |c.objs| <= h < |c'.objs| :: c'.objs[h].hist.taken == [])
  }

  lemma ReadingEnd(c: Conn, c': Conn, id: u32, written: seq<byte>, ended: bool)
    requires Unique(c.objs) && Unique(c'.objs) && Reads(c, c')
    requires forall h | 0 <= h < |c'.objs| && c'.objs[h].id == id :: Bytes(c'.objs[h].hist.taken) <= written
    ensures PipeStep(Pipe(written, ended, ReadBy(c.objs, id)), Pipe(written, ended, ReadBy(c'.objs, id)))
  {
    if h :| 0 <= h < |c.objs| && c.objs[h].id == id {
      ReadAt(c.objs, h);
      ReadAt(c'.objs, h);
      if c'.objs[h].hist.taken != c.objs[h].hist.taken {
        var i :| c'.objs[h].hist.taken == c.objs[h].hist.taken + [i] && SmallItem(i, c.cfg);
        QueuePush(c.objs[h].hist.taken, i);
      }
    } else {
      ReadNone(c.objs, id);
      if h :| 0 <= h < |c'.objs| && c'.objs[h].id == id {
        assert h >= |c.objs|;
        ReadAt(c'.objs, h);
      } else {
        ReadNone(c'.objs, id);
      }
    }
  }

  lemma HeadIsSmall(c: Conn, h: nat)
    requires Inv(c) && h < |c.objs| && c.objs[h].incoming != []
    ensures SmallItem(c.objs[h].incoming[0], c.cfg)
  {
    hide Inv, CountInv, LaneInv, SenderInv, LedgerInv;
    StreamAt(c, h);
  }

  predicate NoOldReads(c: Conn, c': Conn) {
    |c.objs| <= |c'.objs| && forall h | |c.objs| <= h < |c'.objs| :: c'.objs[h].hist.taken == []
  }

  lemma FrameNew(c: Conn, f: Frame, ok: bool)
    ensures NoOldReads(c, Dispatch(c, f, ok))
  {
    hide ClosedOff, Arrived, Grant, FeedEof, Breach, CloseLocal, Ignore, SendReset, Feed;
    BookkeepingShape(c, f.sid);
    if StreamFrame(f.ftype) && f.sid != 0 && Registered(c, f.sid) {
      var h := c.reg[f.sid];
      CloseShape(c, h, LaneReset);
      BookkeepingShape(CloseLocal(c, h, LaneReset), f.sid);
      FeedShape(c, h, f.payload, ok);
    }
  }

  lemma OpenNew(c: Conn)
    requires !c.cfg.responder
    ensures NoOldReads(c, OpenStream(c))
  {
    hide CloseLocal, ClosedOff;
    if !OpenRefused(c) {
      var c1 := Create(c, c.nextId).(nextId := c.nextId + 1);
      CloseShape(c1, |c.objs|, LaneEof);
      ClosedOffAdvances(c1.objs[|c.objs|], LaneEof);
    }
  }

  lemma StepNew(c: Conn, e: Event)
    requires Inv(c) && Enabled(c, e)
    ensures NoOldReads(c, Step(c, e))
  {
    hide Inv, OpenStream, Dispatch, Decode, NoOldReads, Moves, Stays, Finish, SendLoop, SendEof, Read, Ack, CloseLocal, ResetStream, FlushReset, Goaway, DrainLoop;
    if e.OpenE? { OpenNew(c); }
    else if e.Recv? { RecvNew(c, e.m, e.reserveOk); }
    else if e.RunEnd? { FinishNew(c, e.hs); }
    else if Subject(e).Some? {
      SubjectMoves(c, e);
      var f :| Moves(c, Step(c, e), Subject(e).value, f);
      MovesContinues(c, Step(c, e), Subject(e).value, f);
      SameCount(c, Step(c, e));
    } else {
      QuietStays(c, e);
      StaysContinues(c, Step(c, e));
      SameCount(c, Step(c, e));
    }
  }

  lemma SameCount(c: Conn, c': Conn)
    requires |c'.objs| == |c.objs|
    ensures NoOldReads(c, c')
  {
  }

  lemma RecvNew(c: Conn, m: Message, ok: bool)
    ensures NoOldReads(c, Receive(c, m, ok))
  {
    hide Dispatch, Decode, Ignore;
    BookkeepingShape(c, 0);
    if m.Binary? && Decode(m.bytes).Some? { FrameNew(c, Decode(m.bytes).value, ok); }
  }

  lemma FinishNew(c: Conn, hs: seq<nat>)
    requires Inv(c) && Enabled(c, RunEnd(hs))
    ensures NoOldReads(c, Finish(c, hs))
  {
    hide Inv, AbortEach;
    AbortEachKeeps(c, hs);
  }

  lemma StepReads(c: Conn, e: Event)
    requires Inv(c) && Enabled(c, e)
    ensures Reads(c, Step(c, e))
  {
    hide Inv, Step;
    StepNew(c, e);
    forall h | 0 <= h < |c.objs|
      ensures h < |Step(c, e).objs| && Step(c, e).objs[h].id == c.objs[h].id
      ensures Step(c, e).objs[h].hist.taken == c.objs[h].hist.taken
              || exists i :: Step(c, e).objs[h].hist.taken == c.objs[h].hist.taken + [i] && SmallItem(i, c.cfg)
    {
      StepAdvances(c, e, h);
      if e == ReadE(h) { HeadIsSmall(c, h); }
    }
  }

  // -- both ends

  lemma TakenWritten(y: Sys)
    requires SysInv(y)
    ensures forall h | 0 <= h < |y.b.objs| :: Bytes(y.b.objs[h].hist.taken) <= DataOf(y.a.out, y.b.objs[h].id)
    ensures forall h | 0 <= h < |y.a.objs| :: Bytes(y.a.objs[h].hist.taken) <= DataOf(y.b.out, y.a.objs[h].id)
    ensures Unique(y.a.objs) && Unique(y.b.objs)
  {
    hide Inv, LogInv, LossInv, LinkInv, Unique, NamesInv, OpenFirst, NoOpen, Queued;
    forall h | 0 <= h < |y.b.objs| ensures Bytes(y.b.objs[h].hist.taken) <= DataOf(y.a.out, y.b.objs[h].id) {
      HeardPrefix(y.b, h, y.a, y.toB);
    }
    forall h | 0 <= h < |y.a.objs| ensures Bytes(y.a.objs[h].hist.taken) <= DataOf(y.b.out, y.a.objs[h].id) {
      HeardPrefix(y.a, h, y.b, y.toA);
    }
  }

  lemma Ends(y: Sys)
    requires SysInv(y)
    ensures EndInv(y.a) && EndInv(y.b) && Inv(y.a) && Inv(y.b)
  {
    hide Inv, LogInv, LossInv, LinkInv, Unique, NamesInv, OpenFirst, NoOpen;
  }

  lemma FrameSilent(c: Conn, f: Frame, ok: bool)
    ensures Dispatch(c, f, ok).out == c.out
  {
    hide ClosedOff, Arrived, Grant, FeedEof, Breach, CloseLocal, Ignore, SendReset, Feed;
    BookkeepingShape(c, f.sid);
    if Registered(c, f.sid) {
      var h := c.reg[f.sid];
      CloseShape(c, h, LaneReset);
      BookkeepingShape(CloseLocal(c, h, LaneReset), f.sid);
      FeedShape(c, h, f.payload, ok);
    }
  }

  /** The frame reader never sends. */
  lemma RecvSilent(c: Conn, m: Message, ok: bool)
    ensures Receive(c, m, ok).out == c.out
  {
    hide Dispatch, Decode, Ignore;
    BookkeepingShape(c, 0);
    if m.Binary? && Decode(m.bytes).Some? { FrameSilent(c, Decode(m.bytes).value, ok); }
  }

  ghost predicate EndStepped(c: Conn, c': Conn) { Appends(c.out, c'.out) && Reads(c, c') }

  lemma TaskStepped(c: Conn, e: Event)
    requires EndInv(c) && Enabled(c, e) && !e.Recv?
    ensures EndStepped(c, Step(c, e))
  {
    hide Unique, LogInv, LossInv, Inv, Step, Reads, Appends;
    StepAppends(c, e);
    StepReads(c, e);
  }

  lemma DeliveryStepped(c: Conn, m: Message, ok: bool)
    requires EndInv(c) && c.phase == Running
    ensures EndStepped(c, Receive(c, m, ok))
  {
    hide Unique, LogInv, LossInv, Inv, Receive, Reads;
    RecvSilent(c, m, ok);
    StepReads(c, Recv(m, ok));
  }

  /** Any step changes only one end. */
  lemma AtOneEnd(y: Sys, ev: SysEvent)
    requires SysInv(y) && SysEnabled(y, ev)
    ensures var y' := SysStep(y, ev);
            (y'.b == y.b && EndStepped(y.a, y'.a)) || (y'.a == y.a && EndStepped(y.b, y'.b))
  {
    hide SysInv, Step, Enabled, Receive, EndStepped, EndInv, Inv;
    Ends(y);
    match ev
    case AtA(e) => TaskStepped(y.a, e);
    case AtB(e) => TaskStepped(y.b, e);
    case ToA(ok) => DeliveryStepped(y.a, Binary(Encode(y.b.out[y.toA])), ok);
    case ToB(ok) => DeliveryStepped(y.b, Binary(Encode(y.a.out[y.toB])), ok);
  }

  /** `c` steps to `c'` and its peer `d` stays: the pipe it writes to and the pipe it reads. */
  lemma EndPipes(c: Conn, c': Conn, d: Conn, id: u32)
    requires EndInv(c') && Unique(c.objs) && Unique(c'.objs)
    requires EndStepped(c, c')
    requires forall h | 0 <= h < |c'.objs| :: Bytes(c'.objs[h].hist.taken) <= DataOf(d.out, c'.objs[h].id)
    ensures PipeStep(Pipe(DataOf(c.out, id), HasEof(c.out, id), ReadBy(d.objs, id)),
                     Pipe(DataOf(c'.out, id), HasEof(c'.out, id), ReadBy(d.objs, id)))
    ensures PipeStep(Pipe(DataOf(d.out, id), HasEof(d.out, id), ReadBy(c.objs, id)),
                     Pipe(DataOf(d.out, id), HasEof(d.out, id), ReadBy(c'.objs, id)))
  {
    hide EndInv, PipeStep, Reads, Appends, Unique, Bytes;
    WritingEnd(c, c', id, ReadBy(d.objs, id));
    ReadingEnd(c, c', id, DataOf(d.out, id), HasEof(d.out, id));
  }

  /** The refinement: on every stream, in both directions, a step of the system is a step of a
      pipe, or leaves the pipe as it was. */
  lemma StepRefinesPipes(y: Sys, ev: SysEvent, id: u32)
    requires Reachable(y) && SysEnabled(y, ev)
    ensures PipeStep(Forth(y, id), Forth(SysStep(y, ev), id))
    ensures PipeStep(Back(y, id), Back(SysStep(y, ev), id))
  {
    hide Reachable, SysInv, SysStep, SysEnabled, EndInv, PipeStep, EndStepped, Unique, Bytes;
    ReachableInv(y);
    SysStepKeeps(y, ev);
    var y' := SysStep(y, ev);
    TakenWritten(y);
    TakenWritten(y');
    Ends(y');
    AtOneEnd(y, ev);
    if y'.b == y.b && EndStepped(y.a, y'.a) {
      EndPipes(y.a, y'.a, y.b, id);
    } else {
      EndPipes(y.b, y'.b, y.a, id);
    }
  }
}
