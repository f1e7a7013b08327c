/** Two ends of one connection over two FIFO channels. The initiator is `a`. Of what each end
    has sent, the other has received a prefix; either link may die at any step, and what was
    not delivered then never is. */
module Endpoints {
  import opened Wire
  import opened MuxSpec
  import opened MuxInvariant
  import opened Channel
  import opened Effects
  import opened Receiving

  datatype Sys = Sys(a: Conn, b: Conn, toB: nat, toA: nat)

  datatype SysEvent = AtA(e: Event) | AtB(e: Event) | ToA(reserveOk: bool) | ToB(reserveOk: bool)

  function SysInit(window: int, maxA: nat, maxB: nat): Sys {
    Sys(Init(Config(window, maxA, false)), Init(Config(window, maxB, true)), 0, 0)
  }

  predicate SysEnabled(y: Sys, ev: SysEvent) {
    match ev
    case AtA(e) => !e.Recv? && Enabled(y.a, e)
    case AtB(e) => !e.Recv? && Enabled(y.b, e)
    case ToA(_) => y.toA < |y.b.out| && y.a.phase == Running
    case ToB(_) => y.toB < |y.a.out| && y.b.phase == Running
  }

  function SysStep(y: Sys, ev: SysEvent): Sys
    requires SysEnabled(y, ev)
  {
    match ev
    case AtA(e) => y.(a := Step(y.a, e))
    case AtB(e) => y.(b := Step(y.b, e))
    case ToA(ok) => y.(a := Receive(y.a, Binary(Encode(y.b.out[y.toA])), ok), toA := y.toA + 1)
    case ToB(ok) => y.(b := Receive(y.b, Binary(Encode(y.a.out[y.toB])), ok), toB := y.toB + 1)
  }

  function SysRun(y: Sys, es: seq<SysEvent>): Option<Sys>
    decreases |es|
  {
    if es == [] then Some(y)
    else if SysEnabled(y, es[0]) then SysRun(SysStep(y, es[0]), es[1..])
    else None
  }

  // -- the invariant

  predicate EndInv(c: Conn) {
    Inv(c) && Unique(c.objs) && LogInv(c.objs, c.out) && LossInv(c.objs, c.wsOpen)
  }

  predicate NoOpen(log: seq<Frame>) { forall i | 0 <= i < |log| :: log[i].ftype != OPEN }

  predicate Opened(log: seq<Frame>, id: u32) {
    exists i | 0 <= i < |log| :: log[i].ftype == OPEN && log[i].sid == id
  }

  /** The responder has a stream only where the initiator opened one. */
  predicate NamesInv(y: Sys) {
    y.toB <= |y.a.out| &&
    forall h | 0 <= h < |y.b.objs| :: 1 <= y.b.objs[h].id <= |y.a.objs| && Opened(y.a.out[..y.toB], y.b.objs[h].id)
  }

  predicate SysInv(y: Sys) {
    && EndInv(y.a) && EndInv(y.b)
    && !y.a.cfg.responder && y.b.cfg.responder && y.a.cfg.window == y.b.cfg.window
    && y.toB <= |y.a.out| && y.toA <= |y.b.out|
    && OpenFirst(y.a.out) && NoOpen(y.b.out)
    && NamesInv(y)
    && LinkInv(y.a.objs, y.b.out[..y.toA]) && LinkInv(y.b.objs, y.a.out[..y.toB])
  }

  // -- steps at one end

  predicate Continues(c: Conn, c': Conn) {
    && c'.cfg == c.cfg
    && |c'.objs| == |c.objs| && (forall h | 0 <= h < |c.objs| :: c'.objs[h].id == c.objs[h].id)
    && c.out <= c'.out
    && (forall i | |c.out| <= i < |c'.out| :: c'.out[i].ftype != OPEN)
  }

  lemma MovesContinues(c: Conn, c': Conn, h: nat, f: Option<Frame>)
    requires Moves(c, c', h, f)
    ensures Continues(c, c')
    ensures LossInv(c.objs, c.wsOpen) ==> LossInv(c'.objs, c'.wsOpen)
  {
    hide LossOk;
  }

  lemma StaysContinues(c: Conn, c': Conn)
    requires Stays(c, c')
    ensures Continues(c, c')
    ensures LossInv(c.objs, c.wsOpen) ==> LossInv(c'.objs, c'.wsOpen)
  {
  }

  lemma SubjectStep(c: Conn, e: Event, log: seq<Frame>)
    requires EndInv(c) && LinkInv(c.objs, log) && Enabled(c, e) && Subject(e).Some?
    ensures EndInv(Step(c, e)) && LinkInv(Step(c, e).objs, log) && Continues(c, Step(c, e))
  {
    hide Inv, Moves, Unique, LogInv, LossInv, LinkInv, Step, Enabled, Continues;
    var c' := Step(c, e);
    StepKeeps(c, e);
    SubjectMoves(c, e);
    var f :| Moves(c, c', Subject(e).value, f);
    MovesKeepsLog(c, c', Subject(e).value, f);
    MovesKeepsLink(c, c', Subject(e).value, f, log);
    MovesContinues(c, c', Subject(e).value, f);
  }

  predicate ConnEvent(e: Event) {
    e.FlushResetE? || e.GoawayE? || e.DrainE? || e.DrainWakeE? || e.DrainTimeoutE? || e.LinkDown?
  }

  lemma ConnStep(c: Conn, e: Event, log: seq<Frame>)
    requires EndInv(c) && LinkInv(c.objs, log) && Enabled(c, e) && ConnEvent(e)
    ensures EndInv(Step(c, e)) && LinkInv(Step(c, e).objs, log) && Continues(c, Step(c, e))
  {
    hide Inv, Unique, LogInv, LossInv, LinkInv, Step, Enabled, Continues;
    StepKeeps(c, e);
    QuietStays(c, e);
    StaysKeepsLog(c, Step(c, e));
    StaysContinues(c, Step(c, e));
  }

  lemma {:induction false} AbortStep(c: Conn, hs: seq<nat>, log: seq<Frame>)
    requires Unique(c.objs) && LogInv(c.objs, c.out) && LossInv(c.objs, c.wsOpen) && LinkInv(c.objs, log)
    requires Below(hs, |c.objs|)
    ensures var c' := AbortEach(c, hs);
            && Unique(c'.objs) && LogInv(c'.objs, c'.out) && LossInv(c'.objs, c'.wsOpen) && LinkInv(c'.objs, log)
            && Continues(c, c') && c'.out == c.out
    decreases |hs|
  {
    hide Moves, Unique, LogInv, LossInv, LinkInv, CloseLocal;
    if hs != [] {
      var c1 := CloseLocal(c, hs[0], LaneReset);
      CloseMoves(c, hs[0], LaneReset);
      MovesKeepsLog(c, c1, hs[0], None);
      MovesKeepsLink(c, c1, hs[0], None, log);
      MovesContinues(c, c1, hs[0], None);
      MovesSilent(c, c1, hs[0]);
      AbortStep(c1, hs[1..], log);
    }
  }

  lemma MovesSilent(c: Conn, c': Conn, h: nat)
    requires Moves(c, c', h, None)
    ensures c'.out == c.out
  {
  }

  lemma EndStep(c: Conn, hs: seq<nat>, log: seq<Frame>)
    requires EndInv(c) && LinkInv(c.objs, log) && Enabled(c, RunEnd(hs))
    ensures EndInv(Finish(c, hs)) && LinkInv(Finish(c, hs).objs, log) && Continues(c, Finish(c, hs))
  {
    hide Inv, Unique, LogInv, LossInv, LinkInv, AbortEach;
    FinishKeeps(c, hs);
    AbortStep(c, hs, log);
  }

  lemma LocalStep(c: Conn, e: Event, log: seq<Frame>)
    requires EndInv(c) && LinkInv(c.objs, log) && Enabled(c, e) && !e.Recv? && !e.OpenE?
    ensures EndInv(Step(c, e)) && LinkInv(Step(c, e).objs, log) && Continues(c, Step(c, e))
  {
    hide EndInv, LinkInv, Continues, Finish;
    if Subject(e).Some? { SubjectStep(c, e, log); }
    else if e.RunEnd? { EndStep(c, e.hs, log); }
    else { ConnStep(c, e, log); }
  }

  // -- opening

  lemma SilentHere(c: Conn, id: u32)
    requires LogInv(c.objs, c.out) && forall h | 0 <= h < |c.objs| :: c.objs[h].id != id
    ensures DataOf(c.out, id) == [] && CreditOf(c.out, id) == 0 && !HasEof(c.out, id)
  {
    hide SaidBy;
    Silent(c.out, id);
  }

  lemma NewSaid(id: u32, window: int, out: seq<Frame>, log: seq<Frame>)
    requires DataOf(out, id) == [] && CreditOf(out, id) == 0 && !HasEof(out, id)
    requires DataOf(log, id) == [] && CreditOf(log, id) == 0
    ensures SaidBy(NewStream(id, window), out) && HeardOf(NewStream(id, window), log)
    ensures forall open :: LossOk(NewStream(id, window), open)
  {
    assert Queued(NewStream(id, window)) == [];
  }

  /** Adding a stream whose id nobody has used. */
  lemma AddStream(c: Conn, c': Conn, id: u32, log: seq<Frame>)
    requires Unique(c.objs) && LogInv(c.objs, c.out) && LossInv(c.objs, c.wsOpen) && LinkInv(c.objs, log)
    requires forall h | 0 <= h < |c.objs| :: c.objs[h].id != id
    requires DataOf(log, id) == [] && CreditOf(log, id) == 0
    requires c'.objs == c.objs + [NewStream(id, c.cfg.window)] && c'.out == c.out && c'.wsOpen == c.wsOpen
    ensures Unique(c'.objs) && LogInv(c'.objs, c'.out) && LossInv(c'.objs, c'.wsOpen) && LinkInv(c'.objs, log)
  {
    hide SaidBy, HeardOf, LossOk;
    SilentHere(c, id);
    NewSaid(id, c.cfg.window, c.out, log);
    SpokenMore(c.objs, c.out, NewStream(id, c.cfg.window));
  }

  lemma SpokenMore(objs: seq<Stream>, out: seq<Frame>, s: Stream)
    requires Spoken(objs, out)
    ensures Spoken(objs + [s], out)
  {
    forall i | 0 <= i < |out| && Speaks(out[i].ftype)
      ensures exists h | 0 <= h < |objs + [s]| :: (objs + [s])[h].id == out[i].sid
    {
      var h :| 0 <= h < |objs| && objs[h].id == out[i].sid;
      assert (objs + [s])[h].id == out[i].sid;
    }
  }

  lemma OpenIds(c: Conn)
    requires Inv(c) && !c.cfg.responder
    ensures c.nextId == |c.objs| + 1
    ensures forall h | 0 <= h < |c.objs| :: c.objs[h].id == h + 1
    ensures forall i | 0 <= i < |c.out| :: c.out[i].sid < c.nextId
  {
    hide RegInv, AccountInv, StreamsInv;
  }

  lemma AnnounceStep(c: Conn, log: seq<Frame>)
    requires EndInv(c) && !c.cfg.responder && !OpenRefused(c)
    requires LinkInv(c.objs, log) && DataOf(log, c.nextId) == [] && CreditOf(log, c.nextId) == 0
    ensures var c' := Allocate(c);
            Unique(c'.objs) && LogInv(c'.objs, c'.out) && LossInv(c'.objs, c'.wsOpen) && LinkInv(c'.objs, log)
  {
    hide Inv, Unique, LogInv, LossInv, LinkInv;
    OpenIds(c);
    AddStream(c, Allocate(c), c.nextId, log);
  }

  lemma OpenFrameSaid(objs: seq<Stream>, out: seq<Frame>, id: u32)
    requires LogInv(objs, out)
    ensures LogInv(objs, out + [Frame(OPEN, id, [])])
  {
    forall h | 0 <= h < |objs| ensures SaidBy(objs[h], out + [Frame(OPEN, id, [])]) {
      PushOther(out, Frame(OPEN, id, []), objs[h]);
    }
  }

  lemma OpenStep(c: Conn, log: seq<Frame>)
    requires EndInv(c) && !c.cfg.responder
    requires LinkInv(c.objs, log) && (c.nextId <= 0xFFFF_FFFF ==> DataOf(log, c.nextId) == [] && CreditOf(log, c.nextId) == 0)
    ensures EndInv(OpenStream(c)) && LinkInv(OpenStream(c).objs, log)
  {
    hide Inv, Unique, LogInv, LossInv, LinkInv, CloseLocal, Moves, Create;
    OpenKeeps(c);
    if !OpenRefused(c) {
      AnnounceStep(c, log);
      var c1 := Allocate(c);
      if c.wsOpen {
        OpenFrameSaid(c1.objs, c1.out, c.nextId);
        CreateSameLink(c, c.nextId);
      } else {
        CreateSameLink(c, c.nextId);
        CloseMoves(c1, |c.objs|, LaneEof);
        MovesKeepsLog(c1, OpenStream(c), |c.objs|, None);
        MovesKeepsLink(c1, OpenStream(c), |c.objs|, None, log);
        MovesContinues(c1, OpenStream(c), |c.objs|, None);
      }
    }
  }

  lemma CreateSameLink(c: Conn, id: u32)
    ensures Create(c, id).wsOpen == c.wsOpen && Create(c, id).out == c.out && |Create(c, id).objs| == |c.objs| + 1
    ensures Create(c, id).cfg == c.cfg
    ensures forall h | 0 <= h < |c.objs| :: Create(c, id).objs[h] == c.objs[h]
  {
  }

  /** Opening adds at most one id and one OPEN frame, which names it. */
  lemma OpenShape(c: Conn)
    requires Inv(c) && !c.cfg.responder
    ensures var c' := OpenStream(c);
            && c'.cfg == c.cfg && |c.objs| <= |c'.objs|
            && (c'.out == c.out || (c.nextId <= 0xFFFF_FFFF && c'.out == c.out + [Frame(OPEN, c.nextId, [])]))
            && (forall h | 0 <= h < |c.objs| :: c'.objs[h].id == c.objs[h].id)
  {
    hide Inv, Moves, CloseLocal, Create;
    if !OpenRefused(c) {
      CreateSameLink(c, c.nextId);
      CloseMoves(Allocate(c), |c.objs|, LaneEof);
      MovesContinues(Allocate(c), CloseLocal(Allocate(c), |c.objs|, LaneEof), |c.objs|, None);
      MovesSilent(Allocate(c), CloseLocal(Allocate(c), |c.objs|, LaneEof), |c.objs|);
    }
  }

  // -- bounds that cross the two ends

  /** A sender's credit and what it has sent come to the window and the credit it has had. */
  lemma SendSide(c: Conn, h: nat, log: seq<Frame>)
    requires EndInv(c) && LinkInv(c.objs, log) && h < |c.objs|
    ensures var s := c.objs[h];
            && 0 <= s.window
            && s.window + |DataOf(c.out, s.id)| + s.hist.unsent == c.cfg.window + s.hist.granted
            && s.hist.granted <= CreditOf(log, s.id)
            && (!s.closed ==> s.hist.granted == CreditOf(log, s.id))
  {
    StreamAt(c, h);
    assert SaidBy(c.objs[h], c.out);
    assert HeardOf(c.objs[h], log);
    hide Inv, QueueInv, CountInv, LaneInv, Unique, LinkInv, LossInv;
  }

  /** A receiver's queue, its pump, and the credit it has returned come to what has arrived. */
  lemma ReceiveSide(c: Conn, h: nat, log: seq<Frame>)
    requires EndInv(c) && LinkInv(c.objs, log) && h < |c.objs|
    ensures var s := c.objs[h];
            && |Bytes(s.incoming)| + s.hist.held + s.unacked + CreditOf(c.out, s.id) + s.hist.uncredited + s.hist.dropped
               <= |DataOf(log, s.id)|
            && (!s.closed ==>
                 |Bytes(s.incoming)| + s.hist.held + s.unacked + CreditOf(c.out, s.id) + s.hist.uncredited + s.hist.dropped
                 == |DataOf(log, s.id)|)
  {
    var s := c.objs[h];
    StreamAt(c, h);
    assert SaidBy(s, c.out);
    assert HeardOf(s, log);
    hide Inv, QueueInv, CountInv, LaneInv, SenderInv, Unique, LinkInv, LossInv;
    QueueConcat(s.hist.taken, s.incoming);
  }

  /** Credit is returned only for data received. */
  lemma Earned(c: Conn, id: u32, log: seq<Frame>)
    requires EndInv(c) && LinkInv(c.objs, log)
    ensures CreditOf(c.out, id) <= |DataOf(log, id)|
  {
    hide Inv, LinkInv, LossInv, Unique, LogInv;
    if h :| 0 <= h < |c.objs| && c.objs[h].id == id {
      ReceiveSide(c, h, log);
    } else {
      SilentHere(c, id);
    }
  }

  /** The next credit frame cannot carry a window past its initial size. */
  lemma CreditCap(x: Conn, h: nat, y: Conn, n: nat, m: nat)
    requires EndInv(x) && EndInv(y) && h < |x.objs| && n < |y.out| && m <= |x.out|
    requires LinkInv(x.objs, y.out[..n]) && LinkInv(y.objs, x.out[..m])
    requires !x.objs[h].closed
    ensures x.objs[h].window + FrameCredit(y.out[n], x.objs[h].id) <= x.cfg.window
  {
    hide EndInv, LinkInv;
    var id := x.objs[h].id;
    SendSide(x, h, y.out[..n]);
    Earned(y, id, x.out[..m]);
    Delivered(x.out, m, id);
    Next(y.out, n, id);
    Delivered(y.out, n + 1, id);
  }

  // -- deliveries

  lemma NextFits(x: Conn, n: nat)
    requires EndInv(x) && n < |x.out|
    ensures FrameFits(x.out[n])
    ensures x.out[n].ftype == DATA ==> !HasEof(x.out[..n], x.out[n].sid)
    ensures !x.cfg.responder ==> x.out[n].sid < x.nextId
  {
    hide RegInv, AccountInv, StreamsInv, Unique, LossInv;
  }

  lemma FreshOpen(log: seq<Frame>, n: nat)
    requires OpenFirst(log) && n < |log| && log[n].ftype == OPEN
    ensures DataOf(log[..n], log[n].sid) == [] && CreditOf(log[..n], log[n].sid) == 0 && !Opened(log[..n], log[n].sid)
  {
    Silent(log[..n], log[n].sid);
  }

  lemma NextAcceptable(x: Conn, y: Conn, n: nat, m: nat)
    requires EndInv(x) && EndInv(y) && n < |y.out| && m <= |x.out|
    requires LinkInv(x.objs, y.out[..n]) && LinkInv(y.objs, x.out[..m])
    requires OpenFirst(y.out)
    requires x.cfg.responder ==> forall h | 0 <= h < |x.objs| :: Opened(y.out[..n], x.objs[h].id)
    ensures Acceptable(x, y.out[n], y.out[..n])
  {
    hide Inv, Unique, LogInv, LossInv, LinkInv;
    var f := y.out[n];
    ConfigValid(x);
    NextFits(y, n);
    if f.ftype == OPEN && x.cfg.responder {
      FreshOpen(y.out, n);
      SilentHere(x, f.sid);
    }
    forall h | f.ftype == WINDOW_UPDATE && 0 <= h < |x.objs| && x.objs[h].id == f.sid && !x.objs[h].closed
      ensures x.objs[h].window + FrameCredit(f, f.sid) <= MAX_SEND_WINDOW
    {
      CreditCap(x, h, y, n, m);
    }
  }

  lemma HeardSaid(c: Conn, c': Conn, h: nat, f: Frame, log: seq<Frame>)
    requires LogInv(c.objs, c.out) && Heard(c, c', f, log) && h < |c.objs|
    ensures SaidBy(c'.objs[h], c'.out)
  {
    assert SaidBy(c.objs[h], c.out);
    hide HeardOf, LossOk, LogInv;
  }

  lemma HeardNew(c: Conn, c': Conn, f: Frame, log: seq<Frame>)
    requires Acceptable(c, f, log) && Heard(c, c', f, log) && |c'.objs| > |c.objs|
    ensures f.ftype == OPEN && c.cfg.responder
    ensures |c'.objs| == |c.objs| + 1 && c'.objs[|c.objs|] == NewStream(f.sid, c.cfg.window)
    ensures SaidBy(c'.objs[|c.objs|], c'.out) && HeardOf(c'.objs[|c.objs|], log + [f])
    ensures forall open :: LossOk(c'.objs[|c.objs|], open)
    ensures forall h | 0 <= h < |c.objs| :: c.objs[h].id != f.sid
  {
    assert Queued(NewStream(f.sid, c.cfg.window)) == [];
    NewHeard(c, f, log);
    hide HeardOf;
  }

  lemma HeardSpoken(c: Conn, c': Conn, f: Frame, log: seq<Frame>)
    requires LogInv(c.objs, c.out) && Heard(c, c', f, log)
    ensures Spoken(c'.objs, c'.out) && EofLast(c'.out)
  {
    hide HeardOf, LossOk, SaidBy;
    forall i | 0 <= i < |c'.out| && Speaks(c'.out[i].ftype)
      ensures exists h | 0 <= h < |c'.objs| :: c'.objs[h].id == c'.out[i].sid
    {
      var h :| 0 <= h < |c.objs| && c.objs[h].id == c.out[i].sid;
      assert c'.objs[h].id == c'.out[i].sid;
    }
  }

  lemma HeardKeeps(c: Conn, c': Conn, f: Frame, log: seq<Frame>)
    requires EndInv(c) && Inv(c') && LinkInv(c.objs, log) && Acceptable(c, f, log) && Heard(c, c', f, log)
    ensures EndInv(c') && LinkInv(c'.objs, log + [f])
  {
    hide Inv, HeardOf, LossOk, SaidBy, Acceptable;
    HeardSpoken(c, c', f, log);
    if |c'.objs| > |c.objs| { HeardNew(c, c', f, log); }
    forall h | 0 <= h < |c'.objs|
      ensures SaidBy(c'.objs[h], c'.out) && LossOk(c'.objs[h], c'.wsOpen) && HeardOf(c'.objs[h], log + [f])
    {
      if h < |c.objs| {
        HeardSaid(c, c', h, f, log);
        LossDown(c'.objs[h], c.wsOpen, c'.wsOpen);
      }
    }
  }

  lemma LossDown(s: Stream, was: bool, now: bool)
    requires LossOk(s, was) && (now ==> was)
    ensures LossOk(s, now)
  {
  }

  lemma HeardIds(c: Conn, c': Conn, f: Frame, log: seq<Frame>)
    requires Heard(c, c', f, log)
    ensures c'.cfg == c.cfg && c'.out == c.out
    ensures forall h | 0 <= h < |c.objs| :: h < |c'.objs| && c'.objs[h].id == c.objs[h].id
    ensures forall h | |c.objs| <= h < |c'.objs| :: c'.objs[h].id == f.sid
    ensures |c'.objs| > |c.objs| ==> f.ftype == OPEN && c.cfg.responder
    ensures |c'.objs| >= |c.objs| && (!c.cfg.responder ==> |c'.objs| == |c.objs|)
  {
    hide HeardOf, LossOk;
  }

  /** Receiving the next frame keeps everything. */
  lemma DeliverStep(x: Conn, y: Conn, n: nat, m: nat, ok: bool)
    requires EndInv(x) && EndInv(y) && n < |y.out| && m <= |x.out| && x.phase == Running
    requires LinkInv(x.objs, y.out[..n]) && LinkInv(y.objs, x.out[..m])
    requires OpenFirst(y.out) && (!x.cfg.responder ==> NoOpen(y.out))
    requires x.cfg.responder ==> forall h | 0 <= h < |x.objs| :: Opened(y.out[..n], x.objs[h].id)
    ensures var x' := Receive(x, Binary(Encode(y.out[n])), ok);
            && EndInv(x') && LinkInv(x'.objs, y.out[..n+1])
            && x'.cfg == x.cfg && x'.out == x.out && |x'.objs| >= |x.objs|
            && (!x.cfg.responder ==> |x'.objs| == |x.objs|)
            && (forall h | 0 <= h < |x.objs| :: x'.objs[h].id == x.objs[h].id)
            && (forall h | |x.objs| <= h < |x'.objs| :: x'.objs[h].id == y.out[n].sid && y.out[n].ftype == OPEN)
  {
    hide Inv, Unique, LogInv, LossInv, LinkInv, Acceptable, Heard, Dispatch, OpenFirst, Opened;
    var f := y.out[n];
    DecodeEncode(f);
    NextAcceptable(x, y, n, m);
    DispatchKeeps(x, f, ok);
    DispatchHeard(x, f, ok, y.out[..n]);
    HeardKeeps(x, Dispatch(x, f, ok), f, y.out[..n]);
    var d := Dispatch(x, f, ok);
    HeardIds(x, d, f, y.out[..n]);
    assert |d.objs| > |x.objs| ==> d.objs[|x.objs|].id == f.sid && f.ftype == OPEN;
    assert y.out[..n+1] == y.out[..n] + [f];
  }

  // -- the whole system

  lemma PrefixSame(a: seq<Frame>, b: seq<Frame>, n: nat)
    requires a <= b && n <= |a|
    ensures b[..n] == a[..n]
  {
  }

  lemma MoreOpenFirst(log: seq<Frame>, more: seq<Frame>)
    requires OpenFirst(log) && log <= more && forall i | |log| <= i < |more| :: more[i].ftype != OPEN
    ensures OpenFirst(more)
  {
  }

  lemma NamesKept(y: Sys, y': Sys)
    requires NamesInv(y) && y'.toB == y.toB && y.a.out <= y'.a.out
    requires |y'.a.objs| >= |y.a.objs| && |y'.b.objs| == |y.b.objs|
    requires forall h | 0 <= h < |y.b.objs| :: y'.b.objs[h].id == y.b.objs[h].id
    ensures NamesInv(y')
  {
    PrefixSame(y.a.out, y'.a.out, y.toB);
  }

  lemma AtAKeeps(y: Sys, e: Event)
    requires SysInv(y) && SysEnabled(y, AtA(e)) && !e.OpenE?
    ensures SysInv(SysStep(y, AtA(e)))
  {
    hide EndInv, LinkInv, OpenFirst, NamesInv, Step, Enabled, NoOpen;
    var y' := SysStep(y, AtA(e));
    LocalStep(y.a, e, y.b.out[..y.toA]);
    PrefixSame(y.a.out, y'.a.out, y.toB);
    MoreOpenFirst(y.a.out, y'.a.out);
    NamesKept(y, y');
  }

  lemma NobodyAnswers(y: Sys, id: u32)
    requires SysInv(y) && id == |y.a.objs| + 1
    ensures DataOf(y.b.out[..y.toA], id) == [] && CreditOf(y.b.out[..y.toA], id) == 0
  {
    hide Inv, LinkInv, LogInv, LossInv, Unique;
    assert forall h | 0 <= h < |y.b.objs| :: y.b.objs[h].id != id;
    SilentHere(y.b, id);
    Delivered(y.b.out, y.toA, id);
  }

  lemma OpenOrder(log: seq<Frame>, id: u32)
    requires OpenFirst(log) && forall i | 0 <= i < |log| :: log[i].sid < id
    ensures OpenFirst(log + [Frame(OPEN, id, [])])
  {
  }

  lemma EndIsInv(c: Conn)
    requires EndInv(c)
    ensures Inv(c)
  {
  }

  lemma OpenKeepsSystem(y: Sys)
    requires SysInv(y) && SysEnabled(y, AtA(OpenE))
    ensures SysInv(SysStep(y, AtA(OpenE)))
  {
    hide EndInv, LinkInv, OpenFirst, NamesInv, OpenStream, NoOpen;
    var y' := SysStep(y, AtA(OpenE));
    EndIsInv(y.a);
    OpenIds(y.a);
    if y.a.nextId <= 0xFFFF_FFFF { NobodyAnswers(y, y.a.nextId); }
    OpenStep(y.a, y.b.out[..y.toA]);
    OpenShape(y.a);
    PrefixSame(y.a.out, y'.a.out, y.toB);
    if y'.a.out != y.a.out { OpenOrder(y.a.out, y.a.nextId); }
    NamesKept(y, y');
  }

  lemma AtBKeeps(y: Sys, e: Event)
    requires SysInv(y) && SysEnabled(y, AtB(e))
    ensures SysInv(SysStep(y, AtB(e)))
  {
    hide EndInv, LinkInv, OpenFirst, NamesInv, Step;
    var y' := SysStep(y, AtB(e));
    LocalStep(y.b, e, y.a.out[..y.toB]);
    PrefixSame(y.b.out, y'.b.out, y.toA);
    NamesKept(y, y');
  }

  lemma NoOpenIsFirst(log: seq<Frame>)
    requires NoOpen(log)
    ensures OpenFirst(log)
  {
  }

  lemma ToAKeeps(y: Sys, ok: bool)
    requires SysInv(y) && SysEnabled(y, ToA(ok))
    ensures SysInv(SysStep(y, ToA(ok)))
  {
    hide EndInv, LinkInv, OpenFirst, NamesInv, Receive, NoOpen, Opened;
    var y' := SysStep(y, ToA(ok));
    NoOpenIsFirst(y.b.out);
    DeliverStep(y.a, y.b, y.toA, y.toB, ok);
    NamesKept(y, y');
  }

  lemma StillOpened(log: seq<Frame>, n: nat, id: u32)
    requires n < |log| && (Opened(log[..n], id) || (log[n].ftype == OPEN && log[n].sid == id))
    ensures Opened(log[..n+1], id)
  {
    if Opened(log[..n], id) {
      var i :| 0 <= i < n && log[..n][i].ftype == OPEN && log[..n][i].sid == id;
      assert log[..n+1][i] == log[..n][i];
    } else {
      assert log[..n+1][n] == log[n];
    }
  }

  lemma ToBKeeps(y: Sys, ok: bool)
    requires SysInv(y) && SysEnabled(y, ToB(ok))
    ensures SysInv(SysStep(y, ToB(ok)))
  {
    hide EndInv, LinkInv, OpenFirst, Receive, NoOpen, Opened;
    var y' := SysStep(y, ToB(ok));
    DeliverStep(y.b, y.a, y.toB, y.toA, ok);
    EndIsInv(y.a);
    OpenIds(y.a);
    NextFits(y.a, y.toB);
    forall h | 0 <= h < |y'.b.objs|
      ensures 1 <= y'.b.objs[h].id <= |y'.a.objs| && Opened(y'.a.out[..y'.toB], y'.b.objs[h].id)
    {
      StillOpened(y.a.out, y.toB, y'.b.objs[h].id);
    }
  }

  /** Every step of either end and every delivery keeps the system invariant. */
  lemma SysStepKeeps(y: Sys, ev: SysEvent)
    requires SysInv(y) && SysEnabled(y, ev)
    ensures SysInv(SysStep(y, ev))
  {
    hide SysInv, SysStep;
    match ev
    case AtA(e) => if e.OpenE? { OpenKeepsSystem(y); } else { AtAKeeps(y, e); }
    case AtB(e) => AtBKeeps(y, e);
    case ToA(ok) => ToAKeeps(y, ok);
    case ToB(ok) => ToBKeeps(y, ok);
  }

  lemma {:induction false} SysRunKeeps(y: Sys, es: seq<SysEvent>)
    requires SysInv(y) && SysRun(y, es).Some?
    ensures SysInv(SysRun(y, es).value)
    decreases |es|
  {
    hide SysInv, SysStep, SysEnabled;
    if es != [] {
      SysStepKeeps(y, es[0]);
      SysRunKeeps(SysStep(y, es[0]), es[1..]);
    }
  }

  lemma SysInitInv(window: int, maxA: nat, maxB: nat)
    requires 1 <= window <= MAX_FLOW_WINDOW
    ensures SysInv(SysInit(window, maxA, maxB))
  {
    InitInv(Config(window, maxA, false));
    InitInv(Config(window, maxB, true));
    hide Inv;
  }

  /** A state some run of the two ends leads to, on some negotiated window. */
  ghost predicate Reachable(y: Sys) {
    exists window: int, maxA: nat, maxB: nat, es: seq<SysEvent> ::
      1 <= window <= MAX_FLOW_WINDOW && SysRun(SysInit(window, maxA, maxB), es) == Some(y)
  }

  lemma ReachableInv(y: Sys)
    requires Reachable(y)
    ensures SysInv(y)
  {
    hide SysInv, SysRun, SysInit;
    var window: int, maxA: nat, maxB: nat, es: seq<SysEvent> :|
      1 <= window <= MAX_FLOW_WINDOW && SysRun(SysInit(window, maxA, maxB), es) == Some(y);
    SysInitInv(window, maxA, maxB);
    SysRunKeeps(SysInit(window, maxA, maxB), es);
  }

  lemma {:induction false} RunOn(y: Sys, es: seq<SysEvent>, more: seq<SysEvent>)
    requires SysRun(y, es).Some?
    ensures SysRun(y, es + more) == SysRun(SysRun(y, es).value, more)
    decreases |es|
  {
    hide SysStep, SysEnabled;
    if es == [] {
      assert es + more == more;
    } else {
      assert (es + more)[1..] == es[1..] + more;
      RunOn(SysStep(y, es[0]), es[1..], more);
    }
  }

  lemma RunOne(y: Sys, e: SysEvent)
    requires SysEnabled(y, e)
    ensures SysRun(y, [e]) == Some(SysStep(y, e))
  {
    hide SysStep, SysEnabled;
    assert [e][1..] == [];
    assert SysRun(SysStep(y, e), []) == Some(SysStep(y, e));
  }

  lemma ReachableStep(y: Sys, ev: SysEvent)
    requires Reachable(y) && SysEnabled(y, ev)
    ensures Reachable(SysStep(y, ev))
  {
    hide SysRun, SysStep, SysEnabled, SysInit;
    var window: int, maxA: nat, maxB: nat, es: seq<SysEvent> :|
      1 <= window <= MAX_FLOW_WINDOW && SysRun(SysInit(window, maxA, maxB), es) == Some(y);
    RunOn(SysInit(window, maxA, maxB), es, [ev]);
    RunOne(y, ev);
  }
}
