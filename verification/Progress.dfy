/** A parked sender is woken by deliveries and by its peer's consumer alone: the work they have
    left shrinks with every step, and when there is none the credit is back. */
module Progress {
  import opened Wire
  import opened MuxSpec
  import opened MuxInvariant
  import opened Channel
  import opened Effects
  import opened Receiving
  import opened Endpoints
  import opened StreamLife
  import opened Guarantees
  import opened Pipes

  // -- the work left for one receiving stream

  /** Delivering a credit frame queues nothing; delivering any other queues at most one item. */
  function Weight(f: Frame): nat { if f.ftype == WINDOW_UPDATE then 1 else 4 }

  function Load(log: seq<Frame>): nat { if log == [] then 0 else Load(log[..|log| - 1]) + Weight(log[|log| - 1]) }

  lemma {:induction false} LoadSplit(a: seq<Frame>, b: seq<Frame>)
    ensures Load(a + b) == Load(a) + Load(b)
  {
    if b == [] {
      assert a + b == a;
    } else {
      assert (a + b)[..|a + b| - 1] == a + b[..|b| - 1];
      LoadSplit(a, b[..|b| - 1]);
    }
  }

  lemma LoadNext(log: seq<Frame>, n: nat)
    requires n < |log|
    ensures Load(log[n..]) == Weight(log[n]) + Load(log[n + 1..])
  {
    assert log[n..] == [log[n]] + log[n + 1..];
    LoadSplit([log[n]], log[n + 1..]);
    assert [log[n]] == [] + [log[n]];
    LoadSplit([], [log[n]]);
    assert Load([log[n]]) == Weight(log[n]);
  }

  lemma LoadMore(log: seq<Frame>, n: nat, f: Frame)
    requires n <= |log|
    ensures Load((log + [f])[n..]) == Load(log[n..]) + Weight(f)
  {
    assert (log + [f])[n..] == log[n..] + [f];
    LoadSplit(log[n..], [f]);
    assert [f] == [] + [f];
    LoadSplit([], [f]);
  }

  function Undone(s: Stream): nat { 3 * |s.incoming| + if s.hist.held > 0 then 2 else 0 }

  /** Frames not delivered, either way, and what the consumer of `s` has to do. */
  function Work(y: Sys, s: Stream): nat
    requires y.toB <= |y.a.out| && y.toA <= |y.b.out|
  {
    Load(y.a.out[y.toB..]) + Load(y.b.out[y.toA..]) + Undone(s)
  }

  // -- what a delivery adds

  predicate Grown(s: Stream, s': Stream, n: nat) { |s'.incoming| <= |s.incoming| + n && s'.hist.held == s.hist.held }

  lemma StreamGrows(s: Stream, data: seq<byte>, breach: bool, lane: Lane, delta: nat)
    ensures Grown(s, Arrived(s, data, breach), 1) && Grown(s, ClosedOff(s, lane), 1) && Grown(s, FeedEof(s), 1)
    ensures Grown(s, Grant(s, delta), 0) && Grown(s, s, 0)
  {
  }

  lemma EofGrows(c: Conn, f: Frame)
    requires Registered(c, f.sid) && f.payload == []
    ensures var h := c.reg[f.sid]; h < |DispatchEof(c, f).objs| && Grown(c.objs[h], DispatchEof(c, f).objs[h], 1)
  {
    hide FeedEof, CloseLocal, SendReset;
    StreamGrows(c.objs[c.reg[f.sid]], [], false, LaneEof, 0);
  }

  lemma CreditGrows(c: Conn, f: Frame)
    requires Registered(c, f.sid) && |f.payload| == 4 && Unpack32(f.payload) > 0
    ensures var h := c.reg[f.sid]; h < |DispatchCredit(c, f).objs| && Grown(c.objs[h], DispatchCredit(c, f).objs[h], 0)
  {
    hide Grant, CloseLocal, SendReset, Ignore, Unpack32;
    StreamGrows(c.objs[c.reg[f.sid]], [], false, LaneEof, Unpack32(f.payload));
  }

  lemma FrameGrows(c: Conn, f: Frame, ok: bool, k: nat)
    requires k < |c.objs| && FrameFits(f)
    ensures k < |Dispatch(c, f, ok).objs|
    ensures Grown(c.objs[k], Dispatch(c, f, ok).objs[k], if f.ftype == WINDOW_UPDATE then 0 else 1)
  {
    hide Breach, CloseLocal, Ignore, SendReset, Feed, Unpack32, Arrived, ClosedOff, DispatchEof, DispatchCredit;
    FrameIsolated(c, f, ok);
    StreamGrows(c.objs[k], f.payload, false, LaneReset, 0);
    if StreamFrame(f.ftype) && f.sid != 0 && Registered(c, f.sid) && k == c.reg[f.sid] {
      CloseShape(c, k, LaneReset);
      FeedShape(c, k, f.payload, ok);
      StreamGrows(c.objs[k], f.payload, Breach(c, k, |f.payload|, ok), LaneReset, 0);
      if f.ftype == EOF { EofGrows(c, f); }
      if f.ftype == WINDOW_UPDATE { CreditGrows(c, f); }
    }
  }

  /** A delivery to `c`: nothing is sent, and the frame weighs more than what it queues. */
  lemma DeliveryWork(c: Conn, f: Frame, ok: bool, k: nat)
    requires k < |c.objs| && FrameFits(f)
    ensures var d := Receive(c, Binary(Encode(f)), ok);
            k < |d.objs| && d.out == c.out && Undone(d.objs[k]) < Undone(c.objs[k]) + Weight(f)
  {
    hide Dispatch, FrameFits;
    DecodeEncode(f);
    FrameGrows(c, f, ok, k);
    FrameSilent(c, f, ok);
  }

  lemma ReadWork(c: Conn, h: nat)
    requires Enabled(c, ReadE(h))
    ensures var d := Step(c, ReadE(h)); h < |d.objs| && d.out == c.out && Undone(d.objs[h]) < Undone(c.objs[h])
  {
  }

  lemma AckWork(c: Conn, h: nat)
    requires Enabled(c, AckE(h))
    ensures var d := Step(c, AckE(h));
            && h < |d.objs| && Undone(d.objs[h]) + 2 == Undone(c.objs[h])
            && (d.out == c.out || exists f: Frame :: d.out == c.out + [f] && Weight(f) == 1)
  {
    hide Pack32;
    var s := c.objs[h];
    if AckSends(s, c.cfg) && s.unacked + s.hist.held < 0x1_0000_0000 && c.wsOpen {
      var f := Frame(WINDOW_UPDATE, s.id, Pack32(s.unacked + s.hist.held));
      assert Step(c, AckE(h)).out == c.out + [f] && Weight(f) == 1;
    }
  }

  lemma ConsumerWork(c: Conn, e: Event, n: nat)
    requires Enabled(c, e) && (e.ReadE? || e.AckE?) && n <= |c.out|
    ensures var d := Step(c, e);
            && e.h < |d.objs| && |c.out| <= |d.out|
            && Load(d.out[n..]) + Undone(d.objs[e.h]) < Load(c.out[n..]) + Undone(c.objs[e.h])
  {
    hide Undone, Load, Step, Enabled;
    if e.ReadE? {
      ReadWork(c, e.h);
    } else {
      AckWork(c, e.h);
      var d := Step(c, e);
      if d.out != c.out {
        var f: Frame :| d.out == c.out + [f] && Weight(f) == 1;
        LoadMore(c.out, n, f);
      }
    }
  }

  // -- the system

  /** Deliveries, and the consumer pump of the responder's stream `h`, or of the initiator's. */
  predicate Helpful(ev: SysEvent, read: SysEvent, ack: SysEvent) {
    ev == ToA(true) || ev == ToB(true) || ev == read || ev == ack
  }

  lemma NextFrameFits(y: Sys)
    requires SysInv(y)
    ensures y.toB <= |y.a.out| && y.toA <= |y.b.out|
    ensures y.toB < |y.a.out| ==> FrameFits(y.a.out[y.toB])
    ensures y.toA < |y.b.out| ==> FrameFits(y.b.out[y.toA])
  {
    hide EndInv, LinkInv, OpenFirst, NoOpen, NamesInv, FrameFits;
    if y.toB < |y.a.out| { NextFits(y.a, y.toB); }
    if y.toA < |y.b.out| { NextFits(y.b, y.toA); }
  }

  /** For a stream of the responder: any helpful step leaves less to do. */
  lemma LessToDoB(y: Sys, h: nat, ev: SysEvent)
    requires SysInv(y) && SysEnabled(y, ev) && h < |y.b.objs| && Helpful(ev, AtB(ReadE(h)), AtB(AckE(h)))
    ensures y.toB <= |y.a.out| && y.toA <= |y.b.out|
    ensures var z := SysStep(y, ev);
            && z.toB <= |z.a.out| && z.toA <= |z.b.out| && h < |z.b.objs|
            && Work(z, z.b.objs[h]) < Work(y, y.b.objs[h])
  {
    hide SysInv, Undone, Load, Step, Enabled, Receive, FrameFits, Weight;
    NextFrameFits(y);
    match ev
    case ToA(ok) =>
      LoadNext(y.b.out, y.toA);
      DeliverySilent(y.a, y.b.out[y.toA], ok);
      FrameWeighs(y.b.out[y.toA]);
    case ToB(ok) =>
      LoadNext(y.a.out, y.toB);
      DeliveryWork(y.b, y.a.out[y.toB], ok, h);
    case AtB(e) => ConsumerWork(y.b, e, y.toA);
    case _ =>
  }

  lemma FrameWeighs(f: Frame)
    ensures Weight(f) > 0
  {
  }

  lemma DeliverySilent(c: Conn, f: Frame, ok: bool)
    ensures Receive(c, Binary(Encode(f)), ok).out == c.out
  {
    hide Dispatch;
    RecvSilent(c, Binary(Encode(f)), ok);
  }

  /** The same for a stream of the initiator. */
  lemma LessToDoA(y: Sys, h: nat, ev: SysEvent)
    requires SysInv(y) && SysEnabled(y, ev) && h < |y.a.objs| && Helpful(ev, AtA(ReadE(h)), AtA(AckE(h)))
    ensures y.toB <= |y.a.out| && y.toA <= |y.b.out|
    ensures var z := SysStep(y, ev);
            && z.toB <= |z.a.out| && z.toA <= |z.b.out| && h < |z.a.objs|
            && Work(z, z.a.objs[h]) < Work(y, y.a.objs[h])
  {
    hide SysInv, Undone, Load, Step, Enabled, Receive, FrameFits, Weight;
    NextFrameFits(y);
    match ev
    case ToB(ok) =>
      LoadNext(y.a.out, y.toB);
      DeliverySilent(y.b, y.a.out[y.toB], ok);
      FrameWeighs(y.a.out[y.toB]);
    case ToA(ok) =>
      LoadNext(y.b.out, y.toA);
      DeliveryWork(y.a, y.b.out[y.toA], ok, h);
    case AtA(e) => ConsumerWork(y.a, e, y.toB);
    case _ =>
  }

  /** Both links and both objects of the responder's stream `h` are alive. */
  predicate Alive(y: Sys, h: nat) {
    && h < |y.b.objs| && 1 <= y.b.objs[h].id <= |y.a.objs|
    && y.a.wsOpen && y.b.wsOpen && y.a.phase == Running && y.b.phase == Running
    && !y.a.objs[Peer(y, h)].closed && !y.b.objs[h].closed
  }

  /** The initiator's sender waits for credit that the responder's consumer will return. */
  predicate WaitsForth(y: Sys, h: nat) {
    Alive(y, h) && y.a.objs[Peer(y, h)].sender.Parked? && y.b.objs[h].recv != LaneReset
  }

  predicate WaitsBack(y: Sys, h: nat) {
    Alive(y, h) && y.b.objs[h].sender.Parked? && y.a.objs[Peer(y, h)].recv != LaneReset
  }

  predicate AllHelpful(es: seq<SysEvent>, read: SysEvent, ack: SysEvent) {
    forall i | 0 <= i < |es| :: Helpful(es[i], read, ack)
  }

  /** A step that helps, other than waking: it exists while the wake is not enabled. */
  lemma HelpForth(y: Sys, h: nat) returns (ev: SysEvent)
    requires Reachable(y) && WaitsForth(y, h) && !SysEnabled(y, AtA(WakeE(Peer(y, h))))
    ensures SysEnabled(y, ev) && Helpful(ev, AtB(ReadE(h)), AtB(AckE(h)))
  {
    hide Reachable, SysEnabled;
    ParkedSenderCanMove(y, h);
    ev :| Helps(y, ev, AtA(WakeE(Peer(y, h))), AtB(ReadE(h)), AtB(AckE(h)));
  }

  lemma HelpBack(y: Sys, h: nat) returns (ev: SysEvent)
    requires Reachable(y) && WaitsBack(y, h) && !SysEnabled(y, AtB(WakeE(h)))
    ensures SysEnabled(y, ev) && Helpful(ev, AtA(ReadE(Peer(y, h))), AtA(AckE(Peer(y, h))))
  {
    hide Reachable, SysEnabled;
    ParkedSenderCanMove(y, h);
    ev :| Helps(y, ev, AtB(WakeE(h)), AtA(ReadE(Peer(y, h))), AtA(AckE(Peer(y, h))));
  }

  /** Streams keep their place and their id. */
  lemma SameIds(y: Sys, ev: SysEvent, h: nat)
    requires SysInv(y) && SysEnabled(y, ev) && h < |y.b.objs|
    ensures h < |SysStep(y, ev).b.objs| && SysStep(y, ev).b.objs[h].id == y.b.objs[h].id
    ensures |y.a.objs| <= |SysStep(y, ev).a.objs|
  {
    hide SysInv, SysStep, SysEnabled, EndInv, Appends;
    AtOneEnd(y, ev);
  }

  lemma Prepend(y: Sys, ev: SysEvent, es: seq<SysEvent>, z: Sys)
    requires SysEnabled(y, ev) && SysRun(SysStep(y, ev), es) == Some(z)
    ensures SysRun(y, [ev] + es) == Some(z)
  {
    hide SysStep, SysEnabled;
    assert ([ev] + es)[1..] == es;
  }

  /** A parked sender always gets its credit: from any reachable state, deliveries and the
      peer's consumer alone lead to one where it can be woken, or something has torn the stream
      or the connection down. */
  lemma {:induction false} WakesForth(y: Sys, h: nat, left: nat) returns (es: seq<SysEvent>, z: Sys)
    requires Reachable(y) && h < |y.b.objs| && y.b.objs[h].id >= 1
    requires y.toB <= |y.a.out| && y.toA <= |y.b.out| && left == Work(y, y.b.objs[h])
    ensures SysRun(y, es) == Some(z) && |es| <= left && AllHelpful(es, AtB(ReadE(h)), AtB(AckE(h)))
    ensures h < |z.b.objs| && z.b.objs[h].id == y.b.objs[h].id
    ensures WaitsForth(z, h) ==> SysEnabled(z, AtA(WakeE(Peer(z, h))))
    decreases left
  {
    hide Reachable, SysStep, SysInv, Work, Helpful, WaitsForth;
    if !WaitsForth(y, h) || SysEnabled(y, AtA(WakeE(Peer(y, h)))) {
      return [], y;
    }
    var ev := HelpForth(y, h);
    ReachableInv(y);
    ReachableStep(y, ev);
    LessToDoB(y, h, ev);
    SameIds(y, ev, h);
    var more;
    more, z := WakesForth(SysStep(y, ev), h, Work(SysStep(y, ev), SysStep(y, ev).b.objs[h]));
    es := [ev] + more;
    Prepend(y, ev, more, z);
  }

  lemma {:induction false} WakesBack(y: Sys, h: nat, left: nat) returns (es: seq<SysEvent>, z: Sys)
    requires Reachable(y) && h < |y.b.objs| && 1 <= y.b.objs[h].id <= |y.a.objs|
    requires y.toB <= |y.a.out| && y.toA <= |y.b.out| && left == Work(y, y.a.objs[Peer(y, h)])
    ensures SysRun(y, es) == Some(z) && |es| <= left
    ensures AllHelpful(es, AtA(ReadE(Peer(y, h))), AtA(AckE(Peer(y, h))))
    ensures h < |z.b.objs| && z.b.objs[h].id == y.b.objs[h].id
    ensures WaitsBack(z, h) ==> SysEnabled(z, AtB(WakeE(h)))
    decreases left
  {
    hide Reachable, SysStep, SysInv, Work, Helpful, WaitsBack;
    if !WaitsBack(y, h) || SysEnabled(y, AtB(WakeE(h))) {
      return [], y;
    }
    var ev := HelpBack(y, h);
    ReachableInv(y);
    ReachableStep(y, ev);
    LessToDoA(y, Peer(y, h), ev);
    SameIds(y, ev, h);
    var more;
    more, z := WakesBack(SysStep(y, ev), h, Work(SysStep(y, ev), SysStep(y, ev).a.objs[Peer(y, h)]));
    es := [ev] + more;
    Prepend(y, ev, more, z);
  }

  // -- every schedule

  lemma {:induction false} ShrinksForth(y: Sys, h: nat, es: seq<SysEvent>, z: Sys)
    requires Reachable(y) && SysRun(y, es) == Some(z) && h < |y.b.objs| && AllHelpful(es, AtB(ReadE(h)), AtB(AckE(h)))
    requires y.toB <= |y.a.out| && y.toA <= |y.b.out|
    ensures Reachable(z) && h < |z.b.objs| && z.b.objs[h].id == y.b.objs[h].id
    ensures z.toB <= |z.a.out| && z.toA <= |z.b.out|
    ensures |es| + Work(z, z.b.objs[h]) <= Work(y, y.b.objs[h])
    decreases |es|
  {
    hide Reachable, SysStep, SysEnabled, SysInv, Work, Helpful;
    if es != [] {
      ReachableInv(y);
      ReachableStep(y, es[0]);
      LessToDoB(y, h, es[0]);
      SameIds(y, es[0], h);
      TailHelpful(es, AtB(ReadE(h)), AtB(AckE(h)));
      ShrinksForth(SysStep(y, es[0]), h, es[1..], z);
    }
  }

  lemma TailHelpful(es: seq<SysEvent>, read: SysEvent, ack: SysEvent)
    requires es != [] && AllHelpful(es, read, ack)
    ensures Helpful(es[0], read, ack) && AllHelpful(es[1..], read, ack)
  {
    forall i | 0 <= i < |es[1..]| ensures Helpful(es[1..][i], read, ack) { assert es[1..][i] == es[i + 1]; }
  }

  /** No delivery is left, and the consumer has nothing to do. */
  predicate Exhausted(z: Sys, read: SysEvent, ack: SysEvent) {
    !SysEnabled(z, ToA(true)) && !SysEnabled(z, ToB(true)) && !SysEnabled(z, read) && !SysEnabled(z, ack)
  }

  /** Every schedule works: deliveries and the consumer's steps, in whatever order, come to an end
      within the work there was, and where they end the sender can be woken, or something has
      torn the stream or the connection down. */
  lemma EveryScheduleForth(y: Sys, h: nat, es: seq<SysEvent>, z: Sys)
    requires Reachable(y) && SysRun(y, es) == Some(z) && h < |y.b.objs| && y.b.objs[h].id >= 1
    requires AllHelpful(es, AtB(ReadE(h)), AtB(AckE(h)))
    ensures y.toB <= |y.a.out| && y.toA <= |y.b.out| && |es| <= Work(y, y.b.objs[h])
    ensures h < |z.b.objs| && z.b.objs[h].id == y.b.objs[h].id
    ensures Exhausted(z, AtB(ReadE(h)), AtB(AckE(h))) && WaitsForth(z, h) ==> SysEnabled(z, AtA(WakeE(Peer(z, h))))
  {
    hide Reachable, SysRun, SysInv, Work, AllHelpful, SysEnabled, WaitsForth;
    ReachableInv(y);
    NextFrameFits(y);
    ShrinksForth(y, h, es, z);
    if WaitsForth(z, h) && !SysEnabled(z, AtA(WakeE(Peer(z, h)))) {
      var ev := HelpForth(z, h);
      assert !Exhausted(z, AtB(ReadE(h)), AtB(AckE(h)));
    }
  }

  lemma {:induction false} ShrinksBack(y: Sys, h: nat, p: nat, es: seq<SysEvent>, z: Sys)
    requires Reachable(y) && SysRun(y, es) == Some(z) && h < |y.b.objs| && p < |y.a.objs|
    requires AllHelpful(es, AtA(ReadE(p)), AtA(AckE(p))) && y.toB <= |y.a.out| && y.toA <= |y.b.out|
    ensures Reachable(z) && h < |z.b.objs| && z.b.objs[h].id == y.b.objs[h].id && p < |z.a.objs|
    ensures z.toB <= |z.a.out| && z.toA <= |z.b.out|
    ensures |es| + Work(z, z.a.objs[p]) <= Work(y, y.a.objs[p])
    decreases |es|
  {
    hide Reachable, SysStep, SysEnabled, SysInv, Work, Helpful;
    if es != [] {
      ReachableInv(y);
      ReachableStep(y, es[0]);
      LessToDoA(y, p, es[0]);
      SameIds(y, es[0], h);
      TailHelpful(es, AtA(ReadE(p)), AtA(AckE(p)));
      ShrinksBack(SysStep(y, es[0]), h, p, es[1..], z);
    }
  }

  lemma EveryScheduleBack(y: Sys, h: nat, es: seq<SysEvent>, z: Sys)
    requires Reachable(y) && SysRun(y, es) == Some(z) && h < |y.b.objs| && 1 <= y.b.objs[h].id <= |y.a.objs|
    requires AllHelpful(es, AtA(ReadE(Peer(y, h))), AtA(AckE(Peer(y, h))))
    ensures y.toB <= |y.a.out| && y.toA <= |y.b.out| && |es| <= Work(y, y.a.objs[Peer(y, h)])
    ensures h < |z.b.objs| && z.b.objs[h].id == y.b.objs[h].id
    ensures Exhausted(z, AtA(ReadE(Peer(y, h))), AtA(AckE(Peer(y, h)))) && WaitsBack(z, h) ==> SysEnabled(z, AtB(WakeE(h)))
  {
    hide Reachable, SysRun, SysInv, Work, AllHelpful, SysEnabled, WaitsBack;
    ReachableInv(y);
    NextFrameFits(y);
    ShrinksBack(y, h, Peer(y, h), es, z);
    if WaitsBack(z, h) && !SysEnabled(z, AtB(WakeE(h))) {
      var ev := HelpBack(z, h);
      assert !Exhausted(z, AtA(ReadE(Peer(y, h))), AtA(AckE(Peer(y, h))));
    }
  }
}
