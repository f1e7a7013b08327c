/** What every reachable state of the two ends promises: credit is conserved, each stream is a
    FIFO byte pipe, a clean end is a complete one, and a blocked sender can be unblocked. */
module Guarantees {
  import opened Wire
  import opened MuxSpec
  import opened MuxInvariant
  import opened Channel
  import opened Effects
  import opened Endpoints
  import opened StreamLife

  // -- credit conservation

  /** The initiator's stream with the id of the responder's stream `h`. */
  function Peer(y: Sys, h: nat): nat
    requires h < |y.b.objs| && y.b.objs[h].id >= 1
  {
    y.b.objs[h].id - 1
  }

  /** Where a sender's window went: left, in flight, queued, with the pump, waiting for the
      batch, or on its way back. */
  function CreditAccounted(s: Stream, inFlight: seq<Frame>, r: Stream, returning: seq<Frame>): int {
    s.window + |DataOf(inFlight, s.id)| + |Bytes(r.incoming)| + r.hist.held + r.unacked + CreditOf(returning, s.id)
  }

  /** Credit lost for good: a frame the dead link refused, or bytes dropped by a reset lane. */
  function CreditLost(s: Stream, r: Stream): nat {
    s.hist.unsent + r.hist.dropped + r.hist.uncredited
  }

  lemma InFlight(log: seq<Frame>, n: nat, id: u32)
    requires n <= |log|
    ensures |DataOf(log[n..], id)| == |DataOf(log, id)| - |DataOf(log[..n], id)|
    ensures CreditOf(log[n..], id) == CreditOf(log, id) - CreditOf(log[..n], id)
  {
    assert log == log[..n] + log[n..];
    Split(log[..n], log[n..], id);
  }

  lemma OneWay(x: Conn, hx: nat, y: Conn, hy: nat, n: nat, m: nat)
    requires EndInv(x) && EndInv(y) && hx < |x.objs| && hy < |y.objs| && x.objs[hx].id == y.objs[hy].id
    requires n <= |x.out| && m <= |y.out|
    requires LinkInv(x.objs, y.out[..m]) && LinkInv(y.objs, x.out[..n])
    ensures var total := CreditAccounted(x.objs[hx], x.out[n..], y.objs[hy], y.out[m..]) + CreditLost(x.objs[hx], y.objs[hy]);
            && total <= x.cfg.window
            && (!x.objs[hx].closed && !y.objs[hy].closed ==> total == x.cfg.window)
  {
    hide EndInv, LinkInv;
    SendSide(x, hx, y.out[..m]);
    ReceiveSide(y, hy, x.out[..n]);
    InFlight(x.out, n, x.objs[hx].id);
    InFlight(y.out, m, x.objs[hx].id);
  }

  lemma Paired(y: Sys, h: nat)
    requires SysInv(y) && h < |y.b.objs|
    ensures 1 <= y.b.objs[h].id <= |y.a.objs| && y.a.objs[y.b.objs[h].id - 1].id == y.b.objs[h].id
    ensures EndInv(y.a) && EndInv(y.b)
    ensures LinkInv(y.a.objs, y.b.out[..y.toA]) && LinkInv(y.b.objs, y.a.out[..y.toB])
    ensures y.toB <= |y.a.out| && y.toA <= |y.b.out| && y.a.cfg.window == y.b.cfg.window
  {
    hide Unique, LogInv, LossInv, LinkInv, Inv, OpenFirst, NoOpen;
    OpenIds(y.a);
  }

  /** Flow-control credit is neither made nor lost: for every stream known to both ends and in
      both directions, what is accounted for and what is lost come to the negotiated window
      while both objects live, and to no more once one is gone. */
  lemma CreditConservation(y: Sys, h: nat)
    requires Reachable(y) && h < |y.b.objs|
    ensures 1 <= y.b.objs[h].id <= |y.a.objs| && y.toB <= |y.a.out| && y.toA <= |y.b.out|
    ensures var sa, sb, w := y.a.objs[Peer(y, h)], y.b.objs[h], y.a.cfg.window;
            var forth := CreditAccounted(sa, y.a.out[y.toB..], sb, y.b.out[y.toA..]) + CreditLost(sa, sb);
            var back := CreditAccounted(sb, y.b.out[y.toA..], sa, y.a.out[y.toB..]) + CreditLost(sb, sa);
            && forth <= w && back <= w
            && (!sa.closed && !sb.closed ==> forth == w && back == w)
  {
    hide Reachable, SysInv, EndInv, LinkInv, CreditAccounted, CreditLost;
    ReachableInv(y);
    Paired(y, h);
    OneWay(y.a, Peer(y, h), y.b, h, y.toB, y.toA);
    OneWay(y.b, h, y.a, Peer(y, h), y.toA, y.toB);
  }

  /** The other end has never had a stream of this id: its OPEN is still on the way, or was
      refused. */
  predicate Unknown(y: Sys, p: nat)
    requires p < |y.a.objs|
  {
    forall h | 0 <= h < |y.b.objs| :: y.b.objs[h].id != y.a.objs[p].id
  }

  /** The OPEN of this id has been sent and has not arrived. */
  predicate Announced(y: Sys, id: u32) {
    exists i | y.toB <= i < |y.a.out| :: y.a.out[i].ftype == OPEN && y.a.out[i].sid == id
  }

  /** Credit is conserved from the first byte: of a stream the other end does not know, nothing
      has been returned, and what is left, in flight, thrown away there, or refused by the dead
      link comes to the window. While the OPEN is in flight nothing can have been thrown away. */
  lemma CreditBeforeOpen(y: Sys, p: nat)
    requires Reachable(y) && p < |y.a.objs| && Unknown(y, p)
    ensures y.toB <= |y.a.out| && y.toA <= |y.b.out|
    ensures var s, id := y.a.objs[p], y.a.objs[p].id;
            && s.window + |DataOf(y.a.out[y.toB..], id)| + |DataOf(y.a.out[..y.toB], id)| + s.hist.unsent == y.a.cfg.window
            && CreditOf(y.b.out, id) == 0 && DataOf(y.b.out, id) == []
            && (Announced(y, id) ==>
                  && DataOf(y.a.out[..y.toB], id) == []
                  && s.window + |DataOf(y.a.out[y.toB..], id)| + s.hist.unsent == y.a.cfg.window)
  {
    hide Reachable, Inv, Unique, LinkInv, LossInv, NamesInv, NoOpen;
    ReachableInv(y);
    var id := y.a.objs[p].id;
    SendSide(y.a, p, y.b.out[..y.toA]);
    SilentHere(y.b, id);
    Delivered(y.b.out, y.toA, id);
    InFlight(y.a.out, y.toB, id);
    if Announced(y, id) {
      var i :| y.toB <= i < |y.a.out| && y.a.out[i].ftype == OPEN && y.a.out[i].sid == id;
      forall j | 0 <= j < y.toB ensures y.a.out[..y.toB][j].sid != id { assert y.a.out[j].sid != y.a.out[i].sid; }
      Silent(y.a.out[..y.toB], id);
    }
  }

  lemma LossesNamed(c: Conn, h: nat, log: seq<Frame>)
    requires EndInv(c) && LinkInv(c.objs, log) && h < |c.objs| && !c.objs[h].closed && c.wsOpen
    ensures c.objs[h].hist.unsent == 0
    ensures c.objs[h].recv != LaneReset ==> c.objs[h].hist.uncredited == 0 && c.objs[h].hist.dropped == 0
  {
    assert LossOk(c.objs[h], c.wsOpen);
    assert HeardOf(c.objs[h], log);
    StreamAt(c, h);
    hide Inv, Unique, LogInv, LossInv, LinkInv, QueueInv, CountInv, SenderInv, LedgerInv, Bytes;
  }

  /** With both links up, only a stream that a backstop has already reset can lose credit. */
  lemma NothingLost(y: Sys, h: nat)
    requires Reachable(y) && h < |y.b.objs| && y.a.wsOpen && y.b.wsOpen
    requires 1 <= y.b.objs[h].id <= |y.a.objs|
    requires !y.a.objs[Peer(y, h)].closed && !y.b.objs[h].closed
    ensures y.b.objs[h].recv != LaneReset ==> CreditLost(y.a.objs[Peer(y, h)], y.b.objs[h]) == 0
    ensures y.a.objs[Peer(y, h)].recv != LaneReset ==> CreditLost(y.b.objs[h], y.a.objs[Peer(y, h)]) == 0
  {
    hide Reachable, SysInv, EndInv, LinkInv;
    ReachableInv(y);
    Paired(y, h);
    LossesNamed(y.a, Peer(y, h), y.b.out[..y.toA]);
    LossesNamed(y.b, h, y.a.out[..y.toB]);
  }

  // -- no deadlock

  predicate Settled(r: Stream) { Bytes(r.incoming) == [] && r.hist.held == 0 }

  lemma Batched(c: Conn, h: nat)
    requires EndInv(c) && h < |c.objs|
    ensures var w := c.cfg.window; w >= 1 && c.objs[h].unacked < if w < 2 then 1 else w / 2
    ensures c.objs[h].sender.Parked? && !c.objs[h].waiter ==> c.objs[h].window == 0
  {
    hide Unique, LogInv, LossInv, StreamInv;
    StreamAt(c, h);
    ConfigValid(c);
    hide QueueInv, CountInv, LaneInv;
    BatchedStream(c.objs[h], c.cfg);
  }

  lemma BatchedStream(s: Stream, cfg: Config)
    requires StreamInv(s, cfg)
    ensures s.unacked < cfg.Threshold()
    ensures s.sender.Parked? && !s.waiter ==> s.window == 0
  {
    hide QueueInv, CountInv, LaneInv;
  }

  lemma QuietCredit(log: seq<Frame>, id: u32)
    requires log == []
    ensures DataOf(log, id) == [] && CreditOf(log, id) == 0
  {
  }

  /** Returning credit half a window at a time never starves a sender: with nothing in flight
      and everything read acked, less than half of the window is held back, and at least one byte
      is there whatever the window. */
  lemma HalfWindowReturned(y: Sys, h: nat)
    requires Reachable(y) && h < |y.b.objs| && 1 <= y.b.objs[h].id <= |y.a.objs|
    requires y.a.wsOpen && y.b.wsOpen && y.toA == |y.b.out| && y.toB == |y.a.out|
    requires !y.a.objs[Peer(y, h)].closed && !y.b.objs[h].closed
    ensures var sa, sb, w := y.a.objs[Peer(y, h)], y.b.objs[h], y.a.cfg.window;
            var half := if w < 2 then 1 else w / 2;
            && w - (half - 1) >= 1
            && (Settled(sb) && sb.recv != LaneReset ==> sa.window >= w - (half - 1))
            && (Settled(sa) && sa.recv != LaneReset ==> sb.window >= w - (half - 1))
  {
    hide Reachable, SysInv, EndInv, LinkInv;
    ReachableInv(y);
    Paired(y, h);
    CreditConservation(y, h);
    NothingLost(y, h);
    Batched(y.a, Peer(y, h));
    Batched(y.b, h);
    QuietCredit(y.a.out[y.toB..], y.b.objs[h].id);
    QuietCredit(y.b.out[y.toA..], y.b.objs[h].id);
  }

  /** A step of the sender itself, a delivery, or a step of the consumer pump. */
  predicate Helps(y: Sys, ev: SysEvent, wake: SysEvent, read: SysEvent, ack: SysEvent) {
    SysEnabled(y, ev) && (ev == wake || ev == read || ev == ack || ev == ToA(true) || ev == ToB(true))
  }

  /** No deadlock and no lost wakeup: while both links are up and both objects live, a sender
      parked for credit, in either direction, always has a step that can be taken on its
      behalf. */
  lemma ParkedSenderCanMove(y: Sys, h: nat)
    requires Reachable(y) && h < |y.b.objs| && 1 <= y.b.objs[h].id <= |y.a.objs|
    requires y.a.wsOpen && y.b.wsOpen && y.a.phase == Running && y.b.phase == Running
    requires !y.a.objs[Peer(y, h)].closed && !y.b.objs[h].closed
    ensures y.a.objs[Peer(y, h)].sender.Parked? && y.b.objs[h].recv != LaneReset ==>
              exists ev :: Helps(y, ev, AtA(WakeE(Peer(y, h))), AtB(ReadE(h)), AtB(AckE(h)))
    ensures y.b.objs[h].sender.Parked? && y.a.objs[Peer(y, h)].recv != LaneReset ==>
              exists ev :: Helps(y, ev, AtB(WakeE(h)), AtA(ReadE(Peer(y, h))), AtA(AckE(Peer(y, h))))
  {
    hide Reachable, SysInv, EndInv, LinkInv;
    ReachableInv(y);
    Paired(y, h);
    var p := Peer(y, h);
    var sa, sb := y.a.objs[p], y.b.objs[h];
    if y.toA < |y.b.out| {
      assert Helps(y, ToA(true), AtA(WakeE(p)), AtB(ReadE(h)), AtB(AckE(h)));
      assert Helps(y, ToA(true), AtB(WakeE(h)), AtA(ReadE(p)), AtA(AckE(p)));
    } else if y.toB < |y.a.out| {
      assert Helps(y, ToB(true), AtA(WakeE(p)), AtB(ReadE(h)), AtB(AckE(h)));
      assert Helps(y, ToB(true), AtB(WakeE(h)), AtA(ReadE(p)), AtA(AckE(p)));
    } else {
      HalfWindowReturned(y, h);
      Batched(y.a, p);
      Batched(y.b, h);
      if sa.sender.Parked? && sb.recv != LaneReset {
        var ev := if sb.hist.held > 0 then AtB(AckE(h)) else if sb.incoming != [] then AtB(ReadE(h)) else AtA(WakeE(p));
        assert Helps(y, ev, AtA(WakeE(p)), AtB(ReadE(h)), AtB(AckE(h)));
      }
      if sb.sender.Parked? && sa.recv != LaneReset {
        var ev := if sa.hist.held > 0 then AtA(AckE(p)) else if sa.incoming != [] then AtA(ReadE(p)) else AtB(WakeE(h));
        assert Helps(y, ev, AtB(WakeE(h)), AtA(ReadE(p)), AtA(AckE(p)));
      }
    }
  }

  // -- byte pipes

  lemma HeardPrefix(c: Conn, h: nat, x: Conn, n: nat)
    requires EndInv(c) && EndInv(x) && h < |c.objs| && n <= |x.out| && LinkInv(c.objs, x.out[..n])
    ensures var s := c.objs[h];
            && Bytes(s.hist.taken) <= DataOf(x.out, s.id)
            && (s.hist.peerEof ==> Bytes(Queued(s)) == DataOf(x.out, s.id))
            && (s.hist.peerEof && s.hist.signal != NoSignal ==> s.hist.signal == Fin && Bytes(s.hist.taken) == DataOf(x.out, s.id))
            && (s.hist.signal == Fin && !s.closed ==> s.hist.peerEof)
  {
    var s := c.objs[h];
    var id := s.id;
    StreamAt(c, h);
    assert HeardOf(s, x.out[..n]);
    assert EofLast(x.out);
    hide Inv, Unique, LogInv, LossInv, LinkInv, CountInv, SenderInv, LedgerInv, EofLast;
    Delivered(x.out, n, id);
    QueueConcat(s.hist.taken, s.incoming);
    if s.hist.peerEof { EofFreezes(x.out, n, id); }
    if s.hist.signal != NoSignal { EndIsLast(s.hist.taken, s.incoming, s.recv, s.hist.signal, c.cfg); }
  }

  lemma EndIsLast(taken: seq<Item>, incoming: seq<Item>, recv: Lane, signal: Signal, cfg: Config)
    requires QueueInv(taken, incoming, recv, signal, cfg) && signal != NoSignal
    ensures incoming == []
  {
    var q := taken + incoming;
    assert q[|taken|-1] == End;
  }

  /** Each direction of each stream is a FIFO byte pipe. What the consumer has read is a gap-free
      prefix of what the peer put in DATA frames; if the direction ended because of the peer's
      EOF and the consumer has been told, it has read all of it, and was told FIN. While the
      stream is not torn down locally, FIN means just that. */
  lemma StreamsArePipes(y: Sys, h: nat)
    requires Reachable(y) && h < |y.b.objs|
    ensures 1 <= y.b.objs[h].id <= |y.a.objs|
    ensures PipeEnd(y.b.objs[h], y.a.objs[Peer(y, h)]) && PipeEnd(y.a.objs[Peer(y, h)], y.b.objs[h])
  {
    hide Reachable, SysInv, EndInv, LinkInv;
    ReachableInv(y);
    Paired(y, h);
    HeardPrefix(y.b, h, y.a, y.toB);
    HeardPrefix(y.a, Peer(y, h), y.b, y.toA);
    SentIs(y.a, Peer(y, h));
    SentIs(y.b, h);
  }

  lemma SentIs(c: Conn, h: nat)
    requires EndInv(c) && h < |c.objs|
    ensures c.objs[h].hist.sent == DataOf(c.out, c.objs[h].id)
  {
    assert SaidBy(c.objs[h], c.out);
    hide Inv, Unique, LossInv;
  }

  /** `r` receives what `s` sends. */
  predicate PipeEnd(r: Stream, s: Stream) {
    && Bytes(r.hist.taken) <= s.hist.sent
    && (r.hist.peerEof && r.hist.signal != NoSignal ==> r.hist.signal == Fin && Bytes(r.hist.taken) == s.hist.sent)
    && (r.hist.signal == Fin && !r.closed ==> r.hist.peerEof)
  }
}
