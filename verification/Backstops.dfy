/** When the receive backstops can fire against a peer that keeps the protocol: never the two of
    its own stream; never the two of the connection while the live streams' windows fit under
    the caps. */
module Backstops {
  import opened Wire
  import opened MuxSpec
  import opened MuxInvariant
  import opened Channel
  import opened Effects
  import opened Receiving
  import opened Endpoints
  import opened Guarantees

  lemma {:induction false} ChunksCost(q: seq<Item>, cfg: Config)
    requires forall i | 0 <= i < |q| :: SmallItem(q[i], cfg)
    ensures Chunks(q) <= |Bytes(q)|
  {
    if q != [] { ChunksCost(q[..|q|-1], cfg); }
  }

  lemma QueueCost(c: Conn, h: nat)
    requires Inv(c) && h < |c.objs| && !c.objs[h].closed
    ensures c.objs[h].recvBuffered == |Bytes(c.objs[h].incoming)|
    ensures 0 <= c.objs[h].recvFrames <= c.objs[h].recvBuffered
  {
    hide Inv, LaneInv, SenderInv, LedgerInv;
    StreamAt(c, h);
    ChunksCost(c.objs[h].incoming, c.cfg);
  }

  /** What is queued and what is still in flight for a live stream fit in one window. */
  lemma QueueBound(x: Conn, h: nat, y: Conn, n: nat, m: nat)
    requires EndInv(x) && EndInv(y) && h < |x.objs| && !x.objs[h].closed
    requires n <= |y.out| && m <= |x.out| && x.cfg.window == y.cfg.window
    requires LinkInv(x.objs, y.out[..n]) && LinkInv(y.objs, x.out[..m])
    ensures x.objs[h].recvBuffered + |DataOf(y.out, x.objs[h].id)| - |DataOf(y.out[..n], x.objs[h].id)| <= x.cfg.window
  {
    hide EndInv, LinkInv;
    var id := x.objs[h].id;
    EndIsInv(x);
    QueueCost(x, h);
    ReceiveSide(x, h, y.out[..n]);
    Delivered(x.out, m, id);
    Delivered(y.out, n, id);
    if k: int :| 0 <= k < |y.objs| && y.objs[k].id == id {
      SendSide(y, k, x.out[..m]);
    } else {
      NothingSaid(y, id);
    }
  }

  lemma NothingSaid(c: Conn, id: u32)
    requires EndInv(c) && forall h | 0 <= h < |c.objs| :: c.objs[h].id != id
    ensures DataOf(c.out, id) == []
  {
    hide Inv, Unique, LossInv;
    SilentHere(c, id);
  }

  // -- sums over the live streams

  function LiveIds(objs: seq<Stream>): set<u32> {
    set h | 0 <= h < |objs| && !objs[h].closed :: objs[h].id
  }

  lemma LivePush(objs: seq<Stream>, s: Stream)
    requires forall h | 0 <= h < |objs| :: objs[h].id != s.id
    ensures |LiveIds(objs + [s])| == |LiveIds(objs)| + if s.closed then 0 else 1
  {
    var more := objs + [s];
    forall id ensures id in LiveIds(more) <==> id in LiveIds(objs) || (!s.closed && id == s.id) {
      if id in LiveIds(objs) {
        var k :| 0 <= k < |objs| && !objs[k].closed && objs[k].id == id;
        assert more[k] == objs[k];
      }
      if !s.closed { assert more[|objs|] == s; }
    }
    assert LiveIds(more) == LiveIds(objs) + if s.closed then {} else {s.id};
  }

  lemma {:induction false} SumBound(objs: seq<Stream>, w: nat)
    requires Unique(objs)
    requires forall h | 0 <= h < |objs| :: objs[h].recvBuffered <= w && objs[h].recvFrames <= w
    requires forall h | 0 <= h < |objs| && objs[h].closed :: objs[h].recvBuffered == 0 && objs[h].recvFrames == 0
    ensures SumBuffered(objs) <= |LiveIds(objs)| * w && SumFrames(objs) <= |LiveIds(objs)| * w
  {
    hide LiveIds;
    if objs != [] {
      var n := |objs| - 1;
      SumBound(objs[..n], w);
      assert objs == objs[..n] + [objs[n]];
      LivePush(objs[..n], objs[n]);
      OneMore(|LiveIds(objs[..n])|, w);
    } else {
      OneMore(0, w);
    }
  }

  lemma OneMore(k: nat, w: nat)
    ensures (k + 1) * w == k * w + w && 0 <= k * w
  {
  }

  lemma LiveCount(c: Conn)
    requires Inv(c)
    ensures |LiveIds(c.objs)| == |c.reg|
  {
    hide StreamsInv, AccountInv, IdInv;
    assert LiveIds(c.objs) == c.reg.Keys;
  }

  /** Every live stream, and the one data is about to reach, within one window. */
  predicate WithinWindow(c: Conn, h: nat, n: nat) {
    && h < |c.objs|
    && (forall k | 0 <= k < |c.objs| && !c.objs[k].closed && k != h ::
          0 <= c.objs[k].recvFrames <= c.objs[k].recvBuffered <= c.cfg.window)
    && 0 <= c.objs[h].recvFrames <= c.objs[h].recvBuffered && c.objs[h].recvBuffered + n <= c.cfg.window
  }

  lemma ClosedEmpty(c: Conn, k: nat)
    requires Inv(c) && k < |c.objs| && c.objs[k].closed
    ensures c.objs[k].recvBuffered == 0 && c.objs[k].recvFrames == 0
  {
    hide Inv, QueueInv, LaneInv, SenderInv, LedgerInv;
    StreamAt(c, k);
  }

  lemma Totals(c: Conn)
    requires Inv(c)
    ensures c.buffered == SumBuffered(c.objs) && c.frames == SumFrames(c.objs)
  {
    hide StreamsInv, RegInv, IdInv;
  }

  lemma SumWithin(c: Conn, h: nat, n: nat)
    requires Inv(c) && Unique(c.objs) && WithinWindow(c, h, n) && !c.objs[h].closed && n > 0
    ensures c.buffered + n <= |c.reg| * c.cfg.window && c.frames + 1 <= |c.reg| * c.cfg.window
  {
    hide Inv;
    var s := c.objs[h].(recvBuffered := c.objs[h].recvBuffered + n, recvFrames := c.objs[h].recvFrames + 1);
    var objs := c.objs[h := s];
    SumPut(c.objs, h, s);
    forall k | 0 <= k < |c.objs| && c.objs[k].closed ensures c.objs[k].recvBuffered == 0 && c.objs[k].recvFrames == 0 {
      ClosedEmpty(c, k);
    }
    ConfigValid(c);
    SumBound(objs, c.cfg.window);
    assert LiveIds(objs) == LiveIds(c.objs) by { SameLive(c.objs, h, s); }
    LiveCount(c);
    Totals(c);
  }

  lemma SameLive(objs: seq<Stream>, h: nat, s: Stream)
    requires h < |objs| && s.id == objs[h].id && s.closed == objs[h].closed
    ensures LiveIds(objs[h := s]) == LiveIds(objs)
  {
    forall id ensures id in LiveIds(objs[h := s]) <==> id in LiveIds(objs) {
      if id in LiveIds(objs) {
        var k :| 0 <= k < |objs| && !objs[k].closed && objs[k].id == id;
        assert !objs[h := s][k].closed && objs[h := s][k].id == id;
      }
      if id in LiveIds(objs[h := s]) {
        var k :| 0 <= k < |objs| && !objs[h := s][k].closed && objs[h := s][k].id == id;
        assert !objs[k].closed && objs[k].id == id;
      }
    }
  }

  // -- the theorem

  lemma QueueWithin(x: Conn, h: nat, y: Conn, n: nat, m: nat)
    requires EndInv(x) && EndInv(y) && h < |x.objs| && !x.objs[h].closed
    requires n <= |y.out| && m <= |x.out| && x.cfg.window == y.cfg.window
    requires LinkInv(x.objs, y.out[..n]) && LinkInv(y.objs, x.out[..m])
    ensures 0 <= x.objs[h].recvFrames <= x.objs[h].recvBuffered <= x.cfg.window
  {
    hide EndInv, LinkInv;
    EndIsInv(x);
    QueueCost(x, h);
    QueueBound(x, h, y, n, m);
    Delivered(y.out, n, x.objs[h].id);
  }

  lemma NextData(x: Conn, h: nat, y: Conn, n: nat, m: nat)
    requires EndInv(x) && EndInv(y) && n < |y.out| && m <= |x.out| && x.cfg.window == y.cfg.window
    requires LinkInv(x.objs, y.out[..n]) && LinkInv(y.objs, x.out[..m])
    requires h < |x.objs| && !x.objs[h].closed && y.out[n].ftype == DATA && x.objs[h].id == y.out[n].sid
    ensures WithinWindow(x, h, |y.out[n].payload|) && y.out[n].payload != []
  {
    hide EndInv, LinkInv;
    forall k | 0 <= k < |x.objs| && !x.objs[k].closed
      ensures 0 <= x.objs[k].recvFrames <= x.objs[k].recvBuffered <= x.cfg.window
    {
      QueueWithin(x, k, y, n, m);
    }
    QueueBound(x, h, y, n, m);
    Next(y.out, n, x.objs[h].id);
    Delivered(y.out, n + 1, x.objs[h].id);
    NextFits(y, n);
  }

  /** Which of the four caps an arriving frame of `n` bytes would pass. */
  predicate StreamCap(c: Conn, h: nat, n: nat)
    requires h < |c.objs|
  {
    c.objs[h].recvBuffered + n > c.cfg.HardMax() || c.objs[h].recvFrames + 1 > c.cfg.MaxQueued()
  }

  predicate ConnByteCap(c: Conn, n: nat) { c.buffered + n > MAX_CONN_BUFFERED }

  predicate ConnFrameCap(c: Conn) { c.frames + 1 > MAX_CONN_FRAMES }

  lemma CapsOf(c: Conn, h: nat, n: nat, ok: bool)
    requires h < |c.objs|
    ensures Breach(c, h, n, ok) <==> StreamCap(c, h, n) || ConnByteCap(c, n) || ConnFrameCap(c) || !ok
  {
  }

  lemma NoBreach(x: Conn, h: nat, y: Conn, n: nat, m: nat)
    requires EndInv(x) && EndInv(y) && n < |y.out| && m <= |x.out| && x.cfg.window == y.cfg.window
    requires LinkInv(x.objs, y.out[..n]) && LinkInv(y.objs, x.out[..m])
    requires h < |x.objs| && !x.objs[h].closed && y.out[n].ftype == DATA && x.objs[h].id == y.out[n].sid
    ensures var p := |y.out[n].payload|;
            && !StreamCap(x, h, p)
            && (|x.reg| * x.cfg.window <= MAX_CONN_BUFFERED ==> !ConnByteCap(x, p))
            && (|x.reg| * x.cfg.window <= MAX_CONN_FRAMES ==> !ConnFrameCap(x))
  {
    hide LinkInv, LogInv, LossInv, Unique, Inv;
    NextData(x, h, y, n, m);
    ConfigValid(x);
    SumWithin(x, h, |y.out[n].payload|);
  }

  /** Data from a peer that keeps the protocol never trips its stream's byte or frame cap. With
      k live streams it cannot trip the connection's byte cap while k windows fit in 64 MiB, nor
      its frame cap while k windows are at most 1,048,576 bytes. */
  lemma CompliantPeerMeetsNoBackstop(y: Sys, h: nat)
    requires Reachable(y)
    ensures h < |y.b.objs| && !y.b.objs[h].closed && y.toB < |y.a.out|
            && y.a.out[y.toB].ftype == DATA && y.a.out[y.toB].sid == y.b.objs[h].id ==>
              var p := |y.a.out[y.toB].payload|;
              && !StreamCap(y.b, h, p)
              && (|y.b.reg| * y.b.cfg.window <= MAX_CONN_BUFFERED ==> !ConnByteCap(y.b, p))
              && (|y.b.reg| * y.b.cfg.window <= MAX_CONN_FRAMES ==> !ConnFrameCap(y.b))
    ensures h < |y.a.objs| && !y.a.objs[h].closed && y.toA < |y.b.out|
            && y.b.out[y.toA].ftype == DATA && y.b.out[y.toA].sid == y.a.objs[h].id ==>
              var p := |y.b.out[y.toA].payload|;
              && !StreamCap(y.a, h, p)
              && (|y.a.reg| * y.a.cfg.window <= MAX_CONN_BUFFERED ==> !ConnByteCap(y.a, p))
              && (|y.a.reg| * y.a.cfg.window <= MAX_CONN_FRAMES ==> !ConnFrameCap(y.a))
  {
    hide Reachable, EndInv, LinkInv, OpenFirst, NoOpen, NamesInv, StreamCap, ConnByteCap, ConnFrameCap;
    ReachableInv(y);
    if h < |y.b.objs| && !y.b.objs[h].closed && y.toB < |y.a.out|
       && y.a.out[y.toB].ftype == DATA && y.a.out[y.toB].sid == y.b.objs[h].id {
      NoBreach(y.b, h, y.a, y.toB, y.toA);
    }
    if h < |y.a.objs| && !y.a.objs[h].closed && y.toA < |y.b.out|
       && y.b.out[y.toA].ftype == DATA && y.b.out[y.toA].sid == y.a.objs[h].id {
      NoBreach(y.a, h, y.b, y.toA, y.toB);
    }
  }
}
