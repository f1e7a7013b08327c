/** The multiplexer's documentation says that a peer which keeps the protocol never approaches
    any backstop. That holds of the caps on a stream, and of the caps on the connection exactly
    while all the streams' windows together come to no more than the frame cap: beyond that,
    streams filled byte by byte reach it. */
module Overload {
  import opened Wire
  import opened MuxSpec
  import opened MuxInvariant
  import opened Channel
  import opened Effects
  import opened Receiving
  import opened Endpoints
  import Changes
  import opened Guarantees
  import opened Backstops

  // -- the run

  /** The first end has opened `k` streams, filled all but the last, and put `n` bytes into that
      one, in `f` frames altogether; all of it has arrived and none has been read. */
  predicate Loading(y: Sys, w: int, most: nat, k: nat, n: nat, f: nat) {
    && LoadingA(y.a, w, most, k, n) && LoadingB(y.b, w, most, k, n, f) && y.toB == |y.a.out|
  }

  function Total(w: int, k: nat, n: nat): int { if k == 0 then 0 else (k - 1) * w + n }

  function Zeros(s: nat): (r: seq<byte>)
    ensures |r| == s
  {
    seq(s, _ => 0)
  }

  predicate LoadingA(c: Conn, w: int, most: nat, k: nat, n: nat) {
    && c.cfg == Config(w, most, false) && c.wsOpen && !Draining(c)
    && |c.objs| == k && c.nextId == k + 1 && |c.reg| == k && (forall id | id in c.reg :: id <= k)
    && (k > 0 ==>
          var s := c.objs[k - 1];
          s.id == k && !s.closed && !s.sendEnded && s.sender == Idle && s.window == w - n)
  }

  predicate LoadingB(c: Conn, w: int, most: nat, k: nat, n: nat, f: nat) {
    && c.cfg == Config(w, most, true) && c.phase == Running && !Draining(c)
    && |c.objs| == k && |c.reg| == k && (forall id | id in c.reg :: id <= k)
    && c.frames == f && c.buffered == Total(w, k, n)
    && (k > 0 ==>
          && k < 0x1_0000_0000 && k in c.reg && c.reg[k] == k - 1
          && var s := c.objs[k - 1];
          s.id == k && !s.closed && s.recv == LaneOpen && 0 <= s.recvFrames <= s.recvBuffered == n)
  }

  lemma AddKey(m: map<u32, nat>, id: u32, h: nat)
    requires id !in m
    ensures |m[id := h]| == |m| + 1
  {
    assert m[id := h].Keys == m.Keys + {id};
    assert |m.Keys| == |m| && |m[id := h].Keys| == |m[id := h]|;
  }

  lemma OpenAtA(c: Conn, w: int, most: nat, k: nat, n: nat)
    requires LoadingA(c, w, most, k, n) && k < most && k < 0xFFFF_FFFF
    ensures Enabled(c, OpenE)
    ensures LoadingA(Step(c, OpenE), w, most, k + 1, 0) && Step(c, OpenE).out == c.out + [Frame(OPEN, k + 1, [])]
  {
    hide CloseLocal;
    AddKey(c.reg, k + 1, k);
  }

  lemma OpenAtB(c: Conn, w: int, most: nat, k: nat, n: nat, f: nat)
    requires LoadingB(c, w, most, k, n, f) && k < most && k < 0xFFFF_FFFF && (k == 0 || n == w)
    ensures LoadingB(Receive(c, Binary(Encode(Frame(OPEN, k + 1, []))), true), w, most, k + 1, 0, f)
  {
    hide Ignore, SendReset;
    DecodeEncode(Frame(OPEN, k + 1, []));
    AddKey(c.reg, k + 1, k);
    Rounds(k, w);
  }

  lemma Rounds(k: nat, w: int)
    ensures k > 0 ==> (k - 1) * w + w == k * w
    ensures 0 * w == 0
  {
  }

  /** A `send` that one frame serves, and the end of that `send`. */
  lemma SendAtA(c: Conn, w: int, most: nat, k: nat, n: nat, s: nat)
    requires LoadingA(c, w, most, k, n) && k > 0 && 0 < s <= w - n && s <= MAX_FRAME_PAYLOAD && k < 0x1_0000_0000
    ensures Enabled(c, StartSendE(k - 1, Zeros(s)))
    ensures var d := Step(c, StartSendE(k - 1, Zeros(s)));
            && d.out == c.out + [Frame(DATA, k, Zeros(s))]
            && Enabled(d, ResumeE(k - 1))
            && LoadingA(Step(d, ResumeE(k - 1)), w, most, k, n + s) && Step(d, ResumeE(k - 1)).out == d.out
  {
    var view := Zeros(s);
    assert Sends(c.objs[k - 1], view) && SendSize(c.objs[k - 1], view) == s;
    assert view[..s] == view && view[s..] == [];
  }

  lemma FeedAtB(c: Conn, w: int, most: nat, k: nat, n: nat, f: nat, s: nat)
    requires LoadingB(c, w, most, k, n, f) && k > 0 && 0 < s <= w - n
    requires f < MAX_CONN_FRAMES && Total(w, k, n) + s <= MAX_CONN_BUFFERED
    ensures LoadingB(Receive(c, Binary(Encode(Frame(DATA, k, Zeros(s)))), true), w, most, k, n + s, f + 1)
  {
    hide Ignore, CloseLocal, DispatchOpen, DispatchGoaway, DispatchEof, DispatchCredit;
    DecodeEncode(Frame(DATA, k, Zeros(s)));
    assert !Breach(c, k - 1, s, true);
  }

  // -- every load is reached

  ghost predicate Reached(w: int, most: nat, k: nat, n: nat, f: nat) {
    exists es: seq<SysEvent>, y: Sys :: SysRun(SysInit(w, most, most), es) == Some(y) && Loading(y, w, most, k, n, f)
  }

  lemma RunTwo(y: Sys, e1: SysEvent, e2: SysEvent)
    requires SysEnabled(y, e1) && SysEnabled(SysStep(y, e1), e2)
    ensures SysRun(y, [e1, e2]) == Some(SysStep(SysStep(y, e1), e2))
  {
    hide SysStep, SysEnabled;
    assert [e1, e2][1..] == [e2] && [e2][1..] == [];
    RunOne(SysStep(y, e1), e2);
  }

  lemma RunThree(y: Sys, e1: SysEvent, e2: SysEvent, e3: SysEvent)
    requires SysEnabled(y, e1) && SysEnabled(SysStep(y, e1), e2) && SysEnabled(SysStep(SysStep(y, e1), e2), e3)
    ensures SysRun(y, [e1, e2, e3]) == Some(SysStep(SysStep(SysStep(y, e1), e2), e3))
  {
    hide SysStep, SysEnabled;
    assert [e1, e2, e3][1..] == [e2, e3];
    RunTwo(SysStep(y, e1), e2, e3);
  }

  lemma OpenOne(w: int, most: nat, k: nat, n: nat, f: nat)
    requires Reached(w, most, k, n, f) && k < most && k < 0xFFFF_FFFF && (k == 0 || n == w)
    ensures Reached(w, most, k + 1, 0, f)
  {
    hide Step, Enabled, Receive, LoadingA, LoadingB;
    var es: seq<SysEvent>, y: Sys :| SysRun(SysInit(w, most, most), es) == Some(y) && Loading(y, w, most, k, n, f);
    OpenAtA(y.a, w, most, k, n);
    OpenAtB(y.b, w, most, k, n, f);
    Runs(y.b, w, most, k, n, f);
    var e1, e2 := AtA(OpenE), ToB(true);
    RunTwo(y, e1, e2);
    RunOn(SysInit(w, most, most), es, [e1, e2]);
    assert Loading(SysStep(SysStep(y, e1), e2), w, most, k + 1, 0, f);
  }

  lemma Runs(c: Conn, w: int, most: nat, k: nat, n: nat, f: nat)
    requires LoadingB(c, w, most, k, n, f)
    ensures c.phase == Running && c.frames == f && c.buffered == Total(w, k, n) && (k > 0 ==> k < 0x1_0000_0000)
  {
  }

  lemma FeedOne(w: int, most: nat, k: nat, n: nat, f: nat, s: nat)
    requires Reached(w, most, k, n, f) && k > 0 && 0 < s <= w - n && s <= MAX_FRAME_PAYLOAD
    requires f < MAX_CONN_FRAMES && Total(w, k, n) + s <= MAX_CONN_BUFFERED
    ensures Reached(w, most, k, n + s, f + 1)
  {
    hide Step, Enabled, Receive, LoadingA, LoadingB, Total;
    var es: seq<SysEvent>, y: Sys :| SysRun(SysInit(w, most, most), es) == Some(y) && Loading(y, w, most, k, n, f);
    Runs(y.b, w, most, k, n, f);
    SendAtA(y.a, w, most, k, n, s);
    FeedAtB(y.b, w, most, k, n, f, s);
    var e1, e2, e3 := AtA(StartSendE(k - 1, Zeros(s))), AtA(ResumeE(k - 1)), ToB(true);
    RunThree(y, e1, e2, e3);
    RunOn(SysInit(w, most, most), es, [e1, e2, e3]);
    assert Loading(SysStep(SysStep(SysStep(y, e1), e2), e3), w, most, k, n + s, f + 1);
  }

  /** Any number of one-byte frames up to the cap and the windows' total can be queued, with room
      left in the last stream. */
  lemma {:induction false} Load(w: int, most: nat, total: nat) returns (k: nat, n: nat)
    requires 1 <= w <= MAX_FLOW_WINDOW && total < most * w && total <= MAX_CONN_FRAMES
    ensures 0 < k <= most && n < w && Total(w, k, n) == total && k <= total + 1 && Reached(w, most, k, n, total)
    decreases total
  {
    hide Reached;
    if total == 0 {
      Unloaded(w, most);
      OpenOne(w, most, 0, 0, 0);
      Rounds(1, w);
      return 1, 0;
    }
    k, n := Load(w, most, total - 1);
    FeedOne(w, most, k, n, total - 1, 1);
    n := n + 1;
    if n == w {
      Rounds(k, w);
      MoreStreams(k, w, most);
      OpenOne(w, most, k, n, total);
      k, n := k + 1, 0;
    }
  }

  /** The next frame: 64 bytes, or what is left of the stream when that is less than twice it. */
  function Piece(left: int): int { if left < 128 then left else 64 }

  /** Frames of at least 64 bytes can be queued until the next would pass the byte cap. */
  lemma {:induction false} Fill(w: int, most: nat, k: nat, n: nat, f: nat) returns (k': nat, n': nat, f': nat)
    requires 64 <= w <= MAX_FLOW_WINDOW && most * w > MAX_CONN_BUFFERED && Reached(w, most, k, n, f)
    requires 0 < k && n + 64 <= w && 64 * f <= Total(w, k, n) <= MAX_CONN_BUFFERED
    ensures Reached(w, most, k', n', f') && 0 < k' && n' + 64 <= w && Total(w, k', n') + Piece(w - n') > MAX_CONN_BUFFERED
    decreases MAX_CONN_BUFFERED - Total(w, k, n)
  {
    hide Reached;
    var s := Piece(w - n);
    if Total(w, k, n) + s > MAX_CONN_BUFFERED {
      return k, n, f;
    }
    FeedOne(w, most, k, n, f, s);
    if n + s == w {
      Rounds(k, w);
      MoreStreams(k, w, most);
      FewRounds(k, w, MAX_CONN_BUFFERED);
      OpenOne(w, most, k, w, f + 1);
      k', n', f' := Fill(w, most, k + 1, 0, f + 1);
    } else {
      k', n', f' := Fill(w, most, k, n + s, f + 1);
    }
  }

  lemma FewRounds(k: nat, w: int, most: nat)
    requires w >= 1 && k * w <= most
    ensures k <= most
  {
    OneMoreRound(k, w);
  }

  lemma OneMoreRound(k: nat, w: int)
    requires w >= 1
    ensures k <= k * w
  {
  }

  lemma MoreStreams(k: nat, w: int, most: nat)
    requires w >= 1 && k * w < most * w
    ensures k < most
  {
    if most <= k { Fewer(most, k, w); }
  }

  lemma Unloaded(w: int, most: nat)
    ensures Reached(w, most, 0, 0, 0) && (most * w > 0 && w >= 1 ==> most > 0)
  {
    assert SysRun(SysInit(w, most, most), []) == Some(SysInit(w, most, most));
    assert Loading(SysInit(w, most, most), w, most, 0, 0, 0);
  }

  // -- the exact condition

  /** Data for the live stream `h` of `x` is next on the channel from `y`. */
  predicate NextFor(x: Conn, h: nat, y: Conn, n: nat) {
    h < |x.objs| && !x.objs[h].closed && n < |y.out| && y.out[n].ftype == DATA && y.out[n].sid == x.objs[h].id
  }

  predicate Trips(x: Conn, h: nat, y: Conn, n: nat) {
    NextFor(x, h, y, n) && Breach(x, h, |y.out[n].payload|, true)
  }

  /** Some run of two ends that both keep the protocol trips a backstop. */
  ghost predicate CanTrip(w: int, most: nat) {
    exists es: seq<SysEvent>, y: Sys, h: nat ::
      SysRun(SysInit(w, most, most), es) == Some(y) && (Trips(y.b, h, y.a, y.toB) || Trips(y.a, h, y.b, y.toA))
  }

  /** One more `send` leaves its frame next on the channel, with everything before it queued. */
  lemma SendNext(w: int, most: nat, k: nat, n: nat, f: nat, s: nat) returns (es: seq<SysEvent>, y: Sys)
    requires Reached(w, most, k, n, f) && k > 0 && 0 < s <= w - n && s <= MAX_FRAME_PAYLOAD
    ensures SysRun(SysInit(w, most, most), es) == Some(y) && NextFor(y.b, k - 1, y.a, y.toB)
    ensures |y.a.out[y.toB].payload| == s && y.b.frames == f && y.b.buffered == Total(w, k, n)
  {
    hide Step, Enabled, LoadingA, LoadingB, Total;
    es, y :| SysRun(SysInit(w, most, most), es) == Some(y) && Loading(y, w, most, k, n, f);
    Runs(y.b, w, most, k, n, f);
    SendAtA(y.a, w, most, k, n, s);
    var e := AtA(StartSendE(k - 1, Zeros(s)));
    var d := SysStep(y, e);
    RunOn(SysInit(w, most, most), es, [e]);
    RunOne(y, e);
    LastIsNext(d.b, d.a, w, most, k, n, f, s, y.toB);
    es, y := es + [e], d;
  }

  lemma LastIsNext(b: Conn, a: Conn, w: int, most: nat, k: nat, n: nat, f: nat, s: nat, m: nat)
    requires LoadingB(b, w, most, k, n, f) && 0 < k < 0x1_0000_0000 && |a.out| == m + 1 && a.out[m] == Frame(DATA, k, Zeros(s))
    ensures NextFor(b, k - 1, a, m)
  {
  }

  lemma NeverTrips(w: int, most: nat, es: seq<SysEvent>, y: Sys, h: nat)
    requires 1 <= w <= MAX_FLOW_WINDOW && most * w <= MAX_CONN_FRAMES && SysRun(SysInit(w, most, most), es) == Some(y)
    ensures !Trips(y.b, h, y.a, y.toB) && !Trips(y.a, h, y.b, y.toA)
  {
    hide SysRun, SysInv, EndInv, Breach, StreamCap, ConnByteCap, ConnFrameCap, LinkInv;
    SysInitInv(w, most, most);
    SysRunKeeps(SysInit(w, most, most), es);
    RunConfig(SysInit(w, most, most), es);
    InvParts(y);
    if NextFor(y.b, h, y.a, y.toB) { NoTrip(y.b, h, y.a, y.toB, y.toA, w, most); }
    if NextFor(y.a, h, y.b, y.toA) { NoTrip(y.a, h, y.b, y.toA, y.toB, w, most); }
  }

  lemma InvParts(y: Sys)
    requires SysInv(y)
    ensures EndInv(y.a) && EndInv(y.b) && y.toB <= |y.a.out| && y.toA <= |y.b.out|
    ensures LinkInv(y.a.objs, y.b.out[..y.toA]) && LinkInv(y.b.objs, y.a.out[..y.toB])
  {
    hide EndInv, LinkInv;
  }

  lemma NoTrip(x: Conn, h: nat, y: Conn, n: nat, m: nat, w: int, most: nat)
    requires EndInv(x) && EndInv(y) && n <= |y.out| && m <= |x.out| && NextFor(x, h, y, n)
    requires LinkInv(x.objs, y.out[..n]) && LinkInv(y.objs, x.out[..m])
    requires x.cfg.window == y.cfg.window == w && x.cfg.maxStreams == most && most * w <= MAX_CONN_FRAMES && w >= 1
    ensures !Breach(x, h, |y.out[n].payload|, true)
  {
    hide EndInv, LinkInv, Breach, StreamCap, ConnByteCap, ConnFrameCap;
    NoBreach(x, h, y, n, m);
    CapsOf(x, h, |y.out[n].payload|, true);
    EndIsInv(x);
    FewStreams(x);
    Fewer(|x.reg|, most, w);
  }

  lemma FewStreams(c: Conn)
    requires Inv(c)
    ensures |c.reg| <= c.cfg.maxStreams
  {
    hide StreamsInv, AccountInv, IdInv, ResetInv, DrainInv, OutInv, EndedInv;
  }

  lemma Fewer(k: nat, most: nat, w: int)
    requires k <= most && w >= 1
    ensures k * w <= most * w
  {
  }

  lemma {:induction false} RunConfig(y: Sys, es: seq<SysEvent>)
    requires SysInv(y) && SysRun(y, es).Some?
    ensures var d := SysRun(y, es).value; d.a.cfg == y.a.cfg && d.b.cfg == y.b.cfg
    decreases |es|
  {
    hide SysInv, SysStep, SysEnabled;
    if es != [] {
      SysStepKeeps(y, es[0]);
      StepConfig(y, es[0]);
      RunConfig(SysStep(y, es[0]), es[1..]);
    }
  }

  lemma StepConfig(y: Sys, e: SysEvent)
    requires SysInv(y) && SysEnabled(y, e)
    ensures SysStep(y, e).a.cfg == y.a.cfg && SysStep(y, e).b.cfg == y.b.cfg
  {
    hide Step, SysInv;
    match e
    case AtA(e) => Changes.StepOutlasts(y.a, e);
    case AtB(e) => Changes.StepOutlasts(y.b, e);
    case ToA(ok) => Changes.StepOutlasts(y.a, Recv(Binary(Encode(y.b.out[y.toA])), ok)); RecvIs(y.a, Binary(Encode(y.b.out[y.toA])), ok);
    case ToB(ok) => Changes.StepOutlasts(y.b, Recv(Binary(Encode(y.a.out[y.toB])), ok)); RecvIs(y.b, Binary(Encode(y.a.out[y.toB])), ok);
  }

  lemma RecvIs(c: Conn, m: Message, ok: bool)
    requires Enabled(c, Recv(m, ok))
    ensures Step(c, Recv(m, ok)) == Receive(c, m, ok)
  {
  }

  /** Compliant peers trip a backstop in some run exactly when the windows of all the streams
      allowed come to more than the connection's frame cap. At the defaults they do. */
  lemma CanTripIff(w: int, most: nat)
    requires 1 <= w <= MAX_FLOW_WINDOW
    ensures CanTrip(w, most) <==> most * w > MAX_CONN_FRAMES
    ensures MAX_STREAMS * FLOW_WINDOW > MAX_CONN_FRAMES
  {
    hide CanTrip, Reached;
    if most * w > MAX_CONN_FRAMES {
      var k, n := Load(w, most, MAX_CONN_FRAMES);
      var es, y := SendNext(w, most, k, n, MAX_CONN_FRAMES, 1);
      TripsNow(w, most, es, y, k - 1);
    } else {
      NoneTrips(w, most);
    }
  }

  lemma TripsNow(w: int, most: nat, es: seq<SysEvent>, y: Sys, h: nat)
    requires SysRun(SysInit(w, most, most), es) == Some(y) && NextFor(y.b, h, y.a, y.toB) && y.b.frames == MAX_CONN_FRAMES
    ensures CanTrip(w, most)
  {
    assert Trips(y.b, h, y.a, y.toB);
  }

  lemma NoneTrips(w: int, most: nat)
    requires 1 <= w <= MAX_FLOW_WINDOW && most * w <= MAX_CONN_FRAMES
    ensures !CanTrip(w, most)
  {
    hide SysRun, Trips;
    forall es: seq<SysEvent>, y: Sys, h: nat | SysRun(SysInit(w, most, most), es) == Some(y)
      ensures !Trips(y.b, h, y.a, y.toB) && !Trips(y.a, h, y.b, y.toA)
    {
      NeverTrips(w, most, es, y, h);
    }
  }

  // -- the byte cap

  predicate TripsBytes(x: Conn, h: nat, y: Conn, n: nat) {
    NextFor(x, h, y, n) && ConnByteCap(x, |y.out[n].payload|)
  }

  ghost predicate CanTripBytes(w: int, most: nat) {
    exists es: seq<SysEvent>, y: Sys, h: nat ::
      SysRun(SysInit(w, most, most), es) == Some(y) && (TripsBytes(y.b, h, y.a, y.toB) || TripsBytes(y.a, h, y.b, y.toA))
  }

  lemma {:induction false} BytesCost(q: seq<Item>, w: int)
    requires w >= 0 && |Bytes(q)| <= w
    ensures |Bytes(q)| <= w * Chunks(q)
  {
    if q != [] {
      var n := |q| - 1;
      BytesCost(q[..n], w);
      if q[n].Chunk? { AtLeast(w, Chunks(q[..n])); }
    }
  }

  lemma AtLeast(w: int, k: nat)
    requires w >= 0
    ensures w <= w * (k + 1)
  {
  }

  lemma {:induction false} SumCost(objs: seq<Stream>, w: int)
    requires forall h | 0 <= h < |objs| :: objs[h].recvBuffered <= w * objs[h].recvFrames
    ensures SumBuffered(objs) <= w * SumFrames(objs)
  {
    if objs != [] {
      var n := |objs| - 1;
      SumCost(objs[..n], w);
      Distributes(w, SumFrames(objs[..n]), objs[n].recvFrames);
    }
  }

  lemma Distributes(w: int, x: int, y: int)
    ensures w * (x + y) == w * x + w * y
  {
  }

  /** A queue holds at most a window of bytes for each of its frames. */
  lemma StreamCost(x: Conn, k: nat, y: Conn, n: nat, m: nat)
    requires EndInv(x) && EndInv(y) && k < |x.objs| && n <= |y.out| && m <= |x.out| && x.cfg.window == y.cfg.window
    requires LinkInv(x.objs, y.out[..n]) && LinkInv(y.objs, x.out[..m])
    ensures x.objs[k].recvBuffered <= x.cfg.window * x.objs[k].recvFrames
  {
    hide EndInv, LinkInv;
    EndIsInv(x);
    if x.objs[k].closed {
      ClosedEmpty(x, k);
    } else {
      QueueWithin(x, k, y, n, m);
      QueueCost(x, k);
      ChunksAre(x, k);
      BytesCost(x.objs[k].incoming, x.cfg.window);
    }
  }

  lemma ChunksAre(c: Conn, h: nat)
    requires Inv(c) && h < |c.objs| && !c.objs[h].closed
    ensures c.objs[h].recvFrames == Chunks(c.objs[h].incoming)
  {
    hide Inv, QueueInv, LaneInv, SenderInv, LedgerInv;
    StreamAt(c, h);
  }

  /** With a window under 64 bytes the frame cap holds the bytes down. */
  lemma SmallWindow(x: Conn, h: nat, y: Conn, n: nat, m: nat)
    requires EndInv(x) && EndInv(y) && n <= |y.out| && m <= |x.out| && NextFor(x, h, y, n)
    requires LinkInv(x.objs, y.out[..n]) && LinkInv(y.objs, x.out[..m]) && x.cfg.window == y.cfg.window < 64
    ensures !ConnByteCap(x, |y.out[n].payload|)
  {
    hide EndInv, LinkInv;
    EndIsInv(x);
    NextData(x, h, y, n, m);
    forall k | 0 <= k < |x.objs| ensures x.objs[k].recvBuffered <= x.cfg.window * x.objs[k].recvFrames {
      StreamCost(x, k, y, n, m);
    }
    SumCost(x.objs, x.cfg.window);
    Totals(x);
    Caps(x);
    ConfigValid(x);
    Scaled(x.cfg.window, x.frames, MAX_CONN_FRAMES);
  }

  lemma Scaled(w: int, x: int, y: int)
    requires 0 <= w < 64 && x <= y && y >= 0
    ensures w * x <= 63 * y
  {
  }

  lemma NoByteTrip(x: Conn, h: nat, y: Conn, n: nat, m: nat, w: int, most: nat)
    requires EndInv(x) && EndInv(y) && n <= |y.out| && m <= |x.out| && NextFor(x, h, y, n)
    requires LinkInv(x.objs, y.out[..n]) && LinkInv(y.objs, x.out[..m])
    requires x.cfg.window == y.cfg.window == w && x.cfg.maxStreams == most && w >= 1
    requires most * w <= MAX_CONN_BUFFERED || w < 64
    ensures !ConnByteCap(x, |y.out[n].payload|)
  {
    hide EndInv, LinkInv, StreamCap, ConnByteCap, ConnFrameCap;
    if w < 64 {
      SmallWindow(x, h, y, n, m);
    } else {
      NoBreach(x, h, y, n, m);
      EndIsInv(x);
      FewStreams(x);
      Fewer(|x.reg|, most, w);
    }
  }

  lemma NeverTripsBytes(w: int, most: nat, es: seq<SysEvent>, y: Sys, h: nat)
    requires 1 <= w <= MAX_FLOW_WINDOW && SysRun(SysInit(w, most, most), es) == Some(y)
    requires most * w <= MAX_CONN_BUFFERED || w < 64
    ensures !TripsBytes(y.b, h, y.a, y.toB) && !TripsBytes(y.a, h, y.b, y.toA)
  {
    hide SysRun, SysInv, EndInv, ConnByteCap, LinkInv;
    SysInitInv(w, most, most);
    SysRunKeeps(SysInit(w, most, most), es);
    RunConfig(SysInit(w, most, most), es);
    InvParts(y);
    if NextFor(y.b, h, y.a, y.toB) { NoByteTrip(y.b, h, y.a, y.toB, y.toA, w, most); }
    if NextFor(y.a, h, y.b, y.toA) { NoByteTrip(y.a, h, y.b, y.toA, y.toB, w, most); }
  }

  lemma NoneTripsBytes(w: int, most: nat)
    requires 1 <= w <= MAX_FLOW_WINDOW && (most * w <= MAX_CONN_BUFFERED || w < 64)
    ensures !CanTripBytes(w, most)
  {
    hide SysRun, TripsBytes;
    forall es: seq<SysEvent>, y: Sys, h: nat | SysRun(SysInit(w, most, most), es) == Some(y)
      ensures !TripsBytes(y.b, h, y.a, y.toB) && !TripsBytes(y.a, h, y.b, y.toA)
    {
      NeverTripsBytes(w, most, es, y, h);
    }
  }

  /** The byte cap by itself: compliant peers reach it in some run exactly when the windows of all
      the streams allowed come to more than it and are not so small that the frame cap is always
      there first. */
  lemma CanTripBytesIff(w: int, most: nat)
    requires 1 <= w <= MAX_FLOW_WINDOW
    ensures CanTripBytes(w, most) <==> most * w > MAX_CONN_BUFFERED && w >= 64
    ensures MAX_STREAMS * FLOW_WINDOW > MAX_CONN_BUFFERED
  {
    hide CanTripBytes, Reached;
    if most * w > MAX_CONN_BUFFERED && w >= 64 {
      Unloaded(w, most);
      OpenOne(w, most, 0, 0, 0);
      Rounds(1, w);
      var k, n, f := Fill(w, most, 1, 0, 0);
      var es, y := SendNext(w, most, k, n, f, Piece(w - n));
      TripsBytesNow(w, most, es, y, k - 1);
    } else {
      NoneTripsBytes(w, most);
    }
  }

  lemma TripsBytesNow(w: int, most: nat, es: seq<SysEvent>, y: Sys, h: nat)
    requires SysRun(SysInit(w, most, most), es) == Some(y) && TripsBytes(y.b, h, y.a, y.toB)
    ensures CanTripBytes(w, most)
  {
  }
}
