/** What one end keeps true whatever its peer sends: exact buffer accounting, the write-once
    lane, the caps, the registry, drain, and the byte ledgers of each stream. */
module MuxInvariant {
  import opened Wire
  import opened MuxSpec

  // -- queues

  function ItemBytes(i: Item): seq<byte> { if i.Chunk? then i.bytes else [] }

  function Bytes(q: seq<Item>): seq<byte> {
    if q == [] then [] else Bytes(q[..|q|-1]) + ItemBytes(q[|q|-1])
  }

  function Chunks(q: seq<Item>): nat {
    if q == [] then 0 else Chunks(q[..|q|-1]) + if q[|q|-1].Chunk? then 1 else 0
  }

  lemma QueuePush(q: seq<Item>, i: Item)
    ensures Bytes(q + [i]) == Bytes(q) + ItemBytes(i)
    ensures Chunks(q + [i]) == Chunks(q) + if i.Chunk? then 1 else 0
  {
    assert (q + [i])[..|q|] == q;
  }

  lemma JoinAssoc<T>(a: seq<T>, b: seq<T>, c: seq<T>)
    ensures (a + b) + c == a + (b + c)
  {
  }

  lemma ConcatPush(a: seq<Item>, b: seq<Item>, i: Item)
    requires Bytes(a + b) == Bytes(a) + Bytes(b) && Chunks(a + b) == Chunks(a) + Chunks(b)
    ensures Bytes(a + (b + [i])) == Bytes(a) + Bytes(b + [i])
    ensures Chunks(a + (b + [i])) == Chunks(a) + Chunks(b + [i])
  {
    hide Bytes, Chunks, ItemBytes;
    QueuePush(b, i);
    QueuePush(a + b, i);
    JoinAssoc(a, b, [i]);
    JoinAssoc(Bytes(a), Bytes(b), ItemBytes(i));
  }

  lemma {:induction false} QueueConcat(a: seq<Item>, b: seq<Item>)
    ensures Bytes(a + b) == Bytes(a) + Bytes(b)
    ensures Chunks(a + b) == Chunks(a) + Chunks(b)
  {
    if b == [] {
      assert a + b == a;
      assert Bytes(a) + [] == Bytes(a);
    } else {
      hide Bytes, Chunks;
      var d, i := b[..|b| - 1], b[|b| - 1];
      assert d + [i] == b;
      QueueConcat(a, d);
      ConcatPush(a, d, i);
    }
  }

  lemma QueueOne(i: Item)
    ensures Bytes([i]) == ItemBytes(i) && Chunks([i]) == if i.Chunk? then 1 else 0
  {
    assert [i][..0] == [];
  }

  lemma QueuePop(q: seq<Item>)
    requires q != []
    ensures Bytes(q) == ItemBytes(q[0]) + Bytes(q[1..])
    ensures Chunks(q) == Chunks(q[1..]) + if q[0].Chunk? then 1 else 0
  {
    hide Bytes, Chunks, ItemBytes;
    assert q == [q[0]] + q[1..];
    QueueConcat([q[0]], q[1..]);
    QueueOne(q[0]);
  }

  // -- one stream

  /** Every item ever put into the receive queue, in order. */
  function Queued(s: Stream): seq<Item> { s.hist.taken + s.incoming }

  predicate NoEnd(q: seq<Item>) { forall i | 0 <= i < |q| :: q[i].Chunk? }

  /** No terminal while the lane is open; once it has left that state there is exactly one, and
      nothing behind it. */
  predicate LaneShape(q: seq<Item>, lane: Lane) {
    if lane == LaneOpen then NoEnd(q)
    else q != [] && q[|q|-1] == End && NoEnd(q[..|q|-1])
  }

  predicate SmallItem(i: Item, cfg: Config) { i.Chunk? ==> 0 < |i.bytes| <= cfg.HardMax() }

  predicate QueueInv(taken: seq<Item>, incoming: seq<Item>, recv: Lane, signal: Signal, cfg: Config) {
    && LaneShape(taken + incoming, recv)
    && (forall i | 0 <= i < |incoming| :: SmallItem(incoming[i], cfg))
    && (signal != NoSignal <==> taken != [] && taken[|taken|-1] == End)
    && (signal == Fin ==> recv == LaneEof)
    && (signal == Rst ==> recv == LaneReset)
  }

  predicate CountInv(closed: bool, recv: Lane, buffered: int, frames: int, incoming: seq<Item>, cfg: Config) {
    if closed then recv != LaneOpen && buffered == 0 && frames == 0
    else
      && buffered == |Bytes(incoming)| <= cfg.HardMax()
      && frames == Chunks(incoming) <= cfg.MaxQueued()
  }

  /** A lane that ended while the stream lives ended for a reason its peer will learn of, or
      gave. */
  predicate LaneInv(recv: Lane, closed: bool, waiter: bool, resetQueued: bool, peerEof: bool) {
    && (closed ==> waiter)
    && (!closed && recv == LaneReset ==> resetQueued)
    && (!closed && recv == LaneEof ==> peerEof)
    && (peerEof ==> recv == LaneEof)
  }

  /** A sender asleep on a clear event has no credit and nothing to make it give up. */
  predicate SenderInv(sender: Sender, window: int, sendEnded: bool, waiter: bool, closed: bool) {
    && 0 <= window <= MAX_SEND_WINDOW
    && (!sender.Idle? ==> !sendEnded)
    && (sender.Parked? && !waiter ==> window == 0 && !closed)
  }

  /** The byte ledgers: credit had is credit used or left; bytes read are held by the pump,
      waiting for the batch, returned, or lost. */
  predicate LedgerInv(s: Stream, cfg: Config) {
    && s.window + s.hist.unsent + |s.hist.sent| == cfg.window + s.hist.granted
    && s.hist.held + s.unacked + s.hist.credited + s.hist.uncredited == |Bytes(s.hist.taken)|
    && s.unacked < cfg.Threshold()
    && s.hist.held <= cfg.HardMax()
  }

  predicate StreamInv(s: Stream, cfg: Config) {
    && QueueInv(s.hist.taken, s.incoming, s.recv, s.hist.signal, cfg)
    && CountInv(s.closed, s.recv, s.recvBuffered, s.recvFrames, s.incoming, cfg)
    && LaneInv(s.recv, s.closed, s.waiter, s.resetQueued, s.hist.peerEof)
    && SenderInv(s.sender, s.window, s.sendEnded, s.waiter, s.closed)
    && LedgerInv(s, cfg)
  }

  // -- the connection

  function SumBuffered(objs: seq<Stream>): int {
    if objs == [] then 0 else SumBuffered(objs[..|objs|-1]) + objs[|objs|-1].recvBuffered
  }

  function SumFrames(objs: seq<Stream>): int {
    if objs == [] then 0 else SumFrames(objs[..|objs|-1]) + objs[|objs|-1].recvFrames
  }

  /** A stream is registered under its id exactly while it is not closed. */
  predicate RegInv(cfg: Config, objs: seq<Stream>, reg: map<u32, nat>) {
    && (forall id | id in reg :: reg[id] < |objs| && objs[reg[id]].id == id && !objs[reg[id]].closed)
    && (forall h | 0 <= h < |objs| && !objs[h].closed :: objs[h].id in reg && reg[objs[h].id] == h)
    && |reg| <= cfg.maxStreams
  }

  /** The connection's counters are the sums over its streams, and under the caps. */
  predicate AccountInv(objs: seq<Stream>, buffered: int, frames: int, reserved: int) {
    && buffered == SumBuffered(objs) <= MAX_CONN_BUFFERED
    && frames == SumFrames(objs) <= MAX_CONN_FRAMES
    && reserved == buffered
  }

  /** Nothing is buffered once the frame reader has cleaned up. */
  predicate EndedInv(phase: Phase, objs: seq<Stream>) {
    phase == Ended ==> forall h | 0 <= h < |objs| :: objs[h].recvBuffered == 0 && objs[h].recvFrames == 0
  }

  /** The initiator numbers its streams 1, 2, 3, ... */
  predicate IdInv(cfg: Config, objs: seq<Stream>, nextId: nat) {
    && (forall h | 0 <= h < |objs| :: objs[h].id != 0)
    && (!cfg.responder ==>
          && nextId == |objs| + 1 <= 0x1_0000_0000
          && (forall h | 0 <= h < |objs| :: objs[h].id == h + 1))
  }

  /** ... and owes a RESET for no id it has not used. */
  predicate ResetInv(cfg: Config, nextId: nat, resetSends: set<u32>) {
    && |resetSends| <= cfg.maxStreams && 0 !in resetSends
    && (!cfg.responder ==> forall id | id in resetSends :: id < nextId)
  }

  predicate DrainInv(peerGoingAway: bool, goawayCalls: nat, goingAway: bool, parked: nat, idle: bool, reg: map<u32, nat>) {
    && goawayCalls == (if peerGoingAway then 1 else 0)
    && (parked > 0 ==> goingAway)
    && (parked > 0 && !idle ==> reg != map[])
  }

  /** A frame any receiver can act on, within the transport's message size. */
  predicate FrameFits(f: Frame) {
    && OPEN <= f.ftype <= GOAWAY
    && |f.payload| <= MAX_FRAME_PAYLOAD
    && (f.ftype == DATA ==> f.payload != [])
    && (f.ftype == WINDOW_UPDATE ==> |f.payload| == 4 && Unpack32(f.payload) > 0)
    && (f.ftype == OPEN || f.ftype == EOF || f.ftype == RESET || f.ftype == GOAWAY ==> f.payload == [])
    && (f.sid == 0 <==> f.ftype == GOAWAY)
  }

  predicate OutInv(cfg: Config, nextId: nat, out: seq<Frame>) {
    && (forall i | 0 <= i < |out| :: FrameFits(out[i]))
    && (!cfg.responder ==> forall i | 0 <= i < |out| :: out[i].sid < nextId)
  }

  predicate StreamsInv(cfg: Config, objs: seq<Stream>) {
    forall h | 0 <= h < |objs| :: StreamInv(objs[h], cfg)
  }

  predicate Inv(c: Conn) {
    && c.cfg.Valid()
    && RegInv(c.cfg, c.objs, c.reg)
    && AccountInv(c.objs, c.buffered, c.frames, c.reserved)
    && EndedInv(c.phase, c.objs)
    && IdInv(c.cfg, c.objs, c.nextId)
    && ResetInv(c.cfg, c.nextId, c.resetSends)
    && DrainInv(c.peerGoingAway, c.goawayCalls, c.goingAway, c.parkedDrains, c.idle, c.reg)
    && OutInv(c.cfg, c.nextId, c.out)
    && StreamsInv(c.cfg, c.objs)
  }

  // -- sums

  lemma {:induction false} SumPut(objs: seq<Stream>, h: nat, s: Stream)
    requires h < |objs|
    ensures SumBuffered(objs[h := s]) == SumBuffered(objs) - objs[h].recvBuffered + s.recvBuffered
    ensures SumFrames(objs[h := s]) == SumFrames(objs) - objs[h].recvFrames + s.recvFrames
  {
    var n := |objs| - 1;
    if h == n {
      assert objs[h := s][..n] == objs[..n];
    } else {
      assert objs[h := s][..n] == objs[..n][h := s];
      SumPut(objs[..n], h, s);
    }
  }

  lemma SumPush(objs: seq<Stream>, s: Stream)
    ensures SumBuffered(objs + [s]) == SumBuffered(objs) + s.recvBuffered
    ensures SumFrames(objs + [s]) == SumFrames(objs) + s.recvFrames
  {
    assert (objs + [s])[..|objs|] == objs;
  }

  lemma {:induction false} SumZero(objs: seq<Stream>)
    requires forall h | 0 <= h < |objs| :: objs[h].recvBuffered == 0 && objs[h].recvFrames == 0
    ensures SumBuffered(objs) == 0 && SumFrames(objs) == 0
  {
    if objs != [] { SumZero(objs[..|objs|-1]); }
  }

  // -- building blocks

  lemma StreamAt(c: Conn, h: nat)
    requires Inv(c) && h < |c.objs|
    ensures StreamInv(c.objs[h], c.cfg)
  {
    hide StreamInv, RegInv, AccountInv, IdInv, ResetInv, DrainInv, OutInv;
  }

  lemma NamedId(c: Conn, h: nat)
    requires Inv(c) && h < |c.objs|
    ensures c.objs[h].id != 0 && (!c.cfg.responder ==> c.objs[h].id < c.nextId)
  {
    hide StreamsInv, RegInv, AccountInv, ResetInv, DrainInv, OutInv;
  }

  lemma RegisteredAt(c: Conn, id: u32)
    requires Inv(c) && id in c.reg
    ensures c.reg[id] < |c.objs| && c.objs[c.reg[id]].id == id && !c.objs[c.reg[id]].closed
  {
    hide StreamsInv, IdInv, AccountInv, ResetInv, DrainInv, OutInv;
  }

  lemma ReplaceKeepsAccount(objs: seq<Stream>, h: nat, s: Stream, b: int, f: int, r: int)
    requires h < |objs| && AccountInv(objs, b, f, r)
    requires b - objs[h].recvBuffered + s.recvBuffered <= MAX_CONN_BUFFERED
    requires f - objs[h].recvFrames + s.recvFrames <= MAX_CONN_FRAMES
    ensures AccountInv(objs[h := s], b - objs[h].recvBuffered + s.recvBuffered,
                       f - objs[h].recvFrames + s.recvFrames, r - objs[h].recvBuffered + s.recvBuffered)
  {
    SumPut(objs, h, s);
  }

  lemma ReplaceKeepsIds(cfg: Config, objs: seq<Stream>, h: nat, s: Stream, reg: map<u32, nat>, nextId: nat)
    requires h < |objs| && s.id == objs[h].id && s.closed == objs[h].closed
    requires RegInv(cfg, objs, reg) && IdInv(cfg, objs, nextId)
    ensures RegInv(cfg, objs[h := s], reg) && IdInv(cfg, objs[h := s], nextId)
  {
  }

  lemma ReplaceKeepsStreams(cfg: Config, objs: seq<Stream>, h: nat, s: Stream)
    requires StreamsInv(cfg, objs) && h < |objs| && StreamInv(s, cfg)
    ensures StreamsInv(cfg, objs[h := s])
  {
    hide StreamInv;
  }

  /** One stream replaced by another in the same registration state. */
  lemma SettleKeeps(c: Conn, h: nat, s: Stream)
    requires Inv(c) && h < |c.objs| && StreamInv(s, c.cfg)
    requires s.id == c.objs[h].id && s.closed == c.objs[h].closed
    requires Settle(c, h, s).buffered <= MAX_CONN_BUFFERED && Settle(c, h, s).frames <= MAX_CONN_FRAMES
    requires c.phase == Ended ==> s.recvBuffered == 0 && s.recvFrames == 0
    ensures Inv(Settle(c, h, s))
  {
    hide RegInv, AccountInv, IdInv, ResetInv, DrainInv, OutInv, StreamsInv, StreamInv;
    ReplaceKeepsAccount(c.objs, h, s, c.buffered, c.frames, c.reserved);
    ReplaceKeepsIds(c.cfg, c.objs, h, s, c.reg, c.nextId);
    ReplaceKeepsStreams(c.cfg, c.objs, h, s);
  }

  lemma Caps(c: Conn)
    requires Inv(c)
    ensures c.buffered <= MAX_CONN_BUFFERED && c.frames <= MAX_CONN_FRAMES
  {
    hide RegInv, IdInv, ResetInv, DrainInv, OutInv, StreamsInv;
  }

  /** A change that does not raise the receive counters. */
  lemma LowerKeeps(c: Conn, h: nat, s: Stream)
    requires Inv(c) && h < |c.objs| && StreamInv(s, c.cfg)
    requires s.id == c.objs[h].id && s.closed == c.objs[h].closed
    requires s.recvBuffered <= c.objs[h].recvBuffered && s.recvFrames <= c.objs[h].recvFrames
    ensures Inv(Settle(c, h, s))
  {
    hide Inv, StreamInv;
    Caps(c);
    NonNegative(s, c.cfg);
    if c.phase == Ended { EndedAt(c, h); }
    SettleKeeps(c, h, s);
  }

  lemma EndedAt(c: Conn, h: nat)
    requires Inv(c) && h < |c.objs| && c.phase == Ended
    ensures c.objs[h].recvBuffered == 0 && c.objs[h].recvFrames == 0
  {
    hide RegInv, AccountInv, IdInv, ResetInv, DrainInv, OutInv, StreamsInv;
  }

  /** A change that leaves them alone. */
  lemma SamePutKeeps(c: Conn, h: nat, s: Stream)
    requires Inv(c) && h < |c.objs| && StreamInv(s, c.cfg)
    requires s.id == c.objs[h].id && s.closed == c.objs[h].closed
    requires s.recvBuffered == c.objs[h].recvBuffered && s.recvFrames == c.objs[h].recvFrames
    ensures Inv(Put(c, h, s))
  {
    hide Inv, StreamInv;
    LowerKeeps(c, h, s);
    assert Settle(c, h, s) == Put(c, h, s);
  }

  lemma NonNegative(s: Stream, cfg: Config)
    requires StreamInv(s, cfg)
    ensures s.recvBuffered >= 0 && s.recvFrames >= 0
  {
    hide QueueInv, LaneInv, SenderInv, LedgerInv;
  }

  lemma EmitKeeps(c: Conn, f: Frame)
    requires Inv(c) && FrameFits(f)
    requires !c.cfg.responder ==> f.sid < c.nextId
    ensures Inv(Emit(c, f))
  {
    hide RegInv, AccountInv, IdInv, ResetInv, DrainInv, StreamsInv, FrameFits;
  }

  // -- closing

  lemma EndRecvKeeps(taken: seq<Item>, s: Stream, lane: Lane, signal: Signal, cfg: Config)
    requires QueueInv(taken, s.incoming, s.recv, signal, cfg) && lane != LaneOpen
    ensures var e := EndRecv(s, lane);
            && QueueInv(taken, e.incoming, e.recv, signal, cfg)
            && Bytes(e.incoming) == Bytes(s.incoming) && Chunks(e.incoming) == Chunks(s.incoming)
  {
    if s.recv == LaneOpen {
      QueuePush(s.incoming, End);
      EndQueue(taken, s.incoming, signal, lane, cfg);
    }
  }

  lemma EndQueue(taken: seq<Item>, incoming: seq<Item>, signal: Signal, lane: Lane, cfg: Config)
    requires QueueInv(taken, incoming, LaneOpen, signal, cfg) && lane != LaneOpen
    ensures QueueInv(taken, incoming + [End], lane, signal, cfg)
  {
    var q := taken + incoming;
    assert taken + (incoming + [End]) == q + [End];
    assert taken != [] ==> taken[|taken|-1] == q[|taken|-1];
  }

  lemma CloseStream(s: Stream, cfg: Config, lane: Lane)
    requires StreamInv(s, cfg) && !s.closed && lane != LaneOpen
    ensures StreamInv(ClosedOff(s, lane), cfg)
  {
    hide QueueInv, Bytes, Chunks;
    EndRecvKeeps(s.hist.taken, s.(closed := true, waiter := true, recvBuffered := 0, recvFrames := 0), lane, s.hist.signal, cfg);
  }

  lemma CloseKeepsReg(cfg: Config, objs: seq<Stream>, reg: map<u32, nat>, h: nat, s: Stream)
    requires RegInv(cfg, objs, reg) && h < |objs| && !objs[h].closed && s.closed && s.id == objs[h].id
    ensures RegInv(cfg, objs[h := s], reg - {s.id})
  {
    var r := reg - {s.id};
    assert r.Keys == reg.Keys - {s.id};
    assert |r.Keys| <= |reg.Keys|;
  }

  lemma CloseKeepsIds(cfg: Config, objs: seq<Stream>, nextId: nat, h: nat, s: Stream)
    requires IdInv(cfg, objs, nextId) && h < |objs| && s.id == objs[h].id
    ensures IdInv(cfg, objs[h := s], nextId)
  {
  }

  lemma CloseKeeps(c: Conn, h: nat, lane: Lane)
    requires Inv(c) && h < |c.objs| && lane != LaneOpen
    ensures Inv(CloseLocal(c, h, lane))
  {
    hide RegInv, AccountInv, IdInv, ResetInv, OutInv, StreamsInv, StreamInv;
    if !c.objs[h].closed {
      StreamAt(c, h);
      Caps(c);
      NonNegative(c.objs[h], c.cfg);
      CloseKeepsReg(c.cfg, c.objs, c.reg, h, ClosedOff(c.objs[h], lane));
      CloseKeepsIds(c.cfg, c.objs, c.nextId, h, ClosedOff(c.objs[h], lane));
      ReplaceKeepsAccount(c.objs, h, ClosedOff(c.objs[h], lane), c.buffered, c.frames, c.reserved);
      CloseStream(c.objs[h], c.cfg, lane);
      ReplaceKeepsStreams(c.cfg, c.objs, h, ClosedOff(c.objs[h], lane));
    }
  }

  lemma CloseSameIds(c: Conn, h: nat, lane: Lane)
    requires h < |c.objs|
    ensures var c' := CloseLocal(c, h, lane);
            c'.cfg == c.cfg && c'.nextId == c.nextId && |c'.objs| == |c.objs| && c'.phase == c.phase
            && c'.objs[h].closed && (forall i | 0 <= i < |c.objs| && c.objs[i].closed :: c'.objs[i].closed)
  {
  }

  // -- creating

  lemma CreateKeepsReg(cfg: Config, objs: seq<Stream>, reg: map<u32, nat>, s: Stream)
    requires RegInv(cfg, objs, reg) && s.id !in reg && |reg| < cfg.maxStreams && !s.closed
    ensures RegInv(cfg, objs + [s], reg[s.id := |objs|])
  {
    var r := reg[s.id := |objs|];
    assert r.Keys == reg.Keys + {s.id};
    assert |r.Keys| == |reg.Keys| + 1;
  }

  lemma CreateKeepsStreams(cfg: Config, objs: seq<Stream>, id: u32)
    requires StreamsInv(cfg, objs) && cfg.Valid()
    ensures StreamsInv(cfg, objs + [NewStream(id, cfg.window)])
  {
    assert StreamInv(NewStream(id, cfg.window), cfg);
  }

  lemma CreateKeepsRest(c: Conn, id: u32)
    requires Inv(c) && id !in c.reg && |c.reg| < c.cfg.maxStreams
    ensures RegInv(c.cfg, Create(c, id).objs, Create(c, id).reg)
    ensures AccountInv(Create(c, id).objs, c.buffered, c.frames, c.reserved)
    ensures StreamsInv(c.cfg, Create(c, id).objs)
    ensures EndedInv(c.phase, Create(c, id).objs)
  {
    hide RegInv, IdInv, ResetInv, DrainInv, OutInv, StreamsInv;
    CreateKeepsReg(c.cfg, c.objs, c.reg, NewStream(id, c.cfg.window));
    SumPush(c.objs, NewStream(id, c.cfg.window));
    CreateKeepsStreams(c.cfg, c.objs, id);
  }

  /** A peer's OPEN. */
  lemma CreateKeeps(c: Conn, id: u32)
    requires Inv(c) && c.cfg.responder && id != 0 && id !in c.reg && |c.reg| < c.cfg.maxStreams
    ensures Inv(Create(c, id))
  {
    hide RegInv, AccountInv, ResetInv, OutInv, StreamsInv, EndedInv;
    CreateKeepsRest(c, id);
  }

  lemma AllocateKeeps(c: Conn)
    requires Inv(c) && !c.cfg.responder && !OpenRefused(c)
    ensures Inv(Allocate(c))
  {
    assert c.nextId !in c.reg by { hide AccountInv, ResetInv, OutInv, StreamsInv, EndedInv, DrainInv; }
    hide RegInv, AccountInv, StreamsInv, EndedInv;
    CreateKeepsRest(c, c.nextId);
  }

  lemma OpenKeeps(c: Conn)
    requires Inv(c) && !c.cfg.responder
    ensures Inv(OpenStream(c))
  {
    hide RegInv, AccountInv, ResetInv, OutInv, StreamsInv, EndedInv;
    if !OpenRefused(c) {
      AllocateKeeps(c);
      EmitKeeps(Allocate(c), Frame(OPEN, c.nextId, []));
      CloseKeeps(Allocate(c), |c.objs|, LaneEof);
    }
  }

  lemma SendResetKeeps(c: Conn, id: u32)
    requires Inv(c) && (!c.cfg.responder ==> id < c.nextId)
    ensures Inv(SendReset(c, id))
  {
    hide RegInv, AccountInv, IdInv, OutInv, StreamsInv, EndedInv;
  }

  lemma IgnoreKeeps(c: Conn)
    requires Inv(c) && c.phase == Running
    ensures Inv(Ignore(c))
  {
    hide RegInv, AccountInv, IdInv, ResetInv, OutInv, StreamsInv;
  }

  // -- receive direction

  lemma DropStream(s: Stream, cfg: Config, n: nat)
    requires StreamInv(s, cfg)
    ensures StreamInv(Drop(s, n), cfg)
  {
    hide QueueInv, CountInv;
  }

  lemma BreachStream(s: Stream, cfg: Config, n: nat)
    requires StreamInv(s, cfg) && !s.closed && s.recv == LaneOpen
    ensures StreamInv(Broken(s, n), cfg)
  {
    hide QueueInv;
    EndRecvKeeps(s.hist.taken, s, LaneReset, s.hist.signal, cfg);
  }

  lemma ChunkQueue(taken: seq<Item>, incoming: seq<Item>, signal: Signal, data: seq<byte>, cfg: Config)
    requires QueueInv(taken, incoming, LaneOpen, signal, cfg) && 0 < |data| <= cfg.HardMax()
    ensures QueueInv(taken, incoming + [Chunk(data)], LaneOpen, signal, cfg)
  {
    assert taken + (incoming + [Chunk(data)]) == (taken + incoming) + [Chunk(data)];
  }

  lemma ChunkStream(s: Stream, cfg: Config, data: seq<byte>)
    requires StreamInv(s, cfg) && !s.closed && s.recv == LaneOpen && data != []
    requires s.recvBuffered + |data| <= cfg.HardMax() && s.recvFrames + 1 <= cfg.MaxQueued()
    ensures StreamInv(Chunked(s, data), cfg)
  {
    hide QueueInv;
    QueuePush(s.incoming, Chunk(data));
    ChunkQueue(s.hist.taken, s.incoming, s.hist.signal, data, cfg);
  }

  lemma ArrivedStream(c: Conn, h: nat, data: seq<byte>, ok: bool)
    requires h < |c.objs| && StreamInv(c.objs[h], c.cfg) && !c.objs[h].closed
    ensures StreamInv(Arrived(c.objs[h], data, Breach(c, h, |data|, ok)), c.cfg)
  {
    hide StreamInv, EndRecv, Drop, Broken, Chunked;
    var s := c.objs[h];
    if s.recv != LaneOpen { DropStream(s, c.cfg, |data|); }
    else if data != [] {
      if Breach(c, h, |data|, ok) { BreachStream(s, c.cfg, |data|); } else { ChunkStream(s, c.cfg, data); }
    }
  }

  /** What arrives raises the counters only when no cap stands in the way. */
  lemma ArrivedCounts(s: Stream, data: seq<byte>, breach: bool)
    ensures var a := Arrived(s, data, breach);
            && a.id == s.id && a.closed == s.closed
            && ((a.recvBuffered == s.recvBuffered && a.recvFrames == s.recvFrames)
                || (!breach && a.recvBuffered == s.recvBuffered + |data| && a.recvFrames == s.recvFrames + 1))
  {
  }

  lemma FeedKeeps(c: Conn, h: nat, data: seq<byte>, ok: bool)
    requires Inv(c) && h < |c.objs| && !c.objs[h].closed && c.phase == Running
    ensures Inv(Feed(c, h, data, ok))
  {
    hide Inv, StreamInv, Arrived;
    StreamAt(c, h);
    ArrivedStream(c, h, data, ok);
    ArrivedCounts(c.objs[h], data, Breach(c, h, |data|, ok));
    Caps(c);
    SettleKeeps(c, h, Arrived(c.objs[h], data, Breach(c, h, |data|, ok)));
  }

  lemma EofStream(s: Stream, cfg: Config)
    requires StreamInv(s, cfg) && !s.closed
    ensures StreamInv(FeedEof(s), cfg)
  {
    hide QueueInv;
    EndRecvKeeps(s.hist.taken, s, LaneEof, s.hist.signal, cfg);
  }

  /** Nothing is behind the terminal, and none has been taken while something is queued. */
  lemma NothingBehindEnd(taken: seq<Item>, incoming: seq<Item>, recv: Lane, signal: Signal, cfg: Config)
    requires QueueInv(taken, incoming, recv, signal, cfg) && incoming != []
    ensures signal == NoSignal
    ensures incoming[0] == End ==> recv != LaneOpen
  {
    hide SmallItem;
    var q := taken + incoming;
    assert q[|taken|] == incoming[0];
    if taken != [] { assert q[|taken| - 1] == taken[|taken| - 1]; }
    if recv != LaneOpen && taken != [] { assert q[..|q| - 1][|taken| - 1] == q[|taken| - 1]; }
  }

  lemma TailSmall(incoming: seq<Item>, cfg: Config)
    requires incoming != [] && forall i | 0 <= i < |incoming| :: SmallItem(incoming[i], cfg)
    ensures SmallItem(incoming[0], cfg) && forall i | 0 <= i < |incoming[1..]| :: SmallItem(incoming[1..][i], cfg)
  {
    hide SmallItem;
  }

  lemma ReadQueue(taken: seq<Item>, incoming: seq<Item>, recv: Lane, signal: Signal, cfg: Config)
    requires QueueInv(taken, incoming, recv, signal, cfg) && incoming != []
    ensures SmallItem(incoming[0], cfg) && signal == NoSignal
    ensures incoming[0] == End ==> recv != LaneOpen
    ensures var signal' := if incoming[0] == End then (if recv == LaneReset then Rst else Fin) else signal;
            QueueInv(taken + [incoming[0]], incoming[1..], recv, signal', cfg)
  {
    hide SmallItem, LaneShape;
    NothingBehindEnd(taken, incoming, recv, signal, cfg);
    TailSmall(incoming, cfg);
    assert taken + [incoming[0]] + incoming[1..] == taken + incoming;
    assert (taken + [incoming[0]])[|taken|] == incoming[0];
  }

  lemma ReadCounts(s: Stream, cfg: Config)
    requires s.incoming != [] && CountInv(s.closed, s.recv, s.recvBuffered, s.recvFrames, s.incoming, cfg)
    ensures CountInv(s.closed, s.recv, Taken(s).recvBuffered, Taken(s).recvFrames, s.incoming[1..], cfg)
  {
    QueuePop(s.incoming);
    hide Bytes, Chunks;
  }

  lemma ReadLedger(s: Stream, cfg: Config)
    requires s.incoming != [] && s.hist.held == 0 && LedgerInv(s, cfg) && SmallItem(s.incoming[0], cfg) && cfg.window > 0
    ensures LedgerInv(Taken(s), cfg)
  {
    QueuePush(s.hist.taken, s.incoming[0]);
    hide Bytes, Chunks;
  }

  lemma ReadStream(s: Stream, cfg: Config)
    requires StreamInv(s, cfg) && s.incoming != [] && s.hist.held == 0 && cfg.window > 0
    ensures StreamInv(Taken(s), cfg)
  {
    hide QueueInv, CountInv, LaneInv, SenderInv, LedgerInv;
    ReadQueue(s.hist.taken, s.incoming, s.recv, s.hist.signal, cfg);
    ReadCounts(s, cfg);
    ReadLedger(s, cfg);
  }

  lemma ReadLowers(s: Stream)
    requires s.incoming != []
    ensures Taken(s).id == s.id && Taken(s).closed == s.closed
    ensures Taken(s).recvBuffered <= s.recvBuffered && Taken(s).recvFrames <= s.recvFrames
  {
  }

  lemma ReadKeeps(c: Conn, h: nat)
    requires Inv(c) && h < |c.objs| && c.objs[h].incoming != [] && c.objs[h].hist.held == 0
    ensures Inv(Read(c, h))
  {
    hide Inv, StreamInv;
    StreamAt(c, h);
    ConfigValid(c);
    ReadStream(c.objs[h], c.cfg);
    ReadLowers(c.objs[h]);
    LowerKeeps(c, h, Taken(c.objs[h]));
  }

  lemma AckStream(s: Stream, cfg: Config, wsOpen: bool)
    requires StreamInv(s, cfg) && cfg.Valid()
    ensures StreamInv(Acked(s, cfg, wsOpen), cfg)
    ensures s.unacked + s.hist.held < 0x1_0000_0000
  {
    hide QueueInv, CountInv;
  }

  lemma AckQuiet(s: Stream, cfg: Config, wsOpen: bool)
    ensures var a := Acked(s, cfg, wsOpen);
            a.id == s.id && a.closed == s.closed && a.recvBuffered == s.recvBuffered && a.recvFrames == s.recvFrames
  {
  }

  lemma CreditFits(id: u32, n: nat)
    requires id != 0 && 0 < n < 0x1_0000_0000
    ensures FrameFits(Frame(WINDOW_UPDATE, id, Pack32(n)))
  {
    UnpackPack(n);
    hide Pack32, Unpack32;
  }

  lemma AckKeeps(c: Conn, h: nat)
    requires Inv(c) && h < |c.objs|
    ensures Inv(Ack(c, h))
  {
    hide Inv, StreamInv, Acked, Pack32, FrameFits, Put, Emit, ResetInv, OutInv;
    assert c.cfg.Valid() by { ConfigValid(c); }
    var s := c.objs[h];
    var s' := Acked(s, c.cfg, c.wsOpen);
    StreamAt(c, h);
    AckStream(s, c.cfg, c.wsOpen);
    AckQuiet(s, c.cfg, c.wsOpen);
    NamedId(c, h);
    SamePutKeeps(c, h, s');
    if AckSends(s, c.cfg) {
      CreditFits(s.id, s.unacked + s.hist.held);
      PutSame(c, h, s');
      EmitKeeps(Put(c, h, s'), Frame(WINDOW_UPDATE, s.id, Pack32(s.unacked + s.hist.held)));
    }
  }

  lemma ConfigValid(c: Conn)
    requires Inv(c)
    ensures c.cfg.Valid()
  {
  }

  lemma PutSame(c: Conn, h: nat, s: Stream)
    requires h < |c.objs|
    ensures Put(c, h, s).cfg == c.cfg && Put(c, h, s).nextId == c.nextId
  {
  }

  // -- send direction

  lemma GrantStream(s: Stream, cfg: Config, delta: nat)
    requires StreamInv(s, cfg) && delta > 0
    ensures StreamInv(Grant(s, delta), cfg)
  {
    hide QueueInv, CountInv;
  }

  lemma GrantKeeps(c: Conn, h: nat, delta: nat)
    requires Inv(c) && h < |c.objs| && delta > 0
    ensures Inv(Put(c, h, Grant(c.objs[h], delta)))
  {
    hide Inv, StreamInv;
    StreamAt(c, h);
    GrantStream(c.objs[h], c.cfg, delta);
    SamePutKeeps(c, h, Grant(c.objs[h], delta));
  }

  lemma SendStream(s: Stream, cfg: Config, view: seq<byte>, wsOpen: bool)
    requires StreamInv(s, cfg) && (s.sender.Idle? ==> !s.sendEnded)
    ensures StreamInv(SendStep(s, view, wsOpen), cfg)
  {
    hide QueueInv, CountInv;
  }

  lemma SendQuiet(s: Stream, view: seq<byte>, wsOpen: bool)
    ensures var a := SendStep(s, view, wsOpen);
            a.id == s.id && a.closed == s.closed && a.recvBuffered == s.recvBuffered && a.recvFrames == s.recvFrames
  {
  }

  lemma SendLoopKeeps(c: Conn, h: nat, view: seq<byte>)
    requires Inv(c) && h < |c.objs|
    requires c.objs[h].sender.Idle? ==> !c.objs[h].sendEnded
    ensures Inv(SendLoop(c, h, view))
  {
    hide Inv, StreamInv, SendStep;
    var s := c.objs[h];
    var s' := SendStep(s, view, c.wsOpen);
    StreamAt(c, h);
    SendStream(s, c.cfg, view, c.wsOpen);
    SendQuiet(s, view, c.wsOpen);
    NamedId(c, h);
    SamePutKeeps(c, h, s');
    if Sends(s, view) { EmitKeeps(Put(c, h, s'), Frame(DATA, s.id, view[..SendSize(s, view)])); }
  }

  lemma EndSendStream(s: Stream, cfg: Config)
    requires StreamInv(s, cfg) && s.sender.Idle?
    ensures StreamInv(s.(sendEnded := true), cfg)
  {
    hide QueueInv, CountInv;
  }

  lemma SendEofKeeps(c: Conn, h: nat)
    requires Inv(c) && h < |c.objs| && c.objs[h].sender.Idle?
    ensures Inv(SendEof(c, h))
  {
    hide Inv, StreamInv;
    var s := c.objs[h];
    var s' := s.(sendEnded := true);
    StreamAt(c, h);
    EndSendStream(s, c.cfg);
    NamedId(c, h);
    SamePutKeeps(c, h, s');
    EmitKeeps(Put(c, h, s'), Frame(EOF, s.id, []));
  }

  lemma StallStream(s: Stream, cfg: Config)
    requires StreamInv(s, cfg)
    ensures StreamInv(s.(sender := Idle), cfg)
  {
    hide QueueInv, CountInv;
  }

  lemma StallKeeps(c: Conn, h: nat)
    requires Inv(c) && h < |c.objs|
    ensures Inv(Put(c, h, c.objs[h].(sender := Idle)))
  {
    hide Inv, StreamInv;
    StreamAt(c, h);
    StallStream(c.objs[h], c.cfg);
    SamePutKeeps(c, h, c.objs[h].(sender := Idle));
  }

  lemma ResetKeeps(c: Conn, h: nat)
    requires Inv(c) && h < |c.objs|
    ensures Inv(ResetStream(c, h))
  {
    hide Inv, CloseLocal;
    NamedId(c, h);
    CloseKeeps(c, h, LaneReset);
    CloseSameIds(c, h, LaneReset);
    EmitKeeps(CloseLocal(c, h, LaneReset), Frame(RESET, c.objs[h].id, []));
  }

  lemma FlushResetKeeps(c: Conn, id: u32)
    requires Inv(c) && id in c.resetSends
    ensures Inv(FlushReset(c, id))
  {
    hide RegInv, AccountInv, IdInv, OutInv, StreamsInv, EndedInv;
    EmitKeeps(c.(resetSends := c.resetSends - {id}), Frame(RESET, id, []));
  }

  // -- the frame reader

  lemma DispatchOpenKeeps(c: Conn, f: Frame)
    requires Inv(c) && c.phase == Running
    ensures Inv(DispatchOpen(c, f))
  {
    hide Inv;
    IgnoreKeeps(c);
    if f.sid != 0 && c.cfg.responder {
      SendResetKeeps(c, f.sid);
      if f.sid !in c.reg && |c.reg| < c.cfg.maxStreams { CreateKeeps(c, f.sid); }
    }
  }

  lemma DispatchRegisteredKeeps(c: Conn, f: Frame, ok: bool)
    requires Inv(c) && c.phase == Running && StreamFrame(f.ftype) && f.sid != 0 && Registered(c, f.sid)
    ensures Inv(Dispatch(c, f, ok))
  {
    hide Inv, StreamInv, Feed, CloseLocal, SendReset, Ignore, Grant, FeedEof;
    var h := c.reg[f.sid];
    RegisteredAt(c, f.sid);
    NamedId(c, h);
    if f.ftype == DATA {
      FeedKeeps(c, h, f.payload, ok);
    } else if f.ftype == EOF && f.payload == [] {
      FeedEofKeeps(c, h);
    } else if f.ftype == WINDOW_UPDATE && |f.payload| == 4 {
      IgnoreKeeps(c);
      if Unpack32(f.payload) != 0 { GrantKeeps(c, h, Unpack32(f.payload)); }
    } else {
      CloseKeeps(c, h, LaneReset);
      CloseSameIds(c, h, LaneReset);
      SendResetKeeps(CloseLocal(c, h, LaneReset), f.sid);
    }
  }

  lemma FeedEofKeeps(c: Conn, h: nat)
    requires Inv(c) && h < |c.objs| && !c.objs[h].closed
    ensures Inv(Put(c, h, FeedEof(c.objs[h])))
  {
    hide Inv, StreamInv;
    StreamAt(c, h);
    EofStream(c.objs[h], c.cfg);
    SamePutKeeps(c, h, FeedEof(c.objs[h]));
  }

  lemma GoawayKeeps(c: Conn, f: Frame)
    requires Inv(c) && c.phase == Running
    ensures Inv(DispatchGoaway(c, f))
  {
    hide RegInv, AccountInv, IdInv, ResetInv, OutInv, StreamsInv, EndedInv, Ignore;
    IgnoreKeeps(c);
  }

  lemma DispatchKeeps(c: Conn, f: Frame, ok: bool)
    requires Inv(c) && c.phase == Running
    ensures Inv(Dispatch(c, f, ok))
  {
    hide Inv, Ignore, DispatchOpen, DispatchGoaway, Feed, DispatchEof, DispatchCredit, CloseLocal;
    IgnoreKeeps(c);
    if f.ftype == OPEN {
      DispatchOpenKeeps(c, f);
    } else if f.ftype == GOAWAY {
      GoawayKeeps(c, f);
    } else if StreamFrame(f.ftype) && f.sid != 0 && Registered(c, f.sid) {
      DispatchRegisteredKeeps(c, f, ok);
    }
  }

  lemma {:induction false} AbortEachKeeps(c: Conn, hs: seq<nat>)
    requires Inv(c) && Below(hs, |c.objs|)
    ensures Inv(AbortEach(c, hs)) && |AbortEach(c, hs).objs| == |c.objs|
    ensures forall h | 0 <= h < |c.objs| && (h in hs || c.objs[h].closed) :: AbortEach(c, hs).objs[h].closed
    decreases |hs|
  {
    hide Inv, CloseLocal;
    if hs != [] {
      CloseKeeps(c, hs[0], LaneReset);
      CloseSameIds(c, hs[0], LaneReset);
      AbortEachKeeps(CloseLocal(c, hs[0], LaneReset), hs[1..]);
    }
  }

  lemma EveryEntryLive(c: Conn)
    requires Inv(c)
    ensures c.reg != map[] ==> exists h | 0 <= h < |c.objs| :: !c.objs[h].closed
  {
    hide StreamsInv, AccountInv, IdInv, ResetInv, DrainInv, OutInv, EndedInv;
    if c.reg != map[] {
      var id :| id in c.reg;
      assert !c.objs[c.reg[id]].closed;
    }
  }

  lemma AllClosed(c: Conn)
    requires Inv(c) && forall h | 0 <= h < |c.objs| :: c.objs[h].closed
    ensures c.reg == map[]
    ensures SumBuffered(c.objs) == 0 && SumFrames(c.objs) == 0
    ensures EndedInv(Ended, c.objs)
  {
    hide QueueInv, LaneInv, SenderInv, LedgerInv, AccountInv, IdInv, ResetInv, DrainInv, OutInv;
    EveryEntryLive(c);
    forall h | 0 <= h < |c.objs|
      ensures c.objs[h].recvBuffered == 0 && c.objs[h].recvFrames == 0
    {
      assert StreamInv(c.objs[h], c.cfg);
    }
    SumZero(c.objs);
  }

  lemma Listed(c: Conn, hs: seq<nat>)
    requires Inv(c) && Enabled(c, RunEnd(hs))
    ensures forall h | 0 <= h < |c.objs| :: h in hs || c.objs[h].closed
  {
    hide StreamsInv, AccountInv, IdInv, ResetInv, DrainInv, OutInv, EndedInv;
  }

  /** After `run` ends every stream is closed, and nothing is buffered, queued or reserved. */
  lemma FinishKeeps(c: Conn, hs: seq<nat>)
    requires Inv(c) && Enabled(c, RunEnd(hs))
    ensures Inv(Finish(c, hs))
    ensures Finish(c, hs).buffered == 0 && Finish(c, hs).frames == 0 && Finish(c, hs).reserved == 0
    ensures forall h | 0 <= h < |Finish(c, hs).objs| :: Finish(c, hs).objs[h].closed
  {
    hide RegInv, IdInv, OutInv, StreamsInv, EndedInv, AbortEach;
    Listed(c, hs);
    AbortEachKeeps(c, hs);
    AllClosed(AbortEach(c, hs));
  }

  /** What aborting some streams leaves: those closed off, and nothing else changed but the
      counters, the registry and its idle event. */
  lemma {:induction false} AbortForm(c: Conn, hs: seq<nat>)
    requires Inv(c) && Below(hs, |c.objs|)
    ensures var d := AbortEach(c, hs);
            && d == c.(objs := d.objs, reg := d.reg, buffered := d.buffered, frames := d.frames, reserved := d.reserved, idle := d.idle)
            && |d.objs| == |c.objs|
            && (forall h | 0 <= h < |c.objs| ::
                  d.objs[h] == if h in hs && !c.objs[h].closed then ClosedOff(c.objs[h], LaneReset) else c.objs[h])
            && (d.reg != map[] ==> c.reg != map[])
            && d.idle == (c.idle || (c.reg != map[] && d.reg == map[]))
    decreases |hs|
  {
    hide Inv, ClosedOff, CloseLocal;
    if hs != [] {
      var c1 := CloseLocal(c, hs[0], LaneReset);
      CloseKeeps(c, hs[0], LaneReset);
      CloseForm(c, hs[0]);
      AbortForm(c1, hs[1..]);
      assert forall h :: h in hs <==> h == hs[0] || h in hs[1..];
    }
  }

  lemma CloseForm(c: Conn, h: nat)
    requires Inv(c) && h < |c.objs|
    ensures var d := CloseLocal(c, h, LaneReset);
            && d == c.(objs := d.objs, reg := d.reg, buffered := d.buffered, frames := d.frames, reserved := d.reserved, idle := d.idle)
            && d.objs == (if c.objs[h].closed then c.objs else c.objs[h := ClosedOff(c.objs[h], LaneReset)])
            && (!c.objs[h].closed ==> c.reg != map[] && ClosedOff(c.objs[h], LaneReset).closed)
            && (d.reg != map[] ==> c.reg != map[])
            && d.idle == (c.idle || (c.reg != map[] && d.reg == map[]))
  {
    hide StreamsInv, AccountInv, IdInv, ResetInv, DrainInv, OutInv, EndedInv;
  }

  /** The clean-up comes out the same in whatever order it takes the streams. */
  lemma FinishAnyOrder(c: Conn, hs: seq<nat>, ks: seq<nat>)
    requires Inv(c) && Enabled(c, RunEnd(hs)) && Enabled(c, RunEnd(ks))
    ensures Finish(c, hs) == Finish(c, ks)
  {
    hide Inv, AbortEach, ClosedOff, Enabled;
    EnabledBelow(c, hs);
    EnabledBelow(c, ks);
    AbortForm(c, hs);
    AbortForm(c, ks);
    Listed(c, hs);
    Listed(c, ks);
    FinishKeeps(c, hs);
    FinishKeeps(c, ks);
    AbortEachKeeps(c, hs);
    AbortEachKeeps(c, ks);
    AllClosed(AbortEach(c, hs));
    AllClosed(AbortEach(c, ks));
    assert AbortEach(c, hs).objs == AbortEach(c, ks).objs;
  }

  lemma EnabledBelow(c: Conn, hs: seq<nat>)
    requires Enabled(c, RunEnd(hs))
    ensures Below(hs, |c.objs|)
  {
  }

  // -- whole runs

  lemma InitInv(cfg: Config)
    requires cfg.Valid()
    ensures Inv(Init(cfg))
  {
  }

  lemma ConnStepKeeps(c: Conn, e: Event)
    requires Inv(c) && Enabled(c, e) && (e.GoawayE? || e.DrainE? || e.DrainWakeE? || e.DrainTimeoutE? || e.LinkDown?)
    ensures Inv(Step(c, e))
  {
    hide RegInv, AccountInv, ResetInv, StreamsInv, EndedInv;
  }

  lemma SenderNotEnded(c: Conn, h: nat)
    requires Inv(c) && h < |c.objs| && !c.objs[h].sender.Idle?
    ensures !c.objs[h].sendEnded
  {
    StreamAt(c, h);
  }

  /** Every step any task can take, whatever the peer sent, keeps the invariant. */
  lemma StepKeeps(c: Conn, e: Event)
    requires Inv(c) && Enabled(c, e)
    ensures Inv(Step(c, e))
  {
    hide Inv, Dispatch, SendLoop, SendEof, Read, Ack, CloseLocal, ResetStream, FlushReset, OpenStream, Finish, Ignore;
    match e
    case Recv(m, ok) =>
      IgnoreKeeps(c);
      if m.Binary? && Decode(m.bytes).Some? { DispatchKeeps(c, Decode(m.bytes).value, ok); }
    case RunEnd(hs) => FinishKeeps(c, hs);
    case OpenE => OpenKeeps(c);
    case StartSendE(h, data) => if !c.objs[h].sendEnded { SendLoopKeeps(c, h, data); }
    case ResumeE(h) => SenderNotEnded(c, h); SendLoopKeeps(c, h, c.objs[h].sender.view);
    case WakeE(h) => SenderNotEnded(c, h); SendLoopKeeps(c, h, c.objs[h].sender.view);
    case StallE(h) => StallKeeps(c, h);
    case SendEofE(h) => SendEofKeeps(c, h);
    case ReadE(h) => ReadKeeps(c, h);
    case AckE(h) => AckKeeps(c, h);
    case CloseE(h) => CloseKeeps(c, h, LaneEof);
    case ResetE(h) => ResetKeeps(c, h);
    case FlushResetE(id) => FlushResetKeeps(c, id);
    case _ => ConnStepKeeps(c, e);
  }

  lemma {:induction false} RunKeeps(c: Conn, es: seq<Event>)
    requires Inv(c) && Run(c, es).Some?
    ensures Inv(Run(c, es).value)
    decreases |es|
  {
    if es != [] {
      StepKeeps(c, es[0]);
      RunKeeps(Step(c, es[0]), es[1..]);
    }
  }
}
