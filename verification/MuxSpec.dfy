/** One end of a multiplexed connection, as a value, and its atomic steps.

    asyncio runs a task undisturbed from one await to the next, so each function below is the
    code between two awaits. `objs` holds every Stream object ever built, in creation order: the
    registry `_streams` maps an id to an index into it, because a torn-down object goes on
    being read by its consumer and because a peer may reuse an id for a new object.

    `out` is everything the WebSocket has accepted for sending, oldest first. */
module MuxSpec {
  import opened Wire

  const FLOW_WINDOW := 256 * 1024
  const MAX_FLOW_WINDOW := 16 * 1024 * 1024
  const MAX_WS_MESSAGE := 256 * 1024
  const MAX_FRAME_PAYLOAD := MAX_WS_MESSAGE - PREFIX_SIZE
  const MAX_SEND_WINDOW := 0x7FFF_FFFF
  const MAX_STREAMS := 4096
  const MAX_CONN_BUFFERED := 64 * 1024 * 1024
  const MAX_CONN_FRAMES := 1_048_576
  const MAX_IGNORED_FRAMES := 65_536

  /** The receive direction's state. */
  datatype Lane = LaneOpen | LaneEof | LaneReset

  /** What sits in a receive queue: bytes, or the consumer's terminal `None`. */
  datatype Item = Chunk(bytes: seq<byte>) | End

  /** The task holding the send lock: at the await inside `_mux._send`, or parked on the window
      event. `view` is what it has still to send. */
  datatype Sender = Idle | Sending(view: seq<byte>) | Parked(view: seq<byte>)

  /** What the consumer pump did to the downstream socket when the direction ended. */
  datatype Signal = NoSignal | Fin | Rst

  /** History of one Stream. The program does not keep it; no step below reads it. */
  datatype History = History(
    taken: seq<Item>,   // items the consumer has read
    held: nat,          // bytes read and not yet acked (the pump's current chunk)
    sent: seq<byte>,    // bytes put into DATA frames the WebSocket accepted
    unsent: nat,        // bytes debited whose frame the dead WebSocket refused
    granted: nat,       // credit received
    credited: nat,      // credit returned in WINDOW_UPDATE frames
    uncredited: nat,    // bytes acked whose credit was never returned
    dropped: nat,       // bytes discarded on arrival
    peerEof: bool,      // the lane ended because of an EOF frame
    signal: Signal)

  datatype Stream = Stream(
    id: u32,
    incoming: seq<Item>,
    recv: Lane,
    recvBuffered: int,
    recvFrames: int,
    unacked: nat,
    window: int,
    sendEnded: bool,
    waiter: bool,
    closed: bool,
    sender: Sender,
    resetQueued: bool,  // the backstop has spawned reset()
    hist: History)

  datatype Config = Config(window: int, maxStreams: nat, responder: bool)
  {
    /** `validate_flow_window` */
    predicate Valid() { 1 <= window <= MAX_FLOW_WINDOW }

    function Threshold(): int { if window / 2 < 1 then 1 else window / 2 }
    function HardMax(): int { 2 * window }
    function MaxQueued(): int { window }
  }

  /** `Stopping` is the frame reader past its loop and before its clean-up. */
  datatype Phase = Running | Stopping | Ended

  datatype Conn = Conn(
    cfg: Config,
    objs: seq<Stream>,
    reg: map<u32, nat>,
    nextId: nat,
    buffered: int,
    frames: int,
    reserved: int,        // what this connection holds of the account's buffer
    goingAway: bool,
    peerGoingAway: bool,
    goawayCalls: nat,     // times on_goaway has fired
    idle: bool,
    parkedDrains: nat,    // drain() calls waiting on the idle event
    resetSends: set<u32>,
    ignored: nat,
    wsOpen: bool,
    phase: Phase,
    out: seq<Frame>)

  datatype Message = Text | Binary(bytes: seq<byte>)

  function NewStream(id: u32, window: int): Stream {
    Stream(id, [], LaneOpen, 0, 0, 0, window, false, false, false, Idle, false,
           History([], 0, [], 0, 0, 0, 0, 0, false, NoSignal))
  }

  function Init(cfg: Config): Conn {
    Conn(cfg, [], map[], 1, 0, 0, 0, false, false, 0, false, 0, {}, 0, true, Running, [])
  }

  function Put(c: Conn, h: nat, s: Stream): Conn
    requires h < |c.objs|
  {
    c.(objs := c.objs[h := s])
  }

  /** Replace a stream and move the connection's counters by as much as its own. */
  function Settle(c: Conn, h: nat, s: Stream): Conn
    requires h < |c.objs|
  {
    Put(c, h, s).(buffered := c.buffered - c.objs[h].recvBuffered + s.recvBuffered,
                  frames := c.frames - c.objs[h].recvFrames + s.recvFrames,
                  reserved := c.reserved - c.objs[h].recvBuffered + s.recvBuffered)
  }

  /** A send on a dead WebSocket raises and leaves nothing behind. */
  function Emit(c: Conn, f: Frame): Conn {
    if c.wsOpen then c.(out := c.out + [f]) else c
  }

  function Min(a: int, b: int): int { if a < b then a else b }

  // -- receive direction

  function EndRecv(s: Stream, lane: Lane): Stream {
    if s.recv != LaneOpen then s else s.(recv := lane, incoming := s.incoming + [End])
  }

  function FeedEof(s: Stream): Stream {
    if s.recv != LaneOpen then s
    else EndRecv(s, LaneEof).(hist := s.hist.(peerEof := true))
  }

  /** Any backstop: per stream and per connection, by bytes and by frames, and the account. */
  predicate Overrun(cfg: Config, s: Stream, buffered: int, frames: int, n: nat, reserveOk: bool) {
    || s.recvBuffered + n > cfg.HardMax()
    || s.recvFrames + 1 > cfg.MaxQueued()
    || buffered + n > MAX_CONN_BUFFERED
    || frames + 1 > MAX_CONN_FRAMES
    || !reserveOk
  }

  predicate Breach(c: Conn, h: nat, n: nat, reserveOk: bool)
    requires h < |c.objs|
  {
    Overrun(c.cfg, c.objs[h], c.buffered, c.frames, n, reserveOk)
  }

  function Drop(s: Stream, n: nat): Stream {
    s.(hist := s.hist.(dropped := s.hist.dropped + n))
  }

  function Broken(s: Stream, n: nat): Stream {
    Drop(EndRecv(s, LaneReset).(resetQueued := true), n)
  }

  function Chunked(s: Stream, data: seq<byte>): Stream {
    s.(incoming := s.incoming + [Chunk(data)], recvBuffered := s.recvBuffered + |data|, recvFrames := s.recvFrames + 1)
  }

  function Arrived(s: Stream, data: seq<byte>, breach: bool): Stream {
    if s.recv != LaneOpen then Drop(s, |data|)
    else if data == [] then s
    else if breach then Broken(s, |data|)
    else Chunked(s, data)
  }

  /** `reserveOk` is the answer of the account's buffer callback, should it be asked. */
  function Feed(c: Conn, h: nat, data: seq<byte>, reserveOk: bool): Conn
    requires h < |c.objs|
  {
    Settle(c, h, Arrived(c.objs[h], data, Breach(c, h, |data|, reserveOk)))
  }

  /** The pump takes one item; on the terminal it signals the downstream socket. A read that
      comes after the teardown leaves the counters alone: the teardown has settled them. */
  function Taken(s: Stream): Stream
    requires s.incoming != []
  {
    var item := s.incoming[0];
    var s1 := s.(incoming := s.incoming[1..], hist := s.hist.(taken := s.hist.taken + [item]));
    match item
    case End => s1.(hist := s1.hist.(signal := if s.recv == LaneReset then Rst else Fin))
    case Chunk(b) =>
      var s2 := s1.(hist := s1.hist.(held := s.hist.held + |b|));
      if s.closed then s2 else s2.(recvBuffered := s.recvBuffered - |b|, recvFrames := s.recvFrames - 1)
  }

  function Read(c: Conn, h: nat): Conn
    requires h < |c.objs| && c.objs[h].incoming != []
  {
    Settle(c, h, Taken(c.objs[h]))
  }

  predicate AckCounts(s: Stream) { !s.closed && s.recv != LaneReset && s.hist.held > 0 }

  /** Credit is returned half a window at a time. */
  predicate AckSends(s: Stream, cfg: Config) {
    AckCounts(s) && s.unacked + s.hist.held >= cfg.Threshold()
  }

  function Acked(s: Stream, cfg: Config, wsOpen: bool): Stream {
    var n := s.hist.held;
    var delta := s.unacked + n;
    if !AckCounts(s) then s.(hist := s.hist.(held := 0, uncredited := s.hist.uncredited + n))
    else if !AckSends(s, cfg) then s.(unacked := delta, hist := s.hist.(held := 0))
    else if wsOpen && delta < 0x1_0000_0000 then
      s.(unacked := 0, hist := s.hist.(held := 0, credited := s.hist.credited + delta))
    else
      s.(unacked := 0, hist := s.hist.(held := 0, uncredited := s.hist.uncredited + delta))
  }

  /** The pump has flushed its chunk downstream and returns the credit. */
  function Ack(c: Conn, h: nat): Conn
    requires h < |c.objs|
  {
    var s := c.objs[h];
    var delta := s.unacked + s.hist.held;
    var c1 := Put(c, h, Acked(s, c.cfg, c.wsOpen));
    if AckSends(s, c.cfg) && delta < 0x1_0000_0000 then Emit(c1, Frame(WINDOW_UPDATE, s.id, Pack32(delta))) else c1
  }

  // -- send direction

  function Grant(s: Stream, delta: nat): Stream {
    var w := Min(s.window + delta, MAX_SEND_WINDOW);
    s.(window := w, waiter := true,
       hist := s.hist.(granted := s.hist.granted + if w < s.window then 0 else w - s.window))
  }

  predicate Sends(s: Stream, view: seq<byte>) {
    view != [] && !s.closed && !s.sendEnded && s.window > 0
  }

  function SendSize(s: Stream, view: seq<byte>): (n: nat)
    requires Sends(s, view)
    ensures 0 < n <= |view| && n <= s.window && n <= MAX_FRAME_PAYLOAD
    ensures n == |view| || n == s.window || n == MAX_FRAME_PAYLOAD
  {
    Min(Min(|view|, s.window), MAX_FRAME_PAYLOAD)
  }

  function SendStep(s: Stream, view: seq<byte>, wsOpen: bool): Stream {
    if view == [] || s.closed || s.sendEnded then s.(sender := Idle)
    else if s.window <= 0 then s.(sender := Parked(view), waiter := false)
    else
      var n := SendSize(s, view);
      if wsOpen then
        s.(window := s.window - n, sender := Sending(view[n..]), hist := s.hist.(sent := s.hist.sent + view[..n]))
      else
        s.(window := s.window - n, sender := Idle, hist := s.hist.(unsent := s.hist.unsent + n))
  }

  /** One pass of the loop of `send`, from where it holds the lock and `view` remains, up to the
      next await or the end. */
  function SendLoop(c: Conn, h: nat, view: seq<byte>): Conn
    requires h < |c.objs|
  {
    var s := c.objs[h];
    var c1 := Put(c, h, SendStep(s, view, c.wsOpen));
    if Sends(s, view) then Emit(c1, Frame(DATA, s.id, view[..SendSize(s, view)])) else c1
  }

  function StartSend(c: Conn, h: nat, data: seq<byte>): Conn
    requires h < |c.objs|
  {
    if c.objs[h].closed || c.objs[h].sendEnded then c else SendLoop(c, h, data)
  }

  function SendEof(c: Conn, h: nat): Conn
    requires h < |c.objs|
  {
    var s := c.objs[h];
    if s.closed || s.sendEnded then c
    else Emit(Put(c, h, s.(sendEnded := true)), Frame(EOF, s.id, []))
  }

  // -- teardown

  function Remove(c: Conn, id: u32): Conn {
    var r := c.reg - {id};
    c.(reg := r, idle := c.idle || r == map[])
  }

  function ClosedOff(s: Stream, lane: Lane): Stream {
    EndRecv(s.(closed := true, waiter := true, recvBuffered := 0, recvFrames := 0), lane)
  }

  function CloseLocal(c: Conn, h: nat, lane: Lane): Conn
    requires h < |c.objs|
  {
    if c.objs[h].closed then c
    else Remove(Settle(c, h, ClosedOff(c.objs[h], lane)), c.objs[h].id)
  }

  /** `reset()`: tear down, then tell the peer, the first time only. */
  function ResetStream(c: Conn, h: nat): Conn
    requires h < |c.objs|
  {
    if c.objs[h].closed then c
    else Emit(CloseLocal(c, h, LaneReset), Frame(RESET, c.objs[h].id, []))
  }

  // -- connection

  predicate Draining(c: Conn) { c.goingAway || c.peerGoingAway }

  function Create(c: Conn, id: u32): Conn {
    c.(objs := c.objs + [NewStream(id, c.cfg.window)], reg := c.reg[id := |c.objs|])
  }

  predicate OpenRefused(c: Conn) {
    Draining(c) || |c.reg| >= c.cfg.maxStreams || c.nextId > 0xFFFF_FFFF
  }

  /** The next id is spent before the stream exists. */
  function Allocate(c: Conn): Conn
    requires c.nextId <= 0xFFFF_FFFF
  {
    Create(c, c.nextId).(nextId := c.nextId + 1)
  }

  /** Announce a new stream; one whose OPEN cannot be sent is closed. */
  function Announce(c: Conn): Conn
    requires c.nextId <= 0xFFFF_FFFF
  {
    var c1 := Allocate(c);
    if c.wsOpen then Emit(c1, Frame(OPEN, c.nextId, [])) else CloseLocal(c1, |c.objs|, LaneEof)
  }

  /** `open()`: a refused open changes nothing. */
  function OpenStream(c: Conn): Conn {
    if OpenRefused(c) then c else Announce(c)
  }

  function Goaway(c: Conn): Conn {
    Emit(c.(goingAway := true), Frame(GOAWAY, 0, []))
  }

  /** One pass of the loop of `drain`: return, or clear the event and park. */
  function DrainLoop(c: Conn): Conn {
    if c.reg == map[] then c else c.(idle := false, parkedDrains := c.parkedDrains + 1)
  }

  function SendReset(c: Conn, id: u32): Conn {
    if id == 0 || id in c.resetSends || |c.resetSends| >= c.cfg.maxStreams then c
    else c.(resetSends := c.resetSends + {id})
  }

  function FlushReset(c: Conn, id: u32): Conn {
    Emit(c.(resetSends := c.resetSends - {id}), Frame(RESET, id, []))
  }

  /** A frame with nothing to act on. Too many of them break the connection. */
  function Ignore(c: Conn): Conn {
    var c1 := c.(ignored := c.ignored + 1);
    if c1.ignored < MAX_IGNORED_FRAMES then c1 else c1.(wsOpen := false, phase := Stopping)
  }

  predicate Registered(c: Conn, id: u32) { id in c.reg && c.reg[id] < |c.objs| }

  function DispatchOpen(c: Conn, f: Frame): Conn {
    if f.sid == 0 then Ignore(c)
    else if f.payload != [] then (if c.cfg.responder then SendReset(c, f.sid) else Ignore(c))
    else if !c.cfg.responder then Ignore(c)
    else if Draining(c) || f.sid in c.reg || |c.reg| >= c.cfg.maxStreams then SendReset(c, f.sid)
    else Create(c, f.sid)
  }

  function DispatchEof(c: Conn, f: Frame): Conn
    requires Registered(c, f.sid)
  {
    var h := c.reg[f.sid];
    if f.payload == [] then Put(c, h, FeedEof(c.objs[h]))
    else if c.objs[h].closed then c
    else SendReset(CloseLocal(c, h, LaneReset), f.sid)
  }

  function DispatchCredit(c: Conn, f: Frame): Conn
    requires Registered(c, f.sid)
  {
    var h := c.reg[f.sid];
    if |f.payload| == 4 then
      var delta := Unpack32(f.payload);
      if delta != 0 then Put(c, h, Grant(c.objs[h], delta)) else Ignore(c)
    else if c.objs[h].closed then c
    else SendReset(CloseLocal(c, h, LaneReset), f.sid)
  }

  function DispatchGoaway(c: Conn, f: Frame): Conn {
    if f.sid != 0 || f.payload != [] || c.peerGoingAway then Ignore(c)
    else c.(peerGoingAway := true, goawayCalls := c.goawayCalls + 1)
  }

  predicate StreamFrame(t: byte) { t == DATA || t == EOF || t == WINDOW_UPDATE || t == RESET }

  /** One frame through the loop of `run`. */
  function Dispatch(c: Conn, f: Frame, reserveOk: bool): Conn {
    if f.ftype == OPEN then DispatchOpen(c, f)
    else if f.ftype == GOAWAY then DispatchGoaway(c, f)
    else if !StreamFrame(f.ftype) || f.sid == 0 || !Registered(c, f.sid) then Ignore(c)
    else if f.ftype == DATA then Feed(c, c.reg[f.sid], f.payload, reserveOk)
    else if f.ftype == EOF then DispatchEof(c, f)
    else if f.ftype == WINDOW_UPDATE then DispatchCredit(c, f)
    else CloseLocal(c, c.reg[f.sid], LaneReset)
  }

  /** One WebSocket message through the loop of `run`. */
  function Receive(c: Conn, m: Message, reserveOk: bool): Conn {
    match m
    case Text => Ignore(c)
    case Binary(b) =>
      match Decode(b)
      case None => Ignore(c)
      case Some(f) => Dispatch(c, f, reserveOk)
  }

  predicate Below(hs: seq<nat>, n: nat) { forall i | 0 <= i < |hs| :: hs[i] < n }

  function AbortEach(c: Conn, hs: seq<nat>): (r: Conn)
    requires Below(hs, |c.objs|)
    decreases |hs|
  {
    if hs == [] then c else AbortEach(CloseLocal(c, hs[0], LaneReset), hs[1..])
  }

  /** The clean-up of `run`; `hs` lists the registered streams. */
  function Finish(c: Conn, hs: seq<nat>): Conn
    requires Below(hs, |c.objs|)
  {
    AbortEach(c, hs).(reg := map[], resetSends := {}, phase := Ended)
  }

  // -- events

  datatype Event =
    | Recv(m: Message, reserveOk: bool)
    | RunEnd(hs: seq<nat>)
    | OpenE
    | StartSendE(h: nat, data: seq<byte>)
    | ResumeE(h: nat)
    | WakeE(h: nat)
    | StallE(h: nat)
    | SendEofE(h: nat)
    | ReadE(h: nat)
    | AckE(h: nat)
    | CloseE(h: nat)
    | ResetE(h: nat)
    | FlushResetE(id: u32)
    | GoawayE
    | DrainE
    | DrainWakeE
    | DrainTimeoutE
    | LinkDown

  /** When a task can take the step. A `send` gives up when its credit or, the connection having
      been broken for it, its write has stalled; by then its frame may have gone out. Teardown by the owner of a stream and the death of the
      link can come at any time; the pump reads one chunk at a time. */
  predicate Enabled(c: Conn, e: Event) {
    match e
    case Recv(_, _) => c.phase == Running
    case RunEnd(hs) =>
      && c.phase != Ended && Below(hs, |c.objs|)
      && (forall id | id in c.reg :: c.reg[id] in hs)
      && (forall i | 0 <= i < |hs| :: hs[i] in c.reg.Values)
    case OpenE => !c.cfg.responder
    case StartSendE(h, _) => h < |c.objs| && c.objs[h].sender.Idle?
    case ResumeE(h) => h < |c.objs| && c.objs[h].sender.Sending?
    case WakeE(h) => h < |c.objs| && c.objs[h].sender.Parked? && c.objs[h].waiter
    case StallE(h) => h < |c.objs| && (c.objs[h].sender.Parked? || (c.objs[h].sender.Sending? && !c.wsOpen))
    case SendEofE(h) => h < |c.objs| && c.objs[h].sender.Idle?
    case ReadE(h) => h < |c.objs| && c.objs[h].incoming != [] && c.objs[h].hist.held == 0
    case AckE(h) => h < |c.objs| && c.objs[h].hist.held > 0
    case CloseE(h) => h < |c.objs|
    case ResetE(h) => h < |c.objs|
    case FlushResetE(id) => id in c.resetSends
    case DrainE => c.goingAway
    case DrainWakeE => c.parkedDrains > 0 && c.idle
    case DrainTimeoutE => c.parkedDrains > 0
    case _ => true
  }

  function Step(c: Conn, e: Event): Conn
    requires Enabled(c, e)
  {
    match e
    case Recv(m, ok) => Receive(c, m, ok)
    case RunEnd(hs) => Finish(c, hs)
    case OpenE => OpenStream(c)
    case StartSendE(h, data) => StartSend(c, h, data)
    case ResumeE(h) => SendLoop(c, h, c.objs[h].sender.view)
    case WakeE(h) => SendLoop(c, h, c.objs[h].sender.view)
    case StallE(h) => Put(c, h, c.objs[h].(sender := Idle))
    case SendEofE(h) => SendEof(c, h)
    case ReadE(h) => Read(c, h)
    case AckE(h) => Ack(c, h)
    case CloseE(h) => CloseLocal(c, h, LaneEof)
    case ResetE(h) => ResetStream(c, h)
    case FlushResetE(id) => FlushReset(c, id)
    case GoawayE => Goaway(c)
    case DrainE => DrainLoop(c)
    case DrainWakeE => DrainLoop(c.(parkedDrains := c.parkedDrains - 1))
    case DrainTimeoutE => c.(parkedDrains := c.parkedDrains - 1)
    case LinkDown => c.(wsOpen := false)
  }

  /** A run from `c` along `es`, if every step is enabled. */
  function Run(c: Conn, es: seq<Event>): Option<Conn>
    decreases |es|
  {
    if es == [] then Some(c)
    else if Enabled(c, es[0]) then Run(Step(c, es[0]), es[1..])
    else None
  }
}
