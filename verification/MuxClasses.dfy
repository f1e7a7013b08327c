/** The multiplexer as it is written: Stream and Mux objects that update their fields in place.

    A Stream method's contract is local: the stream's new value, and what the multiplexer's
    counters, registry and log became. A Mux method's contract is the step of MuxSpec that the
    whole connection takes; `Perform` puts the two together for every event. */
module MuxClasses {
  import opened Wire
  import S = MuxSpec
  import I = MuxInvariant

  /** The log after handing over `f`. */
  function Log(out: seq<Frame>, f: Frame, wsOpen: bool): seq<Frame> {
    if wsOpen then out + [f] else out
  }

  class Stream {
    const mux: Mux
    const id: u32
    const handle: nat           // creation order, which is the object's identity in MuxSpec

    var incoming: seq<S.Item>
    var recv: S.Lane
    var recvBuffered: int
    var recvFrames: int
    var unacked: nat
    var sendWindow: int
    var sendEnded: bool
    var windowWaiter: bool
    var closed: bool
    var sender: S.Sender
    var resetQueued: bool
    var flushing: nat           // length of the chunk the pump is writing downstream
    ghost var hist: S.History   // a record the program does not keep

    constructor (mux: Mux, id: u32, handle: nat)
      ensures this.mux == mux && this.id == id && this.handle == handle
      ensures State() == S.NewStream(id, mux.flowWindow) && Pumped()
    {
      this.mux, this.id, this.handle := mux, id, handle;
      incoming, recv, recvBuffered, recvFrames, unacked := [], S.LaneOpen, 0, 0, 0;
      sendWindow, sendEnded, windowWaiter := mux.flowWindow, false, false;
      closed, sender, resetQueued, flushing := false, S.Idle, false, 0;
      hist := S.History([], 0, [], 0, 0, 0, 0, 0, false, S.NoSignal);
    }

    ghost predicate Pumped()
      reads this
    {
      flushing == hist.held
    }

    ghost function State(): S.Stream
      reads this
    {
      S.Stream(id, incoming, recv, recvBuffered, recvFrames, unacked, sendWindow, sendEnded, windowWaiter, closed,
               sender, resetQueued, hist)
    }

    // -- send direction

    /** The body of `send` from one await to the next, with `view` still to send. */
    method SendPass(view: seq<byte>)
      modifies this, mux`out
      ensures State() == S.SendStep(old(State()), view, mux.wsOpen)
      ensures mux.out == if S.Sends(old(State()), view)
                         then Log(old(mux.out), Frame(DATA, id, view[..S.SendSize(old(State()), view)]), mux.wsOpen)
                         else old(mux.out)
      ensures old(Pumped()) ==> Pumped()
    {
      if |view| == 0 {
        sender := S.Idle;
      } else if closed || sendEnded {
        sender := S.Idle;
      } else if sendWindow <= 0 {
        windowWaiter := false;
        sender := S.Parked(view);
      } else {
        var n := S.Min(S.Min(|view|, sendWindow), S.MAX_FRAME_PAYLOAD);
        sendWindow := sendWindow - n;
        var sent := mux.Send(DATA, id, view[..n]);
        if sent {
          hist := hist.(sent := hist.sent + view[..n]);
          sender := S.Sending(view[n..]);
        } else {
          hist := hist.(unsent := hist.unsent + n);
          sender := S.Idle;
        }
      }
    }

    /** `send`, once it has the lock. */
    method StartSend(data: seq<byte>)
      modifies this, mux`out
      ensures old(closed || sendEnded) ==> State() == old(State()) && mux.out == old(mux.out)
      ensures !old(closed || sendEnded) ==>
        && State() == S.SendStep(old(State()), data, mux.wsOpen)
        && mux.out == if S.Sends(old(State()), data)
                      then Log(old(mux.out), Frame(DATA, id, data[..S.SendSize(old(State()), data)]), mux.wsOpen)
                      else old(mux.out)
      ensures old(Pumped()) ==> Pumped()
    {
      if closed || sendEnded { return; }
      SendPass(data);
    }

    /** A `send` gives up: the peer's window has stayed shut, or its write has stalled, too long. */
    method Stall()
      modifies this`sender
      ensures State() == old(State()).(sender := S.Idle)
    {
      sender := S.Idle;
    }

    /** `send_eof`, once it has the lock. */
    method SendEof()
      modifies this`sendEnded, mux`out
      ensures old(closed || sendEnded) ==> State() == old(State()) && mux.out == old(mux.out)
      ensures !old(closed || sendEnded) ==>
        && State() == old(State()).(sendEnded := true)
        && mux.out == Log(old(mux.out), Frame(EOF, id, []), mux.wsOpen)
    {
      if closed || sendEnded { return; }
      sendEnded := true;
      var _ := mux.Send(EOF, id, []);
    }

    method Grant(delta: nat)
      modifies this
      ensures State() == S.Grant(old(State()), delta)
      ensures old(Pumped()) ==> Pumped()
    {
      var w := S.Min(sendWindow + delta, S.MAX_SEND_WINDOW);
      hist := hist.(granted := hist.granted + if w < sendWindow then 0 else w - sendWindow);
      sendWindow := w;
      windowWaiter := true;
    }

    // -- receive direction

    /** `read`, when the queue has something; and what the pump does on the terminal. */
    method Read() returns (chunk: S.Item)
      requires incoming != []
      modifies this, mux`buffered, mux`frames, mux`reserved
      ensures chunk == old(incoming)[0]
      ensures State() == S.Taken(old(State()))
      ensures mux.CountersFollow(old(recvBuffered), old(recvFrames), this)
      ensures old(Pumped()) ==> Pumped()
    {
      chunk := incoming[0];
      incoming := incoming[1..];
      if chunk.Chunk? {
        var n := |chunk.bytes|;
        hist := hist.(taken := hist.taken + [chunk], held := hist.held + n);
        flushing := flushing + n;
        if !closed {
          Unqueue(n);
        }
      } else {
        hist := hist.(taken := hist.taken + [chunk], signal := if recv == S.LaneReset then S.Rst else S.Fin);
      }
    }

    /** One chunk of `n` bytes leaves the counters. */
    method Unqueue(n: nat)
      modifies this`recvBuffered, this`recvFrames, mux`buffered, mux`frames, mux`reserved
      ensures State() == old(State()).(recvBuffered := old(recvBuffered) - n, recvFrames := old(recvFrames) - 1)
      ensures mux.CountersFollow(old(recvBuffered), old(recvFrames), this)
    {
      recvBuffered := recvBuffered - n;
      recvFrames := recvFrames - 1;
      mux.buffered := mux.buffered - n;
      mux.frames := mux.frames - 1;
      mux.ReleaseBuffer(n);
    }

    /** `ack(n)`, called by the pump with the length of the chunk it has flushed. */
    method Ack(n: nat)
      requires n == flushing && Pumped() && mux.Limits()
      modifies this, mux`out
      ensures State() == S.Acked(old(State()), mux.Config(), mux.wsOpen)
      ensures mux.out == var delta := old(unacked + hist.held);
                         if S.AckSends(old(State()), mux.Config()) && delta < 0x1_0000_0000
                         then Log(old(mux.out), Frame(WINDOW_UPDATE, id, Pack32(delta)), mux.wsOpen)
                         else old(mux.out)
      ensures Pumped()
    {
      hide Pack32;
      flushing := 0;
      if closed || recv == S.LaneReset || n <= 0 {
        hist := hist.(held := 0, uncredited := hist.uncredited + n);
        return;
      }
      var delta := unacked + n;
      if delta < mux.windowUpdateThreshold {
        unacked := delta;
        hist := hist.(held := 0);
        return;
      }
      unacked := 0;
      var sent := false;
      if delta < 0x1_0000_0000 { sent := mux.Send(WINDOW_UPDATE, id, Pack32(delta)); }
      hist := if sent then hist.(held := 0, credited := hist.credited + delta)
              else hist.(held := 0, uncredited := hist.uncredited + delta);
    }

    method EndRecv(lane: S.Lane)
      modifies this`recv, this`incoming
      ensures State() == S.EndRecv(old(State()), lane)
    {
      if recv != S.LaneOpen { return; }
      recv := lane;
      incoming := incoming + [S.End];
    }

    /** `reserveOk` is what the account's callback answers if it is reached. */
    method Feed(data: seq<byte>, reserveOk: bool)
      requires mux.Limits()
      modifies this, mux`buffered, mux`frames, mux`reserved
      ensures State() == S.Arrived(old(State()), data,
                                   S.Overrun(mux.Config(), old(State()), old(mux.buffered), old(mux.frames), |data|, reserveOk))
      ensures mux.CountersFollow(old(recvBuffered), old(recvFrames), this)
      ensures old(Pumped()) ==> Pumped()
    {
      if recv != S.LaneOpen {
        hist := hist.(dropped := hist.dropped + |data|);
        return;
      }
      if |data| == 0 { return; }
      var nextStreamBuffered := recvBuffered + |data|;
      var nextStreamFrames := recvFrames + 1;
      var nextMuxBuffered := mux.buffered + |data|;
      var nextMuxFrames := mux.frames + 1;
      if || nextStreamBuffered > mux.streamHardMax || nextStreamFrames > mux.maxQueuedFrames
         || nextMuxBuffered > S.MAX_CONN_BUFFERED || nextMuxFrames > S.MAX_CONN_FRAMES || !reserveOk
      {
        EndRecv(S.LaneReset);
        resetQueued := true;
        hist := hist.(dropped := hist.dropped + |data|);
        return;
      }
      mux.reserved := mux.reserved + |data|;
      incoming := incoming + [S.Chunk(data)];
      recvBuffered := nextStreamBuffered;
      recvFrames := nextStreamFrames;
      mux.buffered := nextMuxBuffered;
      mux.frames := nextMuxFrames;
    }

    method FeedEof()
      modifies this
      ensures State() == S.FeedEof(old(State()))
      ensures old(Pumped()) ==> Pumped()
    {
      if recv == S.LaneOpen { hist := hist.(peerEof := true); }
      EndRecv(S.LaneEof);
    }

    // -- teardown

    method Unbuffer()
      requires recvBuffered >= 0
      modifies this`recvBuffered, this`recvFrames, mux`buffered, mux`frames, mux`reserved
      ensures State() == old(State()).(recvBuffered := 0, recvFrames := 0)
      ensures mux.CountersFollow(old(recvBuffered), old(recvFrames), this)
    {
      mux.buffered := mux.buffered - recvBuffered;
      mux.frames := mux.frames - recvFrames;
      mux.ReleaseBuffer(recvBuffered);
      recvBuffered := 0;
      recvFrames := 0;
    }

    /** Settle the counters, end the lane and leave the registry, the first time only. */
    method CloseLocal(lane: S.Lane)
      requires recvBuffered >= 0
      modifies this, mux`buffered, mux`frames, mux`reserved, mux`streams, mux`idle
      ensures State() == if old(closed) then old(State()) else S.ClosedOff(old(State()), lane)
      ensures mux.CountersFollow(old(recvBuffered), old(recvFrames), this)
      ensures closed && recvBuffered >= 0
      ensures old(closed) ==> mux.streams == old(mux.streams) && mux.idle == old(mux.idle)
      ensures !old(closed) ==> mux.Deregistered(id)
      ensures old(Pumped()) ==> Pumped()
    {
      if closed { return; }
      closed := true;
      windowWaiter := true;
      Unbuffer();
      EndRecv(lane);
      mux.Remove(id);
    }

    /** `reset`: tear down and, the first time only, tell the peer. */
    method Reset()
      requires recvBuffered >= 0
      modifies this, mux`buffered, mux`frames, mux`reserved, mux`streams, mux`idle, mux`out
      ensures State() == if old(closed) then old(State()) else S.ClosedOff(old(State()), S.LaneReset)
      ensures mux.CountersFollow(old(recvBuffered), old(recvFrames), this)
      ensures closed && recvBuffered >= 0
      ensures old(closed) ==> mux.streams == old(mux.streams) && mux.idle == old(mux.idle)
      ensures !old(closed) ==> mux.Deregistered(id)
      ensures mux.out == if old(closed) then old(mux.out) else Log(old(mux.out), Frame(RESET, id, []), mux.wsOpen)
      ensures old(Pumped()) ==> Pumped()
    {
      var first := !closed;
      CloseLocal(S.LaneReset);
      if first { var _ := mux.Send(RESET, id, []); }
    }
  }

  class Mux {
    const flowWindow: int
    const windowUpdateThreshold: int
    const streamHardMax: int
    const maxQueuedFrames: int
    const maxStreams: nat
    const responder: bool         // an on_open callback was given

    var streams: map<u32, Stream>
    var nextId: nat
    var resetSends: set<u32>
    var buffered: int
    var frames: int
    var reserved: int             // net of the account's reserve and release callbacks
    var goingAway: bool
    var peerGoingAway: bool
    var goawayCalls: nat
    var idle: bool
    var parkedDrains: nat
    var ignored: nat
    var wsOpen: bool
    var phase: S.Phase
    var out: seq<Frame>
    var all: seq<Stream>          // every Stream built, in order: what tasks may still refer to

    /** Without a negotiated window the module's default applies, with its own derived limits. */
    constructor (flow: Option<int>, maxStreams: nat, responder: bool)
      requires flow.Some? ==> 1 <= flow.value <= S.MAX_FLOW_WINDOW
      ensures Valid() && all == []
      ensures Abs() == S.Init(S.Config(flow.GetOr(S.FLOW_WINDOW), maxStreams, responder))
    {
      match flow {
        case None =>
          flowWindow := S.FLOW_WINDOW;
          windowUpdateThreshold := if S.FLOW_WINDOW / 2 > 1 then S.FLOW_WINDOW / 2 else 1;
          streamHardMax := 2 * S.FLOW_WINDOW;
          maxQueuedFrames := S.FLOW_WINDOW;
        case Some(w) =>
          flowWindow := w;
          windowUpdateThreshold := if w / 2 > 1 then w / 2 else 1;
          streamHardMax := 2 * w;
          maxQueuedFrames := w;
      }
      this.maxStreams, this.responder := maxStreams, responder;
      streams, nextId, resetSends := map[], 1, {};
      buffered, frames, reserved := 0, 0, 0;
      goingAway, peerGoingAway, goawayCalls := false, false, 0;
      idle, parkedDrains, ignored := false, 0, 0;
      wsOpen, phase, out, all := true, S.Running, [], [];
    }

    // -- what the fields stand for

    ghost function Config(): S.Config { S.Config(flowWindow, maxStreams, responder) }

    ghost function Objs(): (r: seq<S.Stream>)
      reads this, all
      ensures |r| == |all| && forall i | 0 <= i < |all| :: r[i] == all[i].State()
    {
      seq(|all|, i requires 0 <= i < |all| reads this, all => all[i].State())
    }

    /** The registry by creation order. */
    ghost function Reg(): map<u32, nat>
      reads this
    {
      map id | id in streams :: streams[id].handle
    }

    ghost function Abs(): S.Conn
      reads this, all
    {
      S.Conn(Config(), Objs(), Reg(), nextId, buffered, frames, reserved, goingAway, peerGoingAway, goawayCalls, idle,
             parkedDrains, resetSends, ignored, wsOpen, phase, out)
    }

    ghost predicate Limits() {
      && windowUpdateThreshold == Config().Threshold()
      && streamHardMax == Config().HardMax() && maxQueuedFrames == Config().MaxQueued()
    }

    ghost predicate Valid()
      reads this, all
    {
      && Limits()
      && (forall i | 0 <= i < |all| :: all[i].handle == i && all[i].mux == this && all[i].Pumped())
      && (forall id | id in streams :: streams[id].handle < |all| && all[streams[id].handle] == streams[id] && streams[id].id == id)
    }

    /** Streams are only ever added. */
    twostate predicate Grows()
      reads this, all
    {
      && |old(all)| <= |all| && all[..|old(all)|] == old(all)
      && forall k | |old(all)| <= k < |all| :: fresh(all[k])
    }

    twostate lemma StaysPut()
      requires all == old(all)
      ensures Grows()
    {
    }

    /** Of the streams at most `h` changed. */
    twostate predicate OnlyStream(h: nat)
      reads this, all
    {
      && old(Valid()) && Valid() && all == old(all) && h < |all|
      && forall i | 0 <= i < |all| && i != h :: unchanged(all[i])
    }

    twostate lemma Same()
      requires old(Valid()) && Valid() && all == old(all)
      requires forall i | 0 <= i < |all| :: unchanged(all[i])
      ensures old(Abs()) == S.Conn(Config(), old(Objs()), old(Reg()), old(nextId), old(buffered), old(frames), old(reserved),
                                   old(goingAway), old(peerGoingAway), old(goawayCalls), old(idle), old(parkedDrains),
                                   old(resetSends), old(ignored), old(wsOpen), old(phase), old(out))
      ensures Abs() == S.Conn(Config(), old(Objs()), Reg(), nextId, buffered, frames, reserved, goingAway, peerGoingAway,
                              goawayCalls, idle, parkedDrains, resetSends, ignored, wsOpen, phase, out)
      ensures |old(Objs())| == |all|
      ensures streams == old(streams) ==> Reg() == old(Reg())
    {
      assert Objs() == old(Objs());
    }

    lemma RegSize()
      ensures |Reg()| == |streams|
    {
      assert Reg().Keys == streams.Keys;
    }

    lemma RegEmpty()
      ensures streams == map[] <==> Reg() == map[]
    {
      assert Reg().Keys == streams.Keys;
    }

    twostate lemma Removed(id: nat)
      requires Deregistered(id) && old(Valid()) && all == old(all)
      requires forall i | 0 <= i < |all| :: all[i].mux == this && all[i].Pumped()
      ensures Valid()
      ensures Reg() == old(Reg()) - {id}
      ensures idle == (old(idle) || Reg() == map[])
    {
      RegEmpty();
    }

    /** What the connection became, when of the streams at most `h` changed. */
    twostate lemma Becomes(h: nat)
      requires OnlyStream(h)
      ensures Objs() == old(Objs())[h := all[h].State()]
      ensures old(Objs())[h] == old(all[h].State()) && |old(Objs())| == |all|
      ensures old(Abs()) == S.Conn(Config(), old(Objs()), old(Reg()), old(nextId), old(buffered), old(frames), old(reserved),
                                   old(goingAway), old(peerGoingAway), old(goawayCalls), old(idle), old(parkedDrains),
                                   old(resetSends), old(ignored), old(wsOpen), old(phase), old(out))
      ensures Abs() == S.Conn(Config(), old(Objs())[h := all[h].State()], Reg(), nextId, buffered, frames, reserved,
                              goingAway, peerGoingAway, goawayCalls, idle, parkedDrains, resetSends, ignored,
                              wsOpen, phase, out)
      ensures streams == old(streams) ==> Reg() == old(Reg())
    {
    }

    /** The counters moved by as much as the stream's own. */
    twostate predicate CountersFollow(bytes: int, chunks: int, s: Stream)
      reads this, s
    {
      && buffered == old(buffered) - bytes + s.recvBuffered
      && frames == old(frames) - chunks + s.recvFrames
      && reserved == old(reserved) - bytes + s.recvBuffered
    }

    /** The id left the registry, and an empty registry wakes the drains. */
    twostate predicate Deregistered(id: nat)
      reads this
    {
      && id < 0x1_0000_0000
      && streams == old(streams) - {id}
      && idle == (old(idle) || streams == map[])
    }

    twostate lemma TornDown(h: nat)
      requires old(Valid()) && all == old(all) && h < |all| && Deregistered(all[h].id) && all[h].Pumped()
      requires CountersFollow(old(all[h].recvBuffered), old(all[h].recvFrames), all[h])
      requires forall i | 0 <= i < |all| && i != h :: unchanged(all[i])
      requires unchanged(`nextId, `resetSends, `goingAway, `peerGoingAway, `goawayCalls, `parkedDrains, `ignored, `wsOpen,
                         `phase)
      ensures Valid() && old(Abs()).objs[h] == old(all[h].State())
      ensures var d := S.Remove(S.Settle(old(Abs()), h, all[h].State()), all[h].id);
              && d.out == old(out) && d.wsOpen == wsOpen && Abs() == d.(out := out)
              && (out == old(out) ==> Abs() == d)
    {
      hide Mux.Deregistered, Mux.Objs, Mux.Reg;
      Removed(all[h].id);
      Becomes(h);
    }

    /** `_send`, up to its await: the WebSocket takes the frame or the send raises. */
    method Send(ftype: byte, sid: u32, payload: seq<byte>) returns (sent: bool)
      modifies this`out
      ensures sent == wsOpen
      ensures out == Log(old(out), Frame(ftype, sid, payload), wsOpen)
    {
      sent := wsOpen;
      if wsOpen { out := out + [Frame(ftype, sid, payload)]; }
    }

    method ReleaseBuffer(n: int)
      modifies this`reserved
      ensures reserved == old(reserved) - if n > 0 then n else 0
    {
      if n <= 0 { return; }
      reserved := reserved - n;
    }

    method Remove(sid: u32)
      modifies this`streams, this`idle
      ensures Deregistered(sid)
    {
      streams := streams - {sid};
      if streams == map[] { idle := true; }
    }

    /** `_send_reset`: queue one RESET per id, and drop it when too many are queued. */
    method SendReset(sid: u32)
      requires Valid()
      modifies this`resetSends
      ensures Valid() && Abs() == S.SendReset(old(Abs()), sid)
    {
      Same();
      if sid == 0 || sid in resetSends { return; }
      if |resetSends| >= maxStreams { return; }
      resetSends := resetSends + {sid};
    }

    /** The spawned task of `_send_reset`. */
    method FlushReset(sid: u32)
      requires Valid()
      modifies this`resetSends, this`out
      ensures Valid() && Abs() == S.FlushReset(old(Abs()), sid)
    {
      resetSends := resetSends - {sid};
      var _ := Send(RESET, sid, []);
      Same();
    }

    /** `_ignore_frame`: true once the connection has to go. */
    method IgnoreFrame() returns (stop: bool)
      modifies this`ignored, this`wsOpen
      ensures ignored == old(ignored) + 1
      ensures stop == (ignored >= S.MAX_IGNORED_FRAMES)
      ensures wsOpen == (old(wsOpen) && !stop)
    {
      ignored := ignored + 1;
      stop := ignored >= S.MAX_IGNORED_FRAMES;
      if stop { wsOpen := false; }
    }

    method Goaway()
      requires Valid()
      modifies this`goingAway, this`out
      ensures Valid() && Abs() == S.Goaway(old(Abs()))
    {
      goingAway := true;
      var _ := Send(GOAWAY, 0, []);
      Same();
    }

    /** One pass of the loop of `drain`: done, or parked on the event just cleared. */
    method DrainPass() returns (done: bool)
      requires Valid()
      modifies this`idle, this`parkedDrains
      ensures Valid() && Abs() == S.DrainLoop(old(Abs()))
      ensures done == (streams == map[])
    {
      RegEmpty();
      done := streams == map[];
      if !done {
        idle := false;
        parkedDrains := parkedDrains + 1;
      }
      Same();
    }

    method Create(sid: u32) returns (s: Stream)
      requires Valid()
      modifies this`streams, this`all
      ensures Valid() && fresh(s) && s.handle == |old(all)| && s.id == sid && all == old(all) + [s] && Grows()
      ensures Abs() == S.Create(old(Abs()), sid) && s.State() == S.NewStream(sid, flowWindow)
    {
      s := new Stream(this, sid, |all|);
      streams := streams[sid := s];
      all := all + [s];
      assert Objs() == old(Objs()) + [s.State()];
      assert Reg() == old(Reg())[sid := s.handle];
    }

    /** `open`: none when refused, or when the OPEN could not be sent. */
    method Open() returns (r: Option<Stream>)
      requires Valid()
      modifies this`streams, this`all, this`nextId, this`buffered, this`frames, this`reserved, this`idle, this`out
      ensures Valid() && Grows() && Abs() == S.OpenStream(old(Abs()))
      ensures r.Some? <==> !S.OpenRefused(old(Abs())) && wsOpen
      ensures r.Some? ==> fresh(r.value) && r.value.id == old(nextId) && all == old(all) + [r.value]
    {
      hide S.Announce;
      RegSize();
      if goingAway || peerGoingAway { return None; }
      if |streams| >= maxStreams { return None; }
      if nextId > 0xFFFF_FFFF { return None; }
      r := Announce();
    }

    /** The next id is spent before the stream exists. */
    method Allocate() returns (s: Stream)
      requires Valid() && nextId <= 0xFFFF_FFFF
      modifies this`streams, this`all, this`nextId
      ensures Valid() && fresh(s) && s.handle == |old(all)| && s.id == old(nextId) && all == old(all) + [s]
      ensures s.recvBuffered == 0
      ensures Abs() == S.Allocate(old(Abs()))
    {
      hide Mux.Abs, Mux.Objs, Mux.Reg, S.Create;
      var sid := nextId;
      nextId := sid + 1;
      Same();
      CreateAfter(old(Abs()), sid);
      s := Create(sid);
    }

    /** Send a frame, as a step of the whole. */
    method Say(ftype: byte, sid: u32, payload: seq<byte>) returns (sent: bool)
      requires Valid()
      modifies this`out
      ensures Valid() && sent == wsOpen && Abs() == S.Emit(old(Abs()), Frame(ftype, sid, payload))
      ensures !sent ==> Abs() == old(Abs())
    {
      hide Mux.Abs, Mux.Objs, Mux.Reg;
      sent := Send(ftype, sid, payload);
      Same();
    }

    method Announce() returns (r: Option<Stream>)
      requires Valid() && nextId <= 0xFFFF_FFFF
      modifies this`streams, this`all, this`nextId, this`buffered, this`frames, this`reserved, this`idle, this`out
      ensures Valid() && Grows() && Abs() == S.Announce(old(Abs()))
      ensures r.Some? <==> wsOpen
      ensures r.Some? ==> fresh(r.value) && r.value.id == old(nextId) && all == old(all) + [r.value]
    {
      hide Mux.Abs, Mux.Objs, Mux.Reg, S.CloseLocal, S.Create;
      Same();
      var stream := Allocate();
      var sent := Say(OPEN, stream.id, []);
      if !sent {
        TaskClose(stream.handle, S.LaneEof);
        return None;
      }
      return Some(stream);
    }

    // -- the steps of a task that works on stream `h`

    method TaskSend(h: nat, data: seq<byte>)
      requires Valid() && h < |all|
      modifies this`out, all[h]
      ensures Valid() && all == old(all)
      ensures Abs() == S.StartSend(old(Abs()), h, data)
    {
      hide S.SendStep, Mux.Abs, Mux.Objs, Mux.Reg;
      all[h].StartSend(data);
      Becomes(h);
    }

    method TaskResume(h: nat)
      requires Valid() && h < |all| && !all[h].sender.Idle?
      modifies this`out, all[h]
      ensures Valid() && all == old(all)
      ensures Abs() == S.SendLoop(old(Abs()), h, old(all[h].sender.view))
    {
      hide S.SendStep;
      all[h].SendPass(all[h].sender.view);
      Becomes(h);
    }

    method TaskRead(h: nat)
      requires Valid() && h < |all| && all[h].incoming != []
      modifies this`buffered, this`frames, this`reserved, all[h]
      ensures Valid() && all == old(all)
      ensures Abs() == S.Read(old(Abs()), h)
    {
      hide S.Taken;
      var _ := all[h].Read();
      Becomes(h);
    }

    method TaskAck(h: nat)
      requires Valid() && h < |all|
      modifies this`out, all[h]
      ensures Valid() && all == old(all)
      ensures Abs() == S.Ack(old(Abs()), h)
    {
      hide S.Acked;
      all[h].Ack(all[h].flushing);
      Becomes(h);
    }

    method TaskClose(h: nat, lane: S.Lane)
      requires Valid() && h < |all| && all[h].recvBuffered >= 0
      modifies this`buffered, this`frames, this`reserved, this`streams, this`idle, all[h]
      ensures Valid() && all == old(all)
      ensures Abs() == S.CloseLocal(old(Abs()), h, lane)
      ensures all[h].closed && (old(Counting()) ==> Counting())
    {
      hide S.ClosedOff, S.Settle, S.Remove, Mux.Deregistered, Mux.CountersFollow, Mux.Abs, Mux.Objs, Mux.Reg;
      if all[h].closed { Becomes(h); return; }
      all[h].CloseLocal(lane);
      TornDown(h);
    }

    method TaskReset(h: nat)
      requires Valid() && h < |all| && all[h].recvBuffered >= 0
      modifies this`buffered, this`frames, this`reserved, this`streams, this`idle, this`out, all[h]
      ensures Valid() && all == old(all)
      ensures Abs() == S.ResetStream(old(Abs()), h)
    {
      hide S.ClosedOff, S.Settle, S.Remove, Mux.Deregistered, Mux.CountersFollow, Mux.Abs, Mux.Objs, Mux.Reg;
      if all[h].closed { Becomes(h); return; }
      all[h].Reset();
      TornDown(h);
    }

    method TaskSendEof(h: nat)
      requires Valid() && h < |all|
      modifies this`out, all[h]
      ensures Valid() && all == old(all)
      ensures Abs() == S.SendEof(old(Abs()), h)
    {
      all[h].SendEof();
      Becomes(h);
    }

    method TaskStall(h: nat)
      requires Valid() && h < |all|
      modifies all[h]
      ensures Valid() && all == old(all)
      ensures Abs() == S.Put(old(Abs()), h, old(all[h].State()).(sender := S.Idle))
    {
      all[h].Stall();
      Becomes(h);
    }

    // -- the frame reader

    ghost predicate Counting()
      reads this, all
    {
      forall i | 0 <= i < |all| :: all[i].recvBuffered >= 0
    }

    /** A frame the reader ignores; past the limit it leaves its loop. */
    method Ignore(sid: u32)
      requires Valid()
      modifies this`ignored, this`wsOpen, this`phase
      ensures Valid() && Abs() == S.Ignore(old(Abs()))
    {
      hide Mux.Abs, Mux.Objs, Mux.Reg;
      var stop := IgnoreFrame();
      if stop { phase := S.Stopping; }
      Same();
    }

    method OnOpen(sid: u32, payload: seq<byte>)
      requires Valid()
      modifies this`streams, this`all, this`resetSends, this`ignored, this`wsOpen, this`phase
      ensures Valid() && Abs() == S.DispatchOpen(old(Abs()), Frame(OPEN, sid, payload))
      ensures Grows()
    {
      hide S.Ignore, S.SendReset, S.Create, Mux.Grows;
      RegSize();
      if sid == 0 {
        Ignore(sid);
      } else if |payload| > 0 {
        if responder { SendReset(sid); } else { Ignore(sid); }
      } else if !responder {
        Ignore(sid);
      } else if goingAway || peerGoingAway {
        SendReset(sid);
      } else if sid in streams {
        SendReset(sid);
      } else if |streams| >= maxStreams {
        SendReset(sid);
      } else {
        var _ := Create(sid);
        return;
      }
      StaysPut();
    }

    method OnData(s: Stream, payload: seq<byte>, reserveOk: bool)
      requires Valid() && s.handle < |all| && all[s.handle] == s
      modifies this`buffered, this`frames, this`reserved, s
      ensures Valid() && all == old(all)
      ensures Abs() == S.Feed(old(Abs()), s.handle, payload, reserveOk)
    {
      hide S.Arrived, S.Overrun;
      s.Feed(payload, reserveOk);
      Becomes(s.handle);
    }

    method OnEof(s: Stream, payload: seq<byte>)
      requires Valid() && s.handle < |all| && all[s.handle] == s && Counting()
      requires s.id in streams && streams[s.id] == s
      modifies this`buffered, this`frames, this`reserved, this`streams, this`idle, this`resetSends, s
      ensures Valid() && all == old(all)
      ensures Abs() == S.DispatchEof(old(Abs()), Frame(EOF, s.id, payload))
    {
      hide S.FeedEof, S.CloseLocal, S.SendReset;
      if |payload| > 0 {
        ResetByPeer(s);
      } else {
        s.FeedEof();
        Becomes(s.handle);
      }
    }

    method OnWindowUpdate(s: Stream, payload: seq<byte>)
      requires Valid() && s.handle < |all| && all[s.handle] == s && Counting()
      requires s.id in streams && streams[s.id] == s
      modifies this`buffered, this`frames, this`reserved, this`streams, this`idle, this`resetSends, s,
               this`ignored, this`wsOpen, this`phase
      ensures Valid() && all == old(all)
      ensures Abs() == S.DispatchCredit(old(Abs()), Frame(WINDOW_UPDATE, s.id, payload))
    {
      hide S.Grant, S.CloseLocal, S.SendReset, S.Ignore;
      if |payload| != 4 {
        ResetByPeer(s);
      } else {
        var delta := Unpack32(payload);
        if delta != 0 {
          s.Grant(delta);
          Becomes(s.handle);
        } else {
          Ignore(s.id);
        }
      }
    }

    /** `_reset_local_now`, and a RESET for the peer the first time. */
    method ResetByPeer(s: Stream)
      requires Valid() && s.handle < |all| && all[s.handle] == s && Counting()
      modifies this`buffered, this`frames, this`reserved, this`streams, this`idle, this`resetSends, s
      ensures Valid() && all == old(all)
      ensures Abs() == if old(s.closed) then old(Abs())
                       else S.SendReset(S.CloseLocal(old(Abs()), s.handle, S.LaneReset), s.id)
    {
      hide S.CloseLocal, S.SendReset;
      if !s.closed {
        TaskClose(s.handle, S.LaneReset);
        SendReset(s.id);
      }
    }

    method OnGoaway(sid: u32, payload: seq<byte>)
      requires Valid()
      modifies this`peerGoingAway, this`goawayCalls, this`ignored, this`wsOpen, this`phase
      ensures Valid() && Abs() == S.DispatchGoaway(old(Abs()), Frame(GOAWAY, sid, payload))
    {
      hide S.Ignore;
      if sid != 0 || |payload| > 0 || peerGoingAway {
        Ignore(sid);
      } else {
        peerGoingAway := true;
        goawayCalls := goawayCalls + 1;
        Same();
      }
    }

    method Dispatch(f: Frame, reserveOk: bool)
      requires Valid() && Counting()
      modifies this, all
      ensures Valid() && Grows()
      ensures Abs() == S.Dispatch(old(Abs()), f, reserveOk)
    {
      hide S.Ignore, S.DispatchOpen, S.DispatchEof, S.DispatchCredit, S.DispatchGoaway, S.Feed, S.CloseLocal;
      var sid, payload := f.sid, f.payload;
      if f.ftype == OPEN {
        OnOpen(sid, payload);
      } else if f.ftype == GOAWAY {
        OnGoaway(sid, payload);
      } else if !S.StreamFrame(f.ftype) || sid == 0 || sid !in streams {
        Ignore(sid);
      } else {
        OnStreamFrame(streams[sid], f, reserveOk);
      }
    }

    method OnStreamFrame(s: Stream, f: Frame, reserveOk: bool)
      requires Valid() && Counting() && s.handle < |all| && all[s.handle] == s
      requires S.StreamFrame(f.ftype) && f.sid != 0 && f.sid in streams && streams[f.sid] == s
      modifies this`buffered, this`frames, this`reserved, this`streams, this`idle, this`resetSends, s,
               this`ignored, this`wsOpen, this`phase
      ensures Valid() && all == old(all)
      ensures Abs() == S.Dispatch(old(Abs()), f, reserveOk)
    {
      hide Mux.Abs, Mux.Objs, S.Ignore, S.DispatchEof, S.DispatchCredit, S.Feed, S.CloseLocal;
      Same();
      if f.ftype == DATA {
        OnData(s, f.payload, reserveOk);
      } else if f.ftype == EOF {
        OnEof(s, f.payload);
      } else if f.ftype == WINDOW_UPDATE {
        OnWindowUpdate(s, f.payload);
      } else {
        TaskClose(s.handle, S.LaneReset);
      }
    }

    /** One message through the loop of `run`. */
    method Receive(m: S.Message, reserveOk: bool)
      requires Valid() && Counting()
      modifies this, all
      ensures Valid() && Grows()
      ensures Abs() == S.Receive(old(Abs()), m, reserveOk)
    {
      hide S.Ignore, S.Dispatch, Decode;
      if m.Text? {
        Ignore(0);
      } else {
        match Decode(m.bytes) {
          case None => Ignore(0);
          case Some(f) => Dispatch(f, reserveOk);
        }
      }
    }

    /** The clean-up of `run`: every registered stream is aborted, in some order. */
    method Finish() returns (ghost hs: seq<nat>)
      requires Valid() && Counting()
      modifies this, all
      ensures Valid() && all == old(all)
      ensures Listed(hs, old(streams), map[]) && S.Below(hs, |old(all)|)
      ensures Abs() == S.Finish(old(Abs()), hs)
    {
      hide Mux.Abs, Mux.Objs, Mux.Reg, Listed, S.AbortEach;
      hs := AbortAll();
      label aborted:
      streams, resetSends, phase := map[], {}, S.Ended;
      Same@aborted();
      RegEmpty();
    }

    /** `hs` of the streams in `from` have been aborted, all but those of `todo`. */
    ghost predicate Aborting(c: S.Conn, hs: seq<nat>, from: map<u32, Stream>, todo: map<u32, Stream>)
      reads this, all
    {
      && Valid() && Counting()
      && (forall id | id in todo :: todo[id].handle < |all|)
      && Listed(hs, from, todo)
      && S.Below(hs, |c.objs|) && |c.objs| == |all| && Abs() == S.AbortEach(c, hs)
    }

    method AbortNext(ghost c: S.Conn, ghost hs: seq<nat>, ghost from: map<u32, Stream>, todo: map<u32, Stream>, id: u32)
      requires id in todo && Aborting(c, hs, from, todo)
      modifies this`buffered, this`frames, this`reserved, this`streams, this`idle, all
      ensures all == old(all) && Aborting(c, hs + [todo[id].handle], from, todo - {id})
    {
      hide Mux.Abs, Mux.Objs, Mux.Reg, S.CloseLocal, Listed, S.AbortEach;
      ListedMore(hs, from, todo, id);
      AbortOneMore(c, hs, todo[id].handle);
      TaskClose(todo[id].handle, S.LaneReset);
    }

    method AbortAll() returns (ghost hs: seq<nat>)
      requires Valid() && Counting()
      modifies this`buffered, this`frames, this`reserved, this`streams, this`idle, all
      ensures Valid() && all == old(all)
      ensures Listed(hs, old(streams), map[]) && S.Below(hs, |old(all)|)
      ensures Abs() == S.AbortEach(old(Abs()), hs)
    {
      hide Mux.Abs, Mux.Objs, Mux.Reg, Listed, S.AbortEach;
      Same();
      AbortNone(Abs());
      ListedNone(streams);
      hs := [];
      var todo := streams;
      while todo != map[]
        invariant all == old(all) && Aborting(old(Abs()), hs, old(streams), todo)
        decreases |todo|
      {
        var id :| id in todo;
        AbortNext(old(Abs()), hs, old(streams), todo, id);
        hs, todo := hs + [todo[id].handle], todo - {id};
      }
    }

    // -- any task's next step

    predicate StreamEvent(e: S.Event) {
      e.StartSendE? || e.ResumeE? || e.WakeE? || e.StallE? || e.SendEofE? || e.ReadE? || e.AckE? || e.CloseE? || e.ResetE?
    }

    lemma Holds(e: S.Event)
      requires Valid() && S.Enabled(Abs(), e) && StreamEvent(e)
      ensures e.h < |all| && |Abs().objs| == |all| && Abs().objs[e.h] == all[e.h].State()
    {
    }

    method PerformStream(e: S.Event)
      requires Valid() && Counting() && S.Enabled(Abs(), e) && StreamEvent(e)
      modifies this, all
      ensures Valid() && all == old(all)
      ensures Abs() == S.Step(old(Abs()), e)
    {
      hide Mux.Abs, Mux.Objs, Mux.Reg, S.StartSend, S.SendLoop, S.Put, S.SendEof, S.Read, S.Ack, S.CloseLocal, S.ResetStream;
      Holds(e);
      match e {
        case StartSendE(h, data) => TaskSend(h, data);
        case ResumeE(h) => TaskResume(h);
        case WakeE(h) => TaskResume(h);
        case StallE(h) => TaskStall(h);
        case SendEofE(h) => TaskSendEof(h);
        case ReadE(h) => TaskRead(h);
        case AckE(h) => TaskAck(h);
        case CloseE(h) => TaskClose(h, S.LaneEof);
        case ResetE(h) => TaskReset(h);
      }
    }

    method DrainLeaves()
      requires Valid() && parkedDrains > 0
      modifies this`parkedDrains
      ensures Valid() && Abs() == old(Abs()).(parkedDrains := old(parkedDrains) - 1)
      ensures unchanged(`idle, `streams)
    {
      parkedDrains := parkedDrains - 1;
      Same();
    }

    method PerformDrain(e: S.Event)
      requires Valid() && S.Enabled(Abs(), e) && (e.DrainE? || e.DrainWakeE? || e.DrainTimeoutE?)
      modifies this`idle, this`parkedDrains
      ensures Valid() && Abs() == S.Step(old(Abs()), e)
    {
      hide S.DrainLoop;
      if !e.DrainE? { DrainLeaves(); }
      if !e.DrainTimeoutE? { var _ := DrainPass(); }
    }

    method LinkDown()
      requires Valid()
      modifies this`wsOpen
      ensures Valid() && Abs() == old(Abs()).(wsOpen := false)
    {
      wsOpen := false;
      Same();
    }

    /** The end of `run`, whose streams come in whatever order the dictionary has them. */
    method PerformEnd(hs: seq<nat>)
      requires Valid() && I.Inv(Abs()) && S.Enabled(Abs(), S.RunEnd(hs))
      modifies this, all
      ensures Valid() && all == old(all)
      ensures Abs() == S.Finish(old(Abs()), hs)
    {
      hide I.Inv, S.Finish, Listed;
      Counts();
      ghost var taken := Finish();
      EndsIn(old(Abs()), old(streams), taken);
      I.FinishAnyOrder(old(Abs()), hs, taken);
    }

    method PerformReader(e: S.Event)
      requires Valid() && Counting() && S.Enabled(Abs(), e)
      requires e.Recv? || e.OpenE? || e.FlushResetE? || e.GoawayE? || e.LinkDown?
      modifies this, all
      ensures Valid() && Grows()
      ensures Abs() == S.Step(old(Abs()), e)
    {
      hide Mux.Abs, Mux.Objs, Mux.Reg, S.Receive, S.OpenStream, S.FlushReset, S.Goaway;
      match e {
        case Recv(m, ok) => Receive(m, ok);
        case OpenE => var _ := Open();
        case FlushResetE(id) => FlushReset(id);
        case GoawayE => Goaway();
        case LinkDown => LinkDown();
      }
    }

    /** Whatever step a task or the peer takes, the objects take the same step as the value. */
    method Perform(e: S.Event)
      requires Valid() && I.Inv(Abs()) && S.Enabled(Abs(), e)
      modifies this, all
      ensures Valid() && Grows()
      ensures Abs() == S.Step(old(Abs()), e)
    {
      hide I.Inv, Mux.Abs;
      Counts();
      if StreamEvent(e) {
        PerformStream(e);
        StaysPut();
      } else if e.RunEnd? {
        PerformEnd(e.hs);
        StaysPut();
      } else if e.DrainE? || e.DrainWakeE? || e.DrainTimeoutE? {
        PerformDrain(e);
      } else {
        PerformReader(e);
      }
    }

    lemma Counts()
      requires Valid() && I.Inv(Abs())
      ensures Counting()
    {
      forall i | 0 <= i < |all| ensures all[i].recvBuffered >= 0 {
        assert Abs().objs[i] == all[i].State();
        I.StreamAt(Abs(), i);
      }
    }

    /** Any interleaving of steps: the objects end where the values do, every invariant kept. */
    method PerformAll(es: seq<S.Event>)
      requires Valid() && I.Inv(Abs())
      requires S.Run(Abs(), es).Some?
      modifies this, all
      ensures Valid() && S.Run(old(Abs()), es) == Some(Abs()) && I.Inv(Abs())
    {
      hide I.Inv, Mux.Abs, S.Step, S.Enabled;
      for i := 0 to |es|
        invariant Valid() && I.Inv(Abs())
        invariant S.Run(Abs(), es[i..]) == S.Run(old(Abs()), es)
        invariant Grows()
      {
        assert es[i..] != [] && es[i..][0] == es[i] && es[i..][1..] == es[i + 1..];
        I.StepKeeps(Abs(), es[i]);
        Perform(es[i]);
      }
    }
  }

  /** `hs` lists the streams of `from` that are not in `todo`. */
  ghost predicate Listed(hs: seq<nat>, from: map<u32, Stream>, todo: map<u32, Stream>) {
    && (forall id | id in todo :: id in from && todo[id] == from[id])
    && (forall id | id in from && id !in todo :: from[id].handle in hs)
    && (forall i | 0 <= i < |hs| :: exists id :: id in from && from[id].handle == hs[i])
  }

  lemma CreateAfter(c: S.Conn, id: u32)
    ensures S.Create(c.(nextId := id + 1), id) == S.Create(c, id).(nextId := id + 1)
  {
  }

  lemma AbortNone(c: S.Conn)
    ensures S.AbortEach(c, []) == c
  {
  }

  /** What the loop of `run` took is what the step asks for. */
  lemma EndsIn(c: S.Conn, from: map<u32, Stream>, hs: seq<nat>)
    requires Listed(hs, from, map[]) && S.Below(hs, |c.objs|) && c.phase != S.Ended
    requires c.reg.Keys == from.Keys && forall id | id in from :: c.reg[id] == from[id].handle
    ensures S.Enabled(c, S.RunEnd(hs))
  {
  }

  lemma ListedNone(m: map<u32, Stream>)
    ensures Listed([], m, m)
  {
  }

  lemma ListedMore(hs: seq<nat>, from: map<u32, Stream>, todo: map<u32, Stream>, id: u32)
    requires Listed(hs, from, todo) && id in todo
    ensures Listed(hs + [todo[id].handle], from, todo - {id})
  {
    var hs' := hs + [todo[id].handle];
    assert from[id] == todo[id];
    forall x | x in from && x !in todo - {id} ensures from[x].handle in hs' {
      if x == id { assert hs'[|hs|] == from[id].handle; } else { assert from[x].handle in hs; }
    }
    forall i | 0 <= i < |hs'| ensures exists x :: x in from && from[x].handle == hs'[i] {
      if i < |hs| { assert hs'[i] == hs[i]; }
    }
  }

  /** Aborting one stream after the others. */
  lemma {:induction false} AbortOneMore(c: S.Conn, hs: seq<nat>, h: nat)
    requires S.Below(hs, |c.objs|) && h < |c.objs|
    ensures S.Below(hs + [h], |c.objs|) && |S.AbortEach(c, hs).objs| == |c.objs|
    ensures S.AbortEach(c, hs + [h]) == S.CloseLocal(S.AbortEach(c, hs), h, S.LaneReset)
    decreases |hs|
  {
    if hs == [] {
      assert [h][1..] == [];
    } else {
      assert (hs + [h])[1..] == hs[1..] + [h];
      AbortOneMore(S.CloseLocal(c, hs[0], S.LaneReset), hs[1..], h);
    }
  }
}
