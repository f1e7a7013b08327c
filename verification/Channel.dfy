/** What a log of frames says about one stream id. */
module Channel {
  import opened Wire

  /** The payload bytes of the DATA frames for `id`, in order. */
  function DataOf(log: seq<Frame>, id: u32): seq<byte> {
    if log == [] then []
    else
      var f := log[|log|-1];
      DataOf(log[..|log|-1], id) + if f.ftype == DATA && f.sid == id then f.payload else []
  }

  /** The credit of the WINDOW_UPDATE frames for `id`. */
  function CreditOf(log: seq<Frame>, id: u32): nat {
    if log == [] then 0
    else CreditOf(log[..|log|-1], id) + FrameCredit(log[|log|-1], id)
  }

  function FrameCredit(f: Frame, id: u32): nat {
    if f.ftype == WINDOW_UPDATE && f.sid == id && |f.payload| == 4 then Unpack32(f.payload) else 0
  }

  predicate HasEof(log: seq<Frame>, id: u32) {
    exists i | 0 <= i < |log| :: log[i].ftype == EOF && log[i].sid == id
  }

  /** A frame of type `t` for `id` has gone out. */
  predicate HasFrame(log: seq<Frame>, t: byte, id: u32) {
    exists i | 0 <= i < |log| :: log[i].ftype == t && log[i].sid == id
  }

  lemma PushFrame(log: seq<Frame>, f: Frame, t: byte, id: u32)
    ensures HasFrame(log + [f], t, id) <==> HasFrame(log, t, id) || (f.ftype == t && f.sid == id)
  {
    assert (log + [f])[|log|] == f;
    if HasFrame(log, t, id) {
      var i :| 0 <= i < |log| && log[i].ftype == t && log[i].sid == id;
      assert (log + [f])[i] == log[i];
    }
  }

  /** No DATA for a stream after its EOF. */
  predicate EofLast(log: seq<Frame>) {
    forall i, j | 0 <= i < j < |log| && log[i].ftype == EOF && log[j].ftype == DATA :: log[i].sid != log[j].sid
  }

  /** Nothing names a stream before its OPEN, and no OPEN is repeated. */
  predicate OpenFirst(log: seq<Frame>) {
    forall i, j | 0 <= i < j < |log| && log[j].ftype == OPEN :: log[i].sid != log[j].sid
  }

  lemma Push(log: seq<Frame>, f: Frame, id: u32)
    ensures DataOf(log + [f], id) == DataOf(log, id) + if f.ftype == DATA && f.sid == id then f.payload else []
    ensures CreditOf(log + [f], id) == CreditOf(log, id) + FrameCredit(f, id)
    ensures HasEof(log + [f], id) <==> HasEof(log, id) || (f.ftype == EOF && f.sid == id)
  {
    assert (log + [f])[..|log|] == log;
    assert (log + [f])[|log|] == f;
    if HasEof(log, id) {
      var i :| 0 <= i < |log| && log[i].ftype == EOF && log[i].sid == id;
      assert (log + [f])[i] == log[i];
    }
  }

  lemma Next(log: seq<Frame>, n: nat, id: u32)
    requires n < |log|
    ensures DataOf(log[..n+1], id) == DataOf(log[..n], id) + if log[n].ftype == DATA && log[n].sid == id then log[n].payload else []
    ensures CreditOf(log[..n+1], id) == CreditOf(log[..n], id) + FrameCredit(log[n], id)
    ensures HasEof(log[..n+1], id) <==> HasEof(log[..n], id) || (log[n].ftype == EOF && log[n].sid == id)
  {
    assert log[..n+1] == log[..n] + [log[n]];
    Push(log[..n], log[n], id);
  }

  /** What has been delivered is a prefix of what has been sent. */
  lemma {:induction false} Delivered(log: seq<Frame>, n: nat, id: u32)
    requires n <= |log|
    ensures DataOf(log[..n], id) <= DataOf(log, id)
    ensures CreditOf(log[..n], id) <= CreditOf(log, id)
    decreases |log| - n
  {
    if n == |log| {
      assert log[..n] == log;
    } else {
      Next(log, n, id);
      Delivered(log, n + 1, id);
    }
  }

  /** Sent is delivered and in flight. */
  lemma {:induction false} Split(a: seq<Frame>, b: seq<Frame>, id: u32)
    ensures DataOf(a + b, id) == DataOf(a, id) + DataOf(b, id)
    ensures CreditOf(a + b, id) == CreditOf(a, id) + CreditOf(b, id)
    decreases |b|
  {
    if b == [] {
      assert a + b == a;
    } else {
      var n := |b| - 1;
      Split(a, b[..n], id);
      assert (a + b)[..|a + b| - 1] == a + b[..n] && (a + b)[|a + b| - 1] == b[n];
    }
  }

  /** Once the EOF is out, the stream's data is settled. */
  lemma {:induction false} EofFreezes(log: seq<Frame>, n: nat, id: u32)
    requires n <= |log| && EofLast(log) && HasEof(log[..n], id)
    ensures DataOf(log[..n], id) == DataOf(log, id)
    decreases |log| - n
  {
    if n == |log| {
      assert log[..n] == log;
    } else {
      var i :| 0 <= i < n && log[i].ftype == EOF && log[i].sid == id;
      Next(log, n, id);
      EofFreezes(log, n + 1, id);
    }
  }

  /** A stream nobody speaks of has sent nothing. */
  lemma {:induction false} Silent(log: seq<Frame>, id: u32)
    requires forall i | 0 <= i < |log| && log[i].sid == id :: log[i].ftype != DATA && log[i].ftype != WINDOW_UPDATE && log[i].ftype != EOF
    ensures DataOf(log, id) == [] && CreditOf(log, id) == 0 && !HasEof(log, id)
  {
    if log != [] { Silent(log[..|log|-1], id); }
  }
}
