/** The binary frame of the control channel: a one-byte type, a big-endian 32-bit stream id,
    and a payload that runs to the end of the WebSocket message. */
module Wire {

  datatype Option<+T> = None | Some(value: T)
  {
    function GetOr(default: T): T { if Some? then value else default }
  }

  type byte = x: int | 0 <= x < 0x100
  type u32 = x: int | 0 <= x < 0x1_0000_0000

  const PREFIX_SIZE := 5

  const OPEN: byte := 1
  const DATA: byte := 2
  const EOF: byte := 3
  const RESET: byte := 4
  const WINDOW_UPDATE: byte := 5
  const GOAWAY: byte := 6

  datatype Frame = Frame(ftype: byte, sid: u32, payload: seq<byte>)

  function Pack32(n: u32): (r: seq<byte>)
    ensures |r| == 4
  {
    [n / 0x100_0000, n / 0x1_0000 % 0x100, n / 0x100 % 0x100, n % 0x100]
  }

  function Unpack32(b: seq<byte>): u32
    requires |b| == 4
  {
    b[0] as int * 0x100_0000 + b[1] as int * 0x1_0000 + b[2] as int * 0x100 + b[3] as int
  }

  function Encode(f: Frame): seq<byte> {
    [f.ftype] + Pack32(f.sid) + f.payload
  }

  /** A message shorter than the prefix is the only one that is refused. */
  function Decode(m: seq<byte>): Option<Frame> {
    if |m| < PREFIX_SIZE then None
    else Some(Frame(m[0], Unpack32(m[1..PREFIX_SIZE]), m[PREFIX_SIZE..]))
  }

  lemma UnpackPack(n: u32)
    ensures Unpack32(Pack32(n)) == n
  {
    assert n == n / 0x100 * 0x100 + n % 0x100;
    assert n / 0x100 == n / 0x1_0000 * 0x100 + n / 0x100 % 0x100;
    assert n / 0x1_0000 == n / 0x100_0000 * 0x100 + n / 0x1_0000 % 0x100;
  }

  lemma PackUnpack(b: seq<byte>)
    requires |b| == 4
    ensures Pack32(Unpack32(b)) == b
  {
    var n := Unpack32(b);
    assert n / 0x100 == b[0] as int * 0x1_0000 + b[1] as int * 0x100 + b[2] as int;
    assert n / 0x1_0000 == b[0] as int * 0x100 + b[1] as int;
    assert n / 0x100_0000 == b[0];
  }

  /** What one end writes the other end reads. */
  lemma DecodeEncode(f: Frame)
    ensures Decode(Encode(f)) == Some(f)
  {
    UnpackPack(f.sid);
    var m := Encode(f);
    assert m[1..PREFIX_SIZE] == Pack32(f.sid);
    assert m[PREFIX_SIZE..] == f.payload;
  }

  /** Decoding loses nothing, so the codec is a bijection between frames and messages of at
      least five bytes. */
  lemma EncodeDecode(m: seq<byte>)
    ensures Decode(m).Some? <==> |m| >= PREFIX_SIZE
    ensures Decode(m).Some? ==> Encode(Decode(m).value) == m
  {
    if |m| >= PREFIX_SIZE {
      PackUnpack(m[1..PREFIX_SIZE]);
      assert m == [m[0]] + m[1..PREFIX_SIZE] + m[PREFIX_SIZE..];
    }
  }
}
