/** AnyTLS frames: `cmd(1) | stream id(4) | length(2) | payload` (src/proxy/anytls_proto.rs). */
module AnytlsFrames {
  import opened Wire

  const FRAME_HEADER_SIZE := 7

  datatype Command =
    | Waste | Syn | Psh | Fin | Settings | Alert | UpdatePaddingScheme
    | SynAck | HeartRequest | HeartResponse | ServerSettings

  function Code(cmd: Command): byte {
    match cmd
    case Waste => 0
    case Syn => 1
    case Psh => 2
    case Fin => 3
    case Settings => 4
    case Alert => 5
    case UpdatePaddingScheme => 6
    case SynAck => 7
    case HeartRequest => 8
    case HeartResponse => 9
    case ServerSettings => 10
  }

  function FromCode(code: byte): Option<Command> {
    if code == 0 then Some(Waste)
    else if code == 1 then Some(Syn)
    else if code == 2 then Some(Psh)
    else if code == 3 then Some(Fin)
    else if code == 4 then Some(Settings)
    else if code == 5 then Some(Alert)
    else if code == 6 then Some(UpdatePaddingScheme)
    else if code == 7 then Some(SynAck)
    else if code == 8 then Some(HeartRequest)
    else if code == 9 then Some(HeartResponse)
    else if code == 10 then Some(ServerSettings)
    else None
  }

  datatype Frame = Frame(cmd: Command, sid: u32, data: seq<byte>)

  predicate Fits(f: Frame) {
    |f.data| <= 0xFFFF
  }

  predicate AllFit(fs: seq<Frame>) {
    forall i :: 0 <= i < |fs| ==> Fits(fs[i])
  }

  function Header(cmd: Command, sid: u32, len: u16): (h: seq<byte>)
    ensures |h| == FRAME_HEADER_SIZE
  {
    [Code(cmd)] + U32Bytes(sid) + U16Bytes(len)
  }

  function Encode(f: Frame): seq<byte>
    requires Fits(f)
  {
    Header(f.cmd, f.sid, |f.data|) + f.data
  }

  function EncodeAll(fs: seq<Frame>): seq<byte>
    requires AllFit(fs)
  {
    if fs == [] then [] else Encode(fs[0]) + EncodeAll(fs[1..])
  }

  /** `append_frame`: a payload over 65535 bytes is an error and leaves `dst` alone. */
  method AppendFrame(dst: seq<byte>, f: Frame) returns (ok: bool, out: seq<byte>)
    ensures ok <==> Fits(f)
    ensures out == if Fits(f) then dst + Encode(f) else dst
  {
    if |f.data| > 0xFFFF {
      return false, dst;
    }
    out := dst;
    out := out + [Code(f.cmd)];
    out := out + U32Bytes(f.sid);
    out := out + U16Bytes(|f.data|);
    out := out + f.data;
    assert out == dst + Encode(f);
    ok := true;
  }

  // ─── Parsing ────────────────────────────────────────────────────────────────

  datatype Parse = More | Bad | Got(frame: Frame, rest: seq<byte>)

  function ParseFrame(buf: seq<byte>): Parse {
    if |buf| < FRAME_HEADER_SIZE then More
    else match FromCode(buf[0])
      case None => Bad
      case Some(cmd) =>
        var len: nat := U16From(buf[5], buf[6]);
        if |buf| < FRAME_HEADER_SIZE + len then More
        else
          Got(Frame(cmd, U32From(buf[1], buf[2], buf[3], buf[4]),
                    buf[FRAME_HEADER_SIZE..FRAME_HEADER_SIZE + len]),
              buf[FRAME_HEADER_SIZE + len..])
  }

  /** The one-shot parse: every frame at the front of `buf`, and the bytes left over. */
  function ParseAll(buf: seq<byte>): (r: (seq<Frame>, seq<byte>))
    decreases |buf|
  {
    match ParseFrame(buf)
    case Got(f, rest) => var (fs, tail) := ParseAll(rest); ([f] + fs, tail)
    case _ => ([], buf)
  }

  lemma ParseEncode(f: Frame, rest: seq<byte>)
    requires Fits(f)
    ensures ParseFrame(Encode(f) + rest) == Got(f, rest)
  {
    var b := Encode(f) + rest;
    U32RoundTrip(f.sid);
    U16RoundTrip(|f.data|);
    assert b[1..5] == U32Bytes(f.sid);
    assert b[1] == U32Bytes(f.sid)[0] && b[2] == U32Bytes(f.sid)[1];
    assert b[3] == U32Bytes(f.sid)[2] && b[4] == U32Bytes(f.sid)[3];
    assert b[FRAME_HEADER_SIZE..FRAME_HEADER_SIZE + |f.data|] == f.data;
    assert b[FRAME_HEADER_SIZE + |f.data|..] == rest;
  }

  /** Encoding is canonical: what was parsed re-encodes to the bytes consumed. */
  lemma ParseSound(buf: seq<byte>)
    requires ParseFrame(buf).Got?
    ensures Fits(ParseFrame(buf).frame)
    ensures buf == Encode(ParseFrame(buf).frame) + ParseFrame(buf).rest
  {
    U32Canonical(buf[1], buf[2], buf[3], buf[4]);
    U16Canonical(buf[5], buf[6]);
    var f := ParseFrame(buf).frame;
    assert Header(f.cmd, f.sid, |f.data|) == buf[..FRAME_HEADER_SIZE];
  }

  lemma ParseAllStep(buf: seq<byte>, f: Frame, rest: seq<byte>)
    requires ParseFrame(buf) == Got(f, rest)
    ensures ParseAll(buf) == ([f] + ParseAll(rest).0, ParseAll(rest).1)
  {
  }

  lemma EncodeAllCons(f: Frame, fs: seq<Frame>)
    requires Fits(f) && AllFit(fs)
    ensures AllFit([f] + fs) && EncodeAll([f] + fs) == Encode(f) + EncodeAll(fs)
  {
    assert ([f] + fs)[1..] == fs;
  }

  lemma {:induction false} ParseAllSound(buf: seq<byte>)
    ensures AllFit(ParseAll(buf).0)
    ensures buf == EncodeAll(ParseAll(buf).0) + ParseAll(buf).1
    ensures !ParseFrame(ParseAll(buf).1).Got?
    decreases |buf|
  {
    match ParseFrame(buf)
    case Got(f, rest) =>
      ParseSound(buf);
      ParseAllSound(rest);
      ParseAllStep(buf, f, rest);
      var fs, tail := ParseAll(rest).0, ParseAll(rest).1;
      EncodeAllCons(f, fs);
      Assoc(Encode(f), EncodeAll(fs), tail);
    case _ =>
  }

  lemma {:induction false} EncodeAllAppend(a: seq<Frame>, b: seq<Frame>)
    requires AllFit(a) && AllFit(b)
    ensures AllFit(a + b) && EncodeAll(a + b) == EncodeAll(a) + EncodeAll(b)
  {
    if a == [] {
      assert a + b == b;
    } else {
      assert (a + b)[1..] == a[1..] + b;
      EncodeAllAppend(a[1..], b);
      Assoc(Encode(a[0]), EncodeAll(a[1..]), EncodeAll(b));
    }
  }

  /** Parsing undoes encoding, and goes on with whatever follows. */
  lemma {:induction false} ParseAllEncode(fs: seq<Frame>, rest: seq<byte>)
    requires AllFit(fs)
    ensures ParseAll(EncodeAll(fs) + rest) == (fs + ParseAll(rest).0, ParseAll(rest).1)
  {
    if fs == [] {
      assert EncodeAll(fs) + rest == rest;
      assert fs + ParseAll(rest).0 == ParseAll(rest).0;
    } else {
      var f, fs' := fs[0], fs[1..];
      var tail := EncodeAll(fs') + rest;
      Assoc(Encode(f), EncodeAll(fs'), rest);
      ParseEncode(f, tail);
      ParseAllStep(Encode(f) + tail, f, tail);
      ParseAllEncode(fs', rest);
      Assoc([f], fs', ParseAll(rest).0);
      assert fs == [f] + fs';
    }
  }

  /** Fragmentation is invisible: parsing what was left over together with the next fragment
      continues the one-shot parse. */
  lemma ParseAllSplit(a: seq<byte>, b: seq<byte>)
    ensures ParseAll(a + b)
            == (ParseAll(a).0 + ParseAll(ParseAll(a).1 + b).0, ParseAll(ParseAll(a).1 + b).1)
  {
    ParseAllSound(a);
    Assoc(EncodeAll(ParseAll(a).0), ParseAll(a).1, b);
    ParseAllEncode(ParseAll(a).0, ParseAll(a).1 + b);
  }

  lemma ParseWhole(fs: seq<Frame>)
    requires AllFit(fs)
    ensures ParseAll(EncodeAll(fs)) == (fs, [])
  {
    ParseAllEncode(fs, []);
    assert EncodeAll(fs) + [] == EncodeAll(fs);
    assert fs + [] == fs;
  }

  // ─── StreamReadBuffer ───────────────────────────────────────────────────────

  /** The unread tail of a frame, handed out in pieces of whatever size the reader asks for. */
  class StreamReadBuffer {
    var pending: seq<byte>

    constructor ()
      ensures pending == []
    {
      pending := [];
    }

    /** `copy_to` with `room` bytes free in the destination. */
    method CopyTo(room: nat) returns (served: bool, out: seq<byte>)
      modifies this
      ensures served <==> old(pending) != []
      ensures out + pending == old(pending)
      ensures |out| == Min(room, |old(pending)|)
    {
      if pending == [] {
        return false, [];
      }
      if room == 0 {
        return true, [];
      }
      var len := Min(|pending|, room);
      out := pending[..len];
      pending := pending[len..];
      served := true;
    }

    method CopyFrom(data: seq<byte>, room: nat) returns (out: seq<byte>)
      requires pending == []
      modifies this
      ensures out + pending == data
      ensures |out| == Min(room, |data|)
    {
      pending := data;
      var _, got := CopyTo(room);
      out := got;
    }
  }
}
