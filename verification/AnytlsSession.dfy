/** The two ends of an AnyTLS session on the upload path: the client's write queue, write loop and
    proxied streams (src/proxy/outbound/anytls.rs), and the server's read loop and stream table
    (src/proxy/inbound/anytls.rs). Each class method is proved against a function on
    values; AnytlsLink composes those functions into whole runs. */
module AnytlsSession {
  import opened Wire
  import opened AnytlsFrames
  import opened TargetAddress
  import Pad = AnytlsPadding

  const SESSION_QUEUE_CAPACITY := 256
  const STREAM_QUEUE_CAPACITY := 16
  const SESSION_WRITE_BATCH_BYTES := 256 * 1024

  datatype Poll<+T> = Pending | Ready(value: T) | BrokenPipe

  // ─── Client ─────────────────────────────────────────────────────────────────

  datatype Client = Client(
    queue: seq<Frame>,
    nextId: u32,
    buffering: bool,
    buffer: seq<byte>,
    scheme: Pad.Scheme,
    packetCount: nat,
    sendPadding: bool,
    open: bool)

  predicate HasRoom(c: Client) {
    c.open && |c.queue| < SESSION_QUEUE_CAPACITY
  }

  /** `try_send`, and the successful end of `send(..).await`. */
  function Enqueue(c: Client, f: Frame): Client {
    if HasRoom(c) then c.(queue := c.queue + [f]) else c
  }

  /** The write loop takes one frame off the queue. A frame that does not fit ends the loop. */
  function Take(c: Client): Client
    requires c.queue != []
  {
    var f := c.queue[0];
    if Fits(f) then
      c.(queue := c.queue[1..], buffer := c.buffer + Encode(f), buffering := c.buffering && f.cmd != Psh)
    else
      c.(queue := c.queue[1..], open := false)
  }

  predicate MayBatch(c: Client) {
    c.open && !c.buffering && |c.buffer| < SESSION_WRITE_BATCH_BYTES && c.queue != []
  }

  /** The `try_recv` loop. */
  function Batch(c: Client): Client
    decreases |c.queue|
  {
    if MayBatch(c) then Batch(Take(c)) else c
  }

  predicate MayFlush(c: Client) {
    c.open && !c.buffering && c.buffer != []
  }

  /** Whether the next write is padded, and with which packet number. */
  predicate WillPad(c: Client) {
    c.sendPadding && c.packetCount < c.scheme.stopAt
  }

  predicate SizesFor(c: Client, sizes: seq<int>) {
    && (forall i :: 0 <= i < |sizes| ==> Pad.CHECK_MARK <= sizes[i])
    && (WillPad(c) ==> Pad.Drawn(c.scheme, c.packetCount, sizes))
  }

  function FlushRecords(c: Client, sizes: seq<int>): seq<seq<byte>>
    requires SizesFor(c, sizes)
  {
    if WillPad(c) then Pad.Records(c.buffer, sizes) else [c.buffer]
  }

  /** What `write_with_padding` and the `buffer.clear()` after it leave behind. */
  function Flushed(c: Client): Client {
    c.(buffer := [],
       packetCount := if c.sendPadding then c.packetCount + 1 else c.packetCount,
       sendPadding := WillPad(c))
  }

  function WriteOutcome(c: Client, sid: u32, finSent: bool, buf: seq<byte>): (Client, Poll<nat>) {
    if buf == [] then (c, Ready(0))
    else if finSent || !c.open then (c, BrokenPipe)
    else if !HasRoom(c) then (c, Pending)
    else
      var len := Min(|buf|, 0xFFFF);
      (Enqueue(c, Frame(Psh, sid, buf[..len])), Ready(len))
  }

  /** The new session state, whether FIN counts as sent, and the answer. */
  function ShutdownOutcome(c: Client, sid: u32, finSent: bool): (Client, bool, Poll<()>) {
    if finSent || !c.open then (c, finSent, Ready(()))
    else if !HasRoom(c) then (c, finSent, Pending)
    else (Enqueue(c, Frame(Fin, sid, [])), true, Ready(()))
  }

  /** What `poll_write` answers: nothing to write is written at once; otherwise it fails if and only if
      the stream sent its FIN or the session is closed, waits if and only if the queue is full, and in
      every other case acknowledges as much as a frame holds, with the frame that says it at the end of
      the queue. */
  lemma WriteAnswersIff(c: Client, sid: u32, finSent: bool, buf: seq<byte>)
    ensures var (c', p) := WriteOutcome(c, sid, finSent, buf);
            var over := finSent || !c.open;
            && (p == Ready(0) <==> buf == [])
            && (p.BrokenPipe? <==> buf != [] && over)
            && (p.Pending? <==> buf != [] && !over && |c.queue| >= SESSION_QUEUE_CAPACITY)
            && (if p.Ready? && p.value > 0 then
                  && p.value == Min(|buf|, 0xFFFF)
                  && c' == c.(queue := c'.queue)
                  && exists f :: c'.queue == c.queue + [f] && Fits(f) && f == Frame(Psh, sid, buf[..p.value])
                else c' == c)
  {
  }

  /** What `poll_shutdown` answers: it waits if and only if its FIN is still to be queued and the queue is
      full; when it is done the FIN was queued, now or before, or the session is closed. */
  lemma ShutdownAnswersIff(c: Client, sid: u32, finSent: bool)
    ensures var (c', fin, p) := ShutdownOutcome(c, sid, finSent);
            && !p.BrokenPipe?
            && (p.Pending? <==> !finSent && c.open && |c.queue| >= SESSION_QUEUE_CAPACITY)
            && (p.Ready? ==> fin || !c.open)
            && (fin && !finSent ==> c'.queue == c.queue + [Frame(Fin, sid, [])])
            && (fin == finSent ==> c' == c) && (finSent ==> fin)
  {
  }

  class ClientSession {
    var queue: seq<Frame>
    var nextId: u32
    var buffering: bool
    var buffer: seq<byte>
    var scheme: Pad.Scheme
    var packetCount: nat
    var sendPadding: bool
    var open: bool
    /** Everything written to the TLS stream, one entry a `write_all`. */
    var tls: seq<seq<byte>>

    /** `Session::new`: SETTINGS is queued before either loop starts. */
    constructor (scheme: Pad.Scheme, settings: seq<byte>)
      ensures State() == Client([Frame(Settings, 0, settings)], 1, true, [], scheme, 1, true, true)
      ensures tls == []
    {
      queue := [Frame(Settings, 0, settings)];
      nextId := 1;
      buffering := true;
      buffer := [];
      this.scheme := scheme;
      packetCount := 1;
      sendPadding := true;
      open := true;
      tls := [];
    }

    ghost function State(): Client
      reads this
    {
      Client(queue, nextId, buffering, buffer, scheme, packetCount, sendPadding, open)
    }

    method NextStreamId() returns (sid: u32)
      modifies this`nextId
      ensures sid == old(nextId) && nextId == (sid + 1) % 0x1_0000_0000
    {
      sid := nextId;
      nextId := (nextId + 1) % 0x1_0000_0000;
    }

    method WriteWithPadding(data: seq<byte>, sizes: seq<int>)
      requires data == buffer && SizesFor(State(), sizes)
      modifies this`tls, this`packetCount, this`sendPadding
      ensures tls == old(tls) + FlushRecords(old(State()), sizes)
      ensures State() == Flushed(old(State())).(buffer := data)
      ensures !old(sendPadding) ==> !sendPadding
    {
      if !sendPadding {
        tls := tls + [data];
        return;
      }
      var pkt := packetCount;
      packetCount := packetCount + 1;
      if pkt >= scheme.stopAt {
        sendPadding := false;
        tls := tls + [data];
        return;
      }
      var remaining := data;
      var i := 0;
      while i < |sizes|
        invariant 0 <= i <= |sizes|
        invariant sendPadding && packetCount == pkt + 1
        invariant tls + Pad.Records(remaining, sizes[i..]) == old(tls) + Pad.Records(data, sizes)
      {
        assert sizes[i..][1..] == sizes[i + 1..];
        ghost var before := tls;
        if sizes[i] == Pad.CHECK_MARK {
          if remaining == [] {
            assert Pad.Records(remaining, sizes[i..]) == [];
            break;
          }
        } else {
          var target: nat := sizes[i];
          if |remaining| > target {
            tls := tls + [remaining[..target]];
            remaining := remaining[target..];
            Assoc(before, [tls[|before|]], Pad.Records(remaining, sizes[i + 1..]));
          } else if remaining != [] {
            var whole := |remaining| + FRAME_HEADER_SIZE;
            var padding := if target > whole then target - whole else 0;
            if padding > 0 {
              tls := tls + [remaining, Pad.Waste(padding)];
              Assoc(before, [remaining, Pad.Waste(padding)], Pad.Records([], sizes[i + 1..]));
            } else {
              tls := tls + [remaining];
              Assoc(before, [remaining], Pad.Records([], sizes[i + 1..]));
            }
            remaining := [];
          } else {
            tls := tls + [Pad.Waste(target)];
            Assoc(before, [Pad.Waste(target)], Pad.Records([], sizes[i + 1..]));
          }
        }
        i := i + 1;
      }
      assert i == |sizes| ==> sizes[i..] == [];
      if remaining != [] {
        assert Pad.Records(remaining, sizes[i..]) == [remaining];
        tls := tls + [remaining];
      } else {
        assert Pad.Records(remaining, sizes[i..]) == [];
      }
    }

    /** One turn of `write_loop`, from a frame received to the batch written. */
    method WriteLoopTurn(sizes: seq<int>)
      requires open && queue != [] && SizesFor(State(), sizes)
      modifies this
      ensures var batch := Batch(Take(old(State())));
              && State() == (if MayFlush(batch) then Flushed(batch) else batch)
              && (MayFlush(batch) ==> SizesFor(batch, sizes) && tls == old(tls) + FlushRecords(batch, sizes))
              && (!MayFlush(batch) ==> tls == old(tls))
    {
      var ok := ReceiveFrame();
      while ok && !buffering && |buffer| < SESSION_WRITE_BATCH_BYTES && queue != []
        invariant ok == open
        invariant Batch(State()) == Batch(Take(old(State())))
        invariant scheme == old(scheme) && packetCount == old(packetCount) && sendPadding == old(sendPadding)
        invariant tls == old(tls)
        decreases |queue|
      {
        ok := ReceiveFrame();
      }
      if ok && !buffering && buffer != [] {
        WriteWithPadding(buffer, sizes);
        buffer := [];
      }
    }

    /** `append_frame` on the frame at the head of the queue. */
    method ReceiveFrame() returns (ok: bool)
      requires open && queue != []
      modifies this`queue, this`buffer, this`buffering, this`open
      ensures State() == Take(old(State())) && ok == open
    {
      var f := queue[0];
      queue := queue[1..];
      var appended, out := AppendFrame(buffer, f);
      if !appended {
        open := false;
        return false;
      }
      buffer := out;
      if buffering && f.cmd == Psh {
        buffering := false;
      }
      ok := true;
    }
  }

  class AnytlsProxyStream {
    const session: ClientSession
    const sid: u32
    var finSent: bool

    constructor (session: ClientSession, sid: u32)
      ensures this.session == session && this.sid == sid && !finSent
    {
      this.session := session;
      this.sid := sid;
      finSent := false;
    }

    method PollWrite(buf: seq<byte>) returns (p: Poll<nat>)
      modifies session`queue
      ensures (session.State(), p) == WriteOutcome(old(session.State()), sid, finSent, buf)
    {
      if buf == [] {
        return Ready(0);
      }
      if finSent || !session.open {
        return BrokenPipe;
      }
      if |session.queue| >= SESSION_QUEUE_CAPACITY {
        return Pending;
      }
      var len := Min(|buf|, 0xFFFF);
      session.queue := session.queue + [Frame(Psh, sid, buf[..len])];
      p := Ready(len);
    }

    method PollShutdown() returns (p: Poll<()>)
      modifies session`queue, this
      ensures (session.State(), finSent, p) == ShutdownOutcome(old(session.State()), sid, old(finSent))
    {
      if finSent || !session.open {
        return Ready(());
      }
      if |session.queue| >= SESSION_QUEUE_CAPACITY {
        return Pending;
      }
      finSent := true;
      session.queue := session.queue + [Frame(Fin, sid, [])];
      p := Ready(());
    }
  }

  // ─── Server ─────────────────────────────────────────────────────────────────

  /** `UDP_OVER_TCP_TARGET`, "sp.v2.udp-over-tcp.arpa". */
  const UDP_OVER_TCP_TARGET: seq<byte> :=
    [115, 112, 46, 118, 50, 46, 117, 100, 112, 45, 111, 118, 101, 114, 45, 116, 99, 112, 46, 97, 114, 112, 97]

  predicate IsUot(t: TargetAddr) {
    t.Domain? && t.name == UDP_OVER_TCP_TARGET
  }

  datatype Entry = Waiting | WaitingUotRequest(target: TargetAddr) | Active

  datatype Kind = Tcp | Udp(isConnect: bool, dest: TargetAddr)

  /** The reading end of a stream the server has dispatched: its bounded channel, the unread tail of
      a chunk, and every byte handed to the reader so far. `gone` once the reader dropped it. */
  datatype App = App(target: TargetAddr, kind: Kind, chan: seq<seq<byte>>, pending: seq<byte>,
                     read: seq<byte>, gone: bool)

  datatype Server = Server(settled: bool, entries: map<u32, Entry>, apps: map<u32, App>, open: bool)

  function Closed(s: Server): Server {
    s.(open := false, entries := map[])
  }

  predicate CanReceive(s: Server, sid: u32) {
    sid in s.apps && !s.apps[sid].gone
  }

  /** The read loop waits in `tx.send(data).await` while the stream's channel is full. */
  predicate Blocked(s: Server, f: Frame) {
    && s.open && s.settled && f.cmd == Psh
    && f.sid in s.entries && s.entries[f.sid] == Active
    && CanReceive(s, f.sid)
    && |s.apps[f.sid].chan| >= STREAM_QUEUE_CAPACITY
  }

  datatype UotRequest = UotRequest(isConnect: bool, dest: TargetAddr, tail: seq<byte>)

  /** The request header of a UDP-over-TCP stream, and the bytes that came with it. */
  function ParseUotRequest(text: Text, data: seq<byte>): Option<UotRequest> {
    if data == [] then None
    else match Decode(text, data[1..])
      case Got(dest, len) =>
        Some(UotRequest(data[0] != 0, dest, if 1 + len <= |data| then data[1 + len..] else []))
      case _ => None
  }

  /** One PSH: the target, the UDP-over-TCP request, or payload, by the stream's state. */
  function HandlePsh(text: Text, s: Server, sid: u32, data: seq<byte>): Server {
    if sid !in s.entries then s
    else match s.entries[sid]
      case Waiting =>
        (match ParseTarget(text, data)
         case Ok(t) =>
           if IsUot(t) then s.(entries := s.entries[sid := WaitingUotRequest(t)])
           else s.(entries := s.entries[sid := Active], apps := s.apps[sid := App(t, Tcp, [], [], [], false)])
         case Err => s.(entries := s.entries - {sid})
         case Panics => s.(open := false))
      case WaitingUotRequest(t) =>
        (match ParseUotRequest(text, data)
         case None => s.(entries := s.entries - {sid})
         case Some(r) =>
           var chan := if r.tail == [] then [] else [r.tail];
           s.(entries := s.entries[sid := Active],
              apps := s.apps[sid := App(t, Udp(r.isConnect, r.dest), chan, [], [], false)]))
      case Active =>
        if CanReceive(s, sid) then
          var app := s.apps[sid];
          s.(apps := s.apps[sid := app.(chan := app.chan + [data])])
        else s.(entries := s.entries - {sid})
  }

  /** One frame: the SETTINGS check of `InboundSession::new`, then a turn of `read_loop`. */
  function Handle(text: Text, s: Server, f: Frame): Server {
    if !s.open then s
    else if !s.settled then (if f.cmd == Settings then s.(settled := true) else Closed(s))
    else match f.cmd
      case Syn => s.(entries := s.entries[f.sid := Waiting])
      case Psh => HandlePsh(text, s, f.sid, f.data)
      case Fin => s.(entries := s.entries - {f.sid})
      case Alert => Closed(s)
      case _ => s
  }

  /** A handled frame ends the session exactly when it comes before the settings, when it is an alert,
      or when it brings the target on which parsing panics. */
  predicate EndsSession(s: Server, f: Frame) {
    if !s.settled then f.cmd != Settings
    else f.cmd == Alert || IsPanic(s, f)
  }

  predicate IsPanic(s: Server, f: Frame) {
    s.settled && f.cmd == Psh && f.sid in s.entries && s.entries[f.sid] == Waiting && f.data == [3]
  }

  /** What the end does to the readers: nothing they can still read is lost, and having read it they are
      told the end of their streams. Only after a panic nobody clears the table, and a reader whose
      stream was in it waits for ever, as no later frame is handled. */
  lemma SessionEndsIff(text: Text, s: Server, f: Frame, later: seq<Frame>)
    requires s.open
    ensures var s' := Handle(text, s, f);
            && (!s'.open <==> EndsSession(s, f))
            && (!s'.open ==>
                  && s'.apps == s.apps && HandleAll(text, s', later) == s'
                  && forall sid :: sid in s.apps && s.apps[sid].chan == [] && s.apps[sid].pending == [] ==>
                       AnswerOf(s', sid) == if IsPanic(s, f) && sid in s.entries then Pending else Ready([]))
  {
    PanicsOnlyOnLoneDomainTag(text, f.data);
    if !Handle(text, s, f).open {
      NothingIsHandled(text, Handle(text, s, f), later);
    }
  }

  /** What a reader that asks for one byte is told. */
  function AnswerOf(s: Server, sid: u32): Poll<seq<byte>>
    requires sid in s.apps
  {
    ReadOutcome(s.apps[sid], 1, sid in s.entries).1
  }

  function HandleAll(text: Text, s: Server, fs: seq<Frame>): Server
    decreases |fs|
  {
    if fs == [] then s else HandleAll(text, Handle(text, s, fs[0]), fs[1..])
  }

  lemma {:induction false} NothingIsHandled(text: Text, s: Server, fs: seq<Frame>)
    requires !s.open
    ensures HandleAll(text, s, fs) == s
    decreases |fs|
  {
    if fs != [] {
      NothingIsHandled(text, s, fs[1..]);
    }
  }

  class InboundSession {
    const text: Text
    var settled: bool
    var streams: map<u32, Entry>
    var apps: map<u32, App>
    var open: bool

    constructor (text: Text)
      ensures State() == Server(false, map[], map[], true) && this.text == text
    {
      this.text := text;
      settled := false;
      streams := map[];
      apps := map[];
      open := true;
    }

    ghost function State(): Server
      reads this
    {
      Server(settled, streams, apps, open)
    }

    method HandleFrame(f: Frame)
      requires !Blocked(State(), f)
      modifies this
      ensures State() == Handle(text, old(State()), f)
    {
      if !open {
        return;
      }
      if !settled {
        if f.cmd == Settings {
          settled := true;
        } else {
          open := false;
          streams := map[];
        }
        return;
      }
      match f.cmd {
        case Syn => streams := streams[f.sid := Waiting];
        case Psh => OnPsh(f.sid, f.data);
        case Fin => streams := streams - {f.sid};
        case HeartRequest =>
        case Alert =>
          open := false;
          streams := map[];
        case _ =>
      }
    }

    method OnPsh(sid: u32, data: seq<byte>)
      modifies this
      ensures State() == HandlePsh(text, old(State()), sid, data)
    {
      if sid !in streams {
        return;
      }
      match streams[sid] {
        case Waiting =>
          match ParseTarget(text, data) {
            case Ok(t) =>
              if IsUot(t) {
                streams := streams[sid := WaitingUotRequest(t)];
              } else {
                streams := streams[sid := Active];
                apps := apps[sid := App(t, Tcp, [], [], [], false)];
              }
            case Err => streams := streams - {sid};
            case Panics => open := false;
          }
        case WaitingUotRequest(t) =>
          var request := ParseUotRequest(text, data);
          if request == None {
            streams := streams - {sid};
            return;
          }
          var r := request.value;
          var chan := [];
          if r.tail != [] {
            chan := [r.tail];
          }
          apps := apps[sid := App(t, Udp(r.isConnect, r.dest), chan, [], [], false)];
          streams := streams[sid := Active];
        case Active =>
          if sid in apps && !apps[sid].gone {
            apps := apps[sid := apps[sid].(chan := apps[sid].chan + [data])];
          } else {
            streams := streams - {sid};
          }
      }
    }
  }

  /** `AnytlsInboundStream::poll_read` with `room` bytes free; `live` while the stream table still
      holds the channel's sender. An empty answer is the end of the stream. */
  function ReadOutcome(app: App, room: nat, live: bool): (App, Poll<seq<byte>>) {
    if app.pending != [] then
      var n := Min(room, |app.pending|);
      (app.(pending := app.pending[n..], read := app.read + app.pending[..n]), Ready(app.pending[..n]))
    else if app.chan != [] then
      var n := Min(room, |app.chan[0]|);
      (app.(chan := app.chan[1..], pending := app.chan[0][n..], read := app.read + app.chan[0][..n]),
       Ready(app.chan[0][..n]))
    else if live then (app, Pending)
    else (app, Ready([]))
  }

  /** A UDP reader pushes the next chunk whole into its packet decoder. */
  function RecvChunk(app: App): App {
    if app.chan == [] then app else app.(chan := app.chan[1..], read := app.read + app.chan[0])
  }

  class AnytlsInboundStream {
    const target: TargetAddr
    var chan: seq<seq<byte>>
    const readBuffer: StreamReadBuffer
    ghost var read: seq<byte>

    constructor (target: TargetAddr)
      ensures State() == App(target, Tcp, [], [], [], false) && fresh(readBuffer)
    {
      this.target := target;
      chan := [];
      read := [];
      readBuffer := new StreamReadBuffer();
    }

    ghost function State(): App
      reads this, readBuffer
    {
      App(target, Tcp, chan, readBuffer.pending, read, false)
    }

    method PollRead(room: nat, live: bool) returns (p: Poll<seq<byte>>)
      modifies this, readBuffer
      ensures (State(), p) == ReadOutcome(old(State()), room, live)
    {
      var served, out := readBuffer.CopyTo(room);
      if served {
        read := read + out;
        return Ready(out);
      }
      if chan != [] {
        var data := chan[0];
        chan := chan[1..];
        out := readBuffer.CopyFrom(data, room);
        read := read + out;
        return Ready(out);
      }
      if live {
        return Pending;
      }
      p := Ready([]);
    }
  }
}
