/** Whole runs of an AnyTLS session, upload direction: any number of client streams share one
    bounded queue; the write loop batches and pads; the network cuts the bytes up at will; the
    server reads frames, and routes them by stream id to readers that take what they like. */
module AnytlsLink {
  import opened Wire
  import opened AnytlsFrames
  import opened TargetAddress
  import opened AnytlsSession
  import Pad = AnytlsPadding
  import RA = ReadAhead
  import FR = FrameReading
  import UP = UotPackets

  datatype Phase = Registered | SynSent | Opened

  /** A client stream: how far `connect_stream` got, the payload chunks it has queued, the bytes
      `poll_write` acknowledged, and whether it was shut down, dropped, and sent its FIN. */
  datatype Proxy = Proxy(target: TargetAddr, phase: Phase, chunks: seq<seq<byte>>, accepted: seq<byte>,
                         finSent: bool, dropped: bool, fin: bool)

  /** `sent`, `buffered`, `onWire` and `handled` record history: the frames queued so far, those in
      the write loop's buffer, those written with padding included, and those the server has
      processed. `net` is what TLS still carries; `hand` is a frame read but not yet routed. */
  datatype World = World(
    client: Client, proxies: map<u32, Proxy>,
    sent: seq<Frame>, buffered: seq<Frame>, onWire: seq<Frame>, net: seq<byte>,
    reader: FR.Reader, hand: Option<Frame>, handled: seq<Frame>, server: Server)

  datatype Event =
    | Register(target: TargetAddr)
    | SendSyn(sid: u32)
    | SendTarget(sid: u32)
    | Write(sid: u32, buf: seq<byte>)
    | SendPacket(sid: u32, packet: seq<byte>)
    | Shutdown(sid: u32)
    | DropStream(sid: u32)
    | Heartbeat
    | CountFrame
    | NewScheme(scheme: Pad.Scheme)
    | LoopTake
    | LoopFlush(sizes: seq<int>)
    | ClientStop
    | Deliver(n: nat)
    | Stall(a: RA.Arrival)
    | ServerPoll
    | ServerCancel
    | ServerHandle
    | ServerStop
    | AppRead(sid: u32, room: nat)
    | AppRecv(sid: u32)
    | AppDrop(sid: u32)

  function Start(scheme: Pad.Scheme, settings: seq<byte>): World {
    var f := Frame(Settings, 0, settings);
    World(Client([f], 1, true, [], scheme, 1, true, true), map[], [f], [], [], [],
          FR.Reader([], [], FR.AtHeader), None, [], Server(false, map[], map[], true))
  }

  function Send(w: World, f: Frame): World {
    w.(client := Enqueue(w.client, f), sent := w.sent + [f])
  }

  predicate IsLive(w: World, sid: u32, phase: Phase) {
    sid in w.proxies && w.proxies[sid].phase == phase && !w.proxies[sid].dropped
  }

  // ─── Client steps ───────────────────────────────────────────────────────────

  function RegisterStep(w: World, target: TargetAddr): World {
    var sid := w.client.nextId;
    w.(client := w.client.(nextId := (sid + 1) % 0x1_0000_0000),
       proxies := w.proxies[sid := Proxy(target, Registered, [], [], false, false, false)])
  }

  function SendSynStep(w: World, sid: u32): World {
    if IsLive(w, sid, Registered) && HasRoom(w.client) then
      Send(w, Frame(Syn, sid, [])).(proxies := w.proxies[sid := w.proxies[sid].(phase := SynSent)])
    else w
  }

  function SendTargetStep(w: World, sid: u32): World {
    if IsLive(w, sid, SynSent) && HasRoom(w.client) then
      Send(w, Frame(Psh, sid, ToBytes(w.proxies[sid].target)))
        .(proxies := w.proxies[sid := w.proxies[sid].(phase := Opened)])
    else w
  }

  function WriteStep(w: World, sid: u32, buf: seq<byte>): World {
    if !IsLive(w, sid, Opened) then w
    else
      var p := w.proxies[sid];
      match WriteOutcome(w.client, sid, p.finSent, buf)
      case (c, Ready(n)) =>
        if n == 0 then w
        else
          w.(client := c, sent := w.sent + [Frame(Psh, sid, buf[..n])],
             proxies := w.proxies[sid := p.(chunks := p.chunks + [buf[..n]], accepted := p.accepted + buf[..n])])
      case _ => w
  }

  /** A UDP stream queues one encoded packet, of any size. */
  function SendPacketStep(w: World, sid: u32, packet: seq<byte>): World {
    if IsLive(w, sid, Opened) && !w.proxies[sid].finSent && HasRoom(w.client) then
      var p := w.proxies[sid];
      Send(w, Frame(Psh, sid, packet))
        .(proxies := w.proxies[sid := p.(chunks := p.chunks + [packet], accepted := p.accepted + packet)])
    else w
  }

  function ShutdownStep(w: World, sid: u32): World {
    if !IsLive(w, sid, Opened) then w
    else
      var p := w.proxies[sid];
      var (c, finSent, r) := ShutdownOutcome(w.client, sid, p.finSent);
      if finSent && !p.finSent then
        w.(client := c, sent := w.sent + [Frame(Fin, sid, [])],
           proxies := w.proxies[sid := p.(finSent := true, fin := true)])
      else w
  }

  /** Dropping a stream tries to queue a FIN, which a full queue loses. */
  function DropStep(w: World, sid: u32): World {
    if !IsLive(w, sid, Opened) then w
    else
      var p := w.proxies[sid];
      if !p.finSent && HasRoom(w.client) then
        Send(w, Frame(Fin, sid, [])).(proxies := w.proxies[sid := p.(dropped := true, fin := true)])
      else w.(proxies := w.proxies[sid := p.(dropped := true)])
  }

  function TakeStep(w: World): World {
    if !w.client.open || w.client.queue == [] then w
    else
      var f := w.client.queue[0];
      w.(client := Take(w.client), buffered := if Fits(f) then w.buffered + [f] else w.buffered)
  }

  function Padding(c: Client, sizes: seq<int>): seq<Frame>
    requires SizesFor(c, sizes)
  {
    if WillPad(c) then Pad.WasteFrames(Pad.WasteLengths(|c.buffer|, sizes)) else []
  }

  function FlushStep(w: World, sizes: seq<int>): World {
    if !MayFlush(w.client) || !SizesFor(w.client, sizes) then w
    else
      w.(client := Flushed(w.client), buffered := [],
         onWire := w.onWire + (w.buffered + Padding(w.client, sizes)),
         net := w.net + Flatten(FlushRecords(w.client, sizes)))
  }

  // ─── Network and server steps ───────────────────────────────────────────────

  function Arrives(w: World, a: RA.Arrival): World {
    w.(reader := w.reader.(script := w.reader.script + [a]))
  }

  function DeliverStep(w: World, n: nat): World {
    if 0 < n <= |w.net| then Arrives(w, RA.Chunk(w.net[..n])).(net := w.net[n..]) else w
  }

  /** The transport has nothing yet, fails, or ends. */
  function StallStep(w: World, a: RA.Arrival): World {
    if a.Chunk? && a.data != [] then w else Arrives(w, a)
  }

  function PollStep(w: World): World {
    if !w.server.open || w.hand.Some? then w
    else
      var (r, p) := FR.PollFrame(w.reader);
      match p
      case Waiting => w.(reader := r)
      case Ready(f) => w.(reader := r, hand := Some(f))
      case Error => w.(reader := r, server := Closed(w.server))
  }

  function HandleStep(text: Text, w: World): World {
    if w.server.open && w.hand.Some? && !Blocked(w.server, w.hand.value) then
      w.(hand := None, handled := w.handled + [w.hand.value], server := Handle(text, w.server, w.hand.value))
    else w
  }

  function UpdateApp(w: World, sid: u32, app: App): World {
    w.(server := w.server.(apps := w.server.apps[sid := app]))
  }

  function AppReadStep(w: World, sid: u32, room: nat): World {
    if CanReceive(w.server, sid) && w.server.apps[sid].kind.Tcp? then
      UpdateApp(w, sid, ReadOutcome(w.server.apps[sid], room, sid in w.server.entries).0)
    else w
  }

  function AppRecvStep(w: World, sid: u32): World {
    if CanReceive(w.server, sid) && w.server.apps[sid].kind.Udp? then
      UpdateApp(w, sid, RecvChunk(w.server.apps[sid]))
    else w
  }

  function AppDropStep(w: World, sid: u32): World {
    if CanReceive(w.server, sid) then
      var v := UpdateApp(w, sid, w.server.apps[sid].(gone := true));
      v.(server := v.server.(entries := v.server.entries - {sid}))
    else w
  }

  function Step(text: Text, w: World, e: Event): World {
    match e
    case Register(target) => RegisterStep(w, target)
    case SendSyn(sid) => SendSynStep(w, sid)
    case SendTarget(sid) => SendTargetStep(w, sid)
    case Write(sid, buf) => WriteStep(w, sid, buf)
    case SendPacket(sid, packet) => SendPacketStep(w, sid, packet)
    case Shutdown(sid) => ShutdownStep(w, sid)
    case DropStream(sid) => DropStep(w, sid)
    case Heartbeat => if HasRoom(w.client) then Send(w, Frame(HeartResponse, 0, [])) else w
    case CountFrame => w.(client := w.client.(packetCount := w.client.packetCount + 1))
    case NewScheme(scheme) => w.(client := w.client.(scheme := scheme))
    case LoopTake => TakeStep(w)
    case LoopFlush(sizes) => FlushStep(w, sizes)
    case ClientStop => w.(client := w.client.(open := false))
    case Deliver(n) => DeliverStep(w, n)
    case Stall(a) => StallStep(w, a)
    case ServerPoll => PollStep(w)
    case ServerCancel => w.(reader := w.reader.(at := FR.AtHeader))
    case ServerHandle => HandleStep(text, w)
    case ServerStop => w.(server := Closed(w.server))
    case AppRead(sid, room) => AppReadStep(w, sid, room)
    case AppRecv(sid) => AppRecvStep(w, sid)
    case AppDrop(sid) => AppDropStep(w, sid)
  }

  /** Runs in which stream ids do not wrap around, and every padding scheme draws sizes that fit
      the 16-bit length field. */
  predicate Legal(scheme: Pad.Scheme, events: seq<Event>) {
    && Pad.FitsU16(scheme)
    && |events| < 0xFFFF_FFFF
    && forall i :: 0 <= i < |events| && events[i].NewScheme? ==> Pad.FitsU16(events[i].scheme)
  }

  function Run(text: Text, w: World, events: seq<Event>): World {
    if events == [] then w
    else Step(text, Run(text, w, events[..|events| - 1]), events[|events| - 1])
  }

  // ─── One stream's share of the frames ───────────────────────────────────────

  predicate Mine(f: Frame, sid: u32) {
    f.sid == sid && f.cmd != Command.Waste
  }

  /** The frames of stream `sid`, padding excluded. */
  function Proj(fs: seq<Frame>, sid: u32): seq<Frame> {
    if fs == [] then []
    else
      var last := fs[|fs| - 1];
      Proj(fs[..|fs| - 1], sid) + if Mine(last, sid) then [last] else []
  }

  lemma ProjOne(fs: seq<Frame>, f: Frame, sid: u32)
    ensures Proj(fs + [f], sid) == if Mine(f, sid) then Proj(fs, sid) + [f] else Proj(fs, sid)
  {
    assert (fs + [f])[..|fs|] == fs;
    assert Proj(fs, sid) + [] == Proj(fs, sid);
  }

  lemma {:induction false} ProjPrefix(a: seq<Frame>, b: seq<Frame>, sid: u32)
    requires a <= b
    ensures Proj(a, sid) <= Proj(b, sid)
  {
    if |a| == |b| {
      assert a == b;
    } else {
      assert a <= b[..|b| - 1];
      ProjPrefix(a, b[..|b| - 1], sid);
    }
  }

  lemma {:induction false} ProjReal(fs: seq<Frame>, sid: u32)
    ensures Proj(Pad.Real(fs), sid) == Proj(fs, sid)
  {
    if fs != [] {
      var init, last := fs[..|fs| - 1], fs[|fs| - 1];
      ProjReal(init, sid);
      if last.cmd == Command.Waste {
        assert Pad.Real(fs) == Pad.Real(init) + [] == Pad.Real(init);
        assert Proj(fs, sid) == Proj(init, sid) + [] == Proj(init, sid);
      } else {
        ProjOne(Pad.Real(init), last, sid);
        ProjOne(init, last, sid);
        assert fs == init + [last];
      }
    }
  }

  // ─── Invariants ─────────────────────────────────────────────────────────────

  /** Payload chunks as the server sees them: PSH frames after SYN and the target. */
  function Datas(q: seq<Frame>): seq<seq<byte>> {
    if |q| <= 2 then []
    else
      var last := q[|q| - 1];
      Datas(q[..|q| - 1]) + if last.cmd == Psh then [last.data] else []
  }

  function PshFrames(sid: u32, chunks: seq<seq<byte>>): seq<Frame> {
    if chunks == [] then []
    else PshFrames(sid, chunks[..|chunks| - 1]) + [Frame(Psh, sid, chunks[|chunks| - 1])]
  }

  /** Everything a stream has queued, in order. */
  function Log(sid: u32, p: Proxy): seq<Frame> {
    match p.phase
    case Registered => []
    case SynSent => [Frame(Syn, sid, [])]
    case Opened =>
      [Frame(Syn, sid, []), Frame(Psh, sid, ToBytes(p.target))] + PshFrames(sid, p.chunks)
      + if p.fin then [Frame(Fin, sid, [])] else []
  }

  ghost predicate QueueInv(w: World) {
    && AllFit(w.buffered) && AllFit(w.onWire)
    && w.client.buffer == EncodeAll(w.buffered)
    && (w.client.open ==> w.sent == Pad.Real(w.onWire) + w.buffered + w.client.queue)
    && Pad.Real(w.onWire) <= w.sent
    && (forall i :: 0 <= i < |w.sent| ==> w.sent[i].cmd != Command.Waste)
    && Pad.FitsU16(w.client.scheme)
  }

  function InHand(w: World): seq<Frame> {
    if w.hand.Some? then [w.hand.value] else []
  }

  ghost predicate WireInv(w: World) {
    && FR.Consistent(w.reader)
    && AllFit(w.handled + InHand(w)) && AllFit(w.onWire)
    && EncodeAll(w.onWire)
       == EncodeAll(w.handled + InHand(w)) + w.reader.buf + RA.Content(w.reader.script) + w.net
  }

  predicate ProxyOk(p: Proxy) {
    && p.accepted == Flatten(p.chunks)
    && (p.phase != Opened ==> p.chunks == [] && !p.fin && !p.finSent && !p.dropped)
    && (p.fin ==> p.finSent || p.dropped)
  }

  ghost predicate LogInv(w: World) {
    && (forall sid :: sid in w.proxies ==>
          0 < sid < w.client.nextId && ProxyOk(w.proxies[sid])
          && Proj(w.sent, sid) == Log(sid, w.proxies[sid]))
    && (forall sid: u32 :: sid > 0 && sid !in w.proxies ==> Proj(w.sent, sid) == [])
    && (forall i :: 0 <= i < |w.sent| && w.sent[i].sid == 0 ==> w.sent[i].cmd in {Settings, HeartResponse})
  }

  /** All bytes a reader was given: read, set aside, and still in the channel. */
  function Total(app: App): seq<byte> {
    app.read + app.pending + Flatten(app.chan)
  }

  /** The bytes chunks amount to for a reader: a UDP stream starts after its request header. */
  function Given(text: Text, kind: Kind, chunks: seq<seq<byte>>): seq<byte> {
    if kind.Tcp? then Flatten(chunks)
    else if chunks == [] then []
    else match ParseUotRequest(text, chunks[0])
      case Some(r) => r.tail + Flatten(chunks[1..])
      case None => []
  }

  /** The FIN of a stream comes last. */
  predicate Ended(q: seq<Frame>) {
    q != [] && q[|q| - 1].cmd == Fin
  }

  /** A stream that has said SYN is waited for; one that has named its target has its reader, or is
      waited for to make its UDP-over-TCP request, and has its reader after that. */
  predicate Dispatched(text: Text, q: seq<Frame>, sid: u32, s: Server) {
    && (|q| == 1 && q[0].cmd == Syn ==> sid in s.entries && s.entries[sid] == Waiting)
    && (|q| >= 2 && q[1].cmd == Psh && ParseTarget(text, q[1].data).Ok? ==>
          var t := ParseTarget(text, q[1].data).target;
          if !IsUot(t) then sid in s.apps
          else
            && (|q| == 2 ==> sid in s.entries && s.entries[sid] == WaitingUotRequest(t))
            && (|q| >= 3 && q[2].cmd == Psh && ParseUotRequest(text, q[2].data).Some? ==> sid in s.apps))
  }

  /** Where stream `sid` stands at the server, given its frames processed so far. A reader that is
      there has been given everything, and the table holds its stream exactly until the FIN. */
  predicate StreamOk(text: Text, q: seq<Frame>, sid: u32, s: Server) {
    && (s.open ==> Dispatched(text, q, sid, s))
    && (s.open && sid in s.entries ==>
          && !Ended(q)
          && match s.entries[sid]
             case Waiting => |q| == 1 && q[0].cmd == Syn
             case WaitingUotRequest(t) =>
               |q| == 2 && q[1].cmd == Psh && ParseTarget(text, q[1].data) == Ok(t) && IsUot(t)
             case Active => CanReceive(s, sid))
    && (s.open && CanReceive(s, sid) ==>
          && Total(s.apps[sid]) == Given(text, s.apps[sid].kind, Datas(q))
          && (sid in s.entries <==> !Ended(q)))
    && (sid in s.apps ==> AppOk(text, q, s.apps[sid]))
  }

  predicate AppOk(text: Text, q: seq<Frame>, app: App) {
    && |q| >= 2 && q[1].cmd == Psh
    && ParseTarget(text, q[1].data) == Ok(app.target)
    && (match app.kind
        case Tcp => !IsUot(app.target)
        case Udp(isConnect, dest) =>
          && IsUot(app.target) && app.pending == []
          && Datas(q) != []
          && ParseUotRequest(text, Datas(q)[0]).Some?
          && var r := ParseUotRequest(text, Datas(q)[0]).value;
             r.isConnect == isConnect && r.dest == dest)
    && Total(app) <= Given(text, app.kind, Datas(q))
  }

  ghost predicate ServerInv(text: Text, w: World) {
    forall sid :: StreamOk(text, Proj(w.handled, sid), sid, w.server)
  }

  ghost predicate Inv(text: Text, w: World) {
    QueueInv(w) && WireInv(w) && LogInv(w) && ServerInv(text, w)
  }

  // ─── The client's queue and streams ─────────────────────────────────────────

  lemma QueueSend(w: World, f: Frame)
    requires QueueInv(w) && HasRoom(w.client) && f.cmd != Command.Waste
    ensures QueueInv(Send(w, f))
  {
    Assoc(Pad.Real(w.onWire) + w.buffered, w.client.queue, [f]);
  }

  /** Queueing `f` for stream `sid` extends that stream's log by `f` and no other's. */
  lemma LogSend(w: World, sid: u32, f: Frame, p: Proxy, w': World)
    requires LogInv(w) && sid in w.proxies && Mine(f, sid) && ProxyOk(p)
    requires Log(sid, p) == Log(sid, w.proxies[sid]) + [f]
    requires w'.sent == w.sent + [f] && w'.proxies == w.proxies[sid := p] && w'.client.nextId == w.client.nextId
    ensures LogInv(w')
  {
    hide Proj, Log;
    forall other: u32 | other > 0
      ensures other in w'.proxies ==> Proj(w'.sent, other) == Log(other, w'.proxies[other])
      ensures other !in w'.proxies ==> Proj(w'.sent, other) == []
    {
      ProjOne(w.sent, f, other);
    }
  }

  lemma LogChunk(sid: u32, p: Proxy, chunk: seq<byte>)
    requires p.phase == Opened && !p.fin
    ensures Log(sid, p.(chunks := p.chunks + [chunk], accepted := p.accepted + chunk))
            == Log(sid, p) + [Frame(Psh, sid, chunk)]
  {
    var head := [Frame(Syn, sid, []), Frame(Psh, sid, ToBytes(p.target))];
    assert (p.chunks + [chunk])[..|p.chunks|] == p.chunks;
    Assoc(head, PshFrames(sid, p.chunks), [Frame(Psh, sid, chunk)]);
    assert head + PshFrames(sid, p.chunks) + [] == head + PshFrames(sid, p.chunks);
    assert Log(sid, p) == head + PshFrames(sid, p.chunks);
    var p' := p.(chunks := p.chunks + [chunk], accepted := p.accepted + chunk);
    assert Log(sid, p') == head + PshFrames(sid, p'.chunks) + [] == head + PshFrames(sid, p'.chunks);
  }

  lemma LogFin(sid: u32, p: Proxy, p': Proxy)
    requires p.phase == p'.phase == Opened && !p.fin && p'.fin
    requires p'.chunks == p.chunks && p'.target == p.target
    ensures Log(sid, p') == Log(sid, p) + [Frame(Fin, sid, [])]
  {
    var front := [Frame(Syn, sid, []), Frame(Psh, sid, ToBytes(p.target))] + PshFrames(sid, p.chunks);
    assert front + [] == front;
  }

  lemma RegisterKeeps(text: Text, w: World, target: TargetAddr)
    requires Inv(text, w) && 0 < w.client.nextId < 0xFFFF_FFFF
    ensures Inv(text, RegisterStep(w, target))
  {
    hide StreamOk, Proj, RA.Content, EncodeAll, LogInv, Pad.Real;
    RegisterLog(w, target);
  }

  lemma RegisterLog(w: World, target: TargetAddr)
    requires LogInv(w) && 0 < w.client.nextId < 0xFFFF_FFFF
    ensures LogInv(RegisterStep(w, target))
  {
    hide Proj;
    var sid := w.client.nextId;
    var w' := RegisterStep(w, target);
    assert sid !in w.proxies;
    assert w'.client.nextId == sid + 1;
    assert Log(sid, w'.proxies[sid]) == [];
  }

  lemma SendSynKeeps(text: Text, w: World, sid: u32)
    requires Inv(text, w)
    ensures Inv(text, SendSynStep(w, sid))
  {
    hide StreamOk, Proj, RA.Content, EncodeAll;
    if IsLive(w, sid, Registered) && HasRoom(w.client) {
      var f := Frame(Syn, sid, []);
      QueueSend(w, f);
      assert [] + [f] == [f];
      LogSend(w, sid, f, w.proxies[sid].(phase := SynSent), SendSynStep(w, sid));
    }
  }

  lemma SendTargetKeeps(text: Text, w: World, sid: u32)
    requires Inv(text, w)
    ensures Inv(text, SendTargetStep(w, sid))
  {
    hide StreamOk, Proj, RA.Content, EncodeAll;
    if IsLive(w, sid, SynSent) && HasRoom(w.client) {
      var f := Frame(Psh, sid, ToBytes(w.proxies[sid].target));
      var p := w.proxies[sid].(phase := Opened);
      QueueSend(w, f);
      assert Log(sid, p) == [Frame(Syn, sid, []), f];
      LogSend(w, sid, f, p, SendTargetStep(w, sid));
    }
  }

  lemma ChunkKeeps(text: Text, w: World, sid: u32, chunk: seq<byte>)
    requires Inv(text, w)
    requires IsLive(w, sid, Opened) && !w.proxies[sid].finSent && HasRoom(w.client)
    ensures var p := w.proxies[sid];
            var p' := p.(chunks := p.chunks + [chunk], accepted := p.accepted + chunk);
            Inv(text, Send(w, Frame(Psh, sid, chunk)).(proxies := w.proxies[sid := p']))
  {
    hide StreamOk, Proj, RA.Content, EncodeAll, Log;
    var p := w.proxies[sid];
    var p' := p.(chunks := p.chunks + [chunk], accepted := p.accepted + chunk);
    var f := Frame(Psh, sid, chunk);
    QueueSend(w, f);
    LogChunk(sid, p, chunk);
    FlattenOne(p.chunks, chunk);
    LogSend(w, sid, f, p', Send(w, f).(proxies := w.proxies[sid := p']));
  }

  lemma WriteKeeps(text: Text, w: World, sid: u32, buf: seq<byte>)
    requires Inv(text, w)
    ensures Inv(text, WriteStep(w, sid, buf))
  {
    hide Inv;
    if IsLive(w, sid, Opened) && !w.proxies[sid].finSent && HasRoom(w.client) && buf != [] {
      ChunkKeeps(text, w, sid, buf[..Min(|buf|, 0xFFFF)]);
    }
  }

  lemma SendPacketKeeps(text: Text, w: World, sid: u32, packet: seq<byte>)
    requires Inv(text, w)
    ensures Inv(text, SendPacketStep(w, sid, packet))
  {
    hide Inv;
    if IsLive(w, sid, Opened) && !w.proxies[sid].finSent && HasRoom(w.client) {
      ChunkKeeps(text, w, sid, packet);
    }
  }

  lemma FinKeeps(text: Text, w: World, sid: u32, p: Proxy)
    requires Inv(text, w)
    requires IsLive(w, sid, Opened) && !w.proxies[sid].finSent && HasRoom(w.client)
    requires p == w.proxies[sid].(finSent := true, fin := true) || p == w.proxies[sid].(dropped := true, fin := true)
    ensures Inv(text, Send(w, Frame(Fin, sid, [])).(proxies := w.proxies[sid := p]))
  {
    hide StreamOk, Proj, RA.Content, EncodeAll, Log;
    var f := Frame(Fin, sid, []);
    QueueSend(w, f);
    LogFin(sid, w.proxies[sid], p);
    LogSend(w, sid, f, p, Send(w, f).(proxies := w.proxies[sid := p]));
  }

  lemma ShutdownKeeps(text: Text, w: World, sid: u32)
    requires Inv(text, w)
    ensures Inv(text, ShutdownStep(w, sid))
  {
    hide Inv;
    if IsLive(w, sid, Opened) && !w.proxies[sid].finSent && HasRoom(w.client) {
      FinKeeps(text, w, sid, w.proxies[sid].(finSent := true, fin := true));
    }
  }

  lemma DropKeeps(text: Text, w: World, sid: u32)
    requires Inv(text, w)
    ensures Inv(text, DropStep(w, sid))
  {
    hide Inv;
    if IsLive(w, sid, Opened) {
      var p := w.proxies[sid];
      if !p.finSent && HasRoom(w.client) {
        FinKeeps(text, w, sid, p.(dropped := true, fin := true));
      } else {
        JustDropped(text, w, sid);
      }
    }
  }

  lemma JustDropped(text: Text, w: World, sid: u32)
    requires Inv(text, w) && IsLive(w, sid, Opened)
    ensures Inv(text, w.(proxies := w.proxies[sid := w.proxies[sid].(dropped := true)]))
  {
    hide StreamOk, Proj, RA.Content, EncodeAll, Pad.Real;
    var p := w.proxies[sid].(dropped := true);
    assert Log(sid, p) == Log(sid, w.proxies[sid]);
  }

  lemma HeartbeatKeeps(text: Text, w: World)
    requires Inv(text, w) && HasRoom(w.client)
    ensures Inv(text, Send(w, Frame(HeartResponse, 0, [])))
  {
    hide StreamOk, Proj, RA.Content, EncodeAll, Log;
    var f := Frame(HeartResponse, 0, []);
    QueueSend(w, f);
    forall sid: u32 | sid > 0 ensures Proj(w.sent + [f], sid) == Proj(w.sent, sid) {
      ProjOne(w.sent, f, sid);
    }
  }

  // ─── The write loop ─────────────────────────────────────────────────────────

  lemma TakeKeeps(text: Text, w: World)
    requires Inv(text, w)
    ensures Inv(text, TakeStep(w))
  {
    hide StreamOk, Proj, RA.Content, Log, Encode, EncodeAll;
    if w.client.open && w.client.queue != [] {
      var f, rest := w.client.queue[0], w.client.queue[1..];
      assert w.client.queue == [f] + rest;
      if Fits(f) {
        EncodeAllAppend(w.buffered, [f]);
        EncodeOne(f);
        Assoc(Pad.Real(w.onWire) + w.buffered, [f], rest);
        Assoc(Pad.Real(w.onWire), w.buffered, [f]);
      }
    }
  }

  lemma EncodeOne(f: Frame)
    requires Fits(f)
    ensures AllFit([f]) && EncodeAll([f]) == Encode(f)
  {
    assert EncodeAll([f]) == Encode(f) + [];
  }

  /** One batch: what is written encodes the buffered frames and WASTE, and nothing else. */
  lemma BatchOnWire(w: World, sizes: seq<int>)
    requires QueueInv(w) && MayFlush(w.client) && SizesFor(w.client, sizes)
    ensures var batch := w.buffered + Padding(w.client, sizes);
            && AllFit(batch) && EncodeAll(batch) == Flatten(FlushRecords(w.client, sizes))
            && Pad.Real(batch) == w.buffered
  {
    hide EncodeAll, Pad.Records, Pad.Drawn, Pad.WasteFrames, Pad.FitsU16;
    assert forall i :: 0 <= i < |w.buffered| ==> w.buffered[i] == w.sent[|Pad.Real(w.onWire)| + i];
    if WillPad(w.client) {
      Pad.SchemeDrawsFit(w.client.scheme, w.client.packetCount, sizes);
      Pad.PaddingInvisible(w.buffered, sizes);
    } else {
      Pad.RealOfReal(w.buffered);
      assert w.buffered + [] == w.buffered;
      assert Flatten([w.client.buffer]) == w.client.buffer + [] == w.client.buffer;
    }
  }

  lemma FlushKeeps(text: Text, w: World, sizes: seq<int>)
    requires Inv(text, w)
    ensures Inv(text, FlushStep(w, sizes))
  {
    hide StreamOk, Proj, RA.Content, Log, EncodeAll, FlushRecords, Padding, Pad.Real;
    if MayFlush(w.client) && SizesFor(w.client, sizes) {
      var batch := w.buffered + Padding(w.client, sizes);
      BatchOnWire(w, sizes);
      Pad.RealAppend(w.onWire, batch);
      EncodeAllAppend(w.onWire, batch);
      EmptyEncodes();
      var useful := Pad.Real(w.onWire) + w.buffered;
      assert useful + [] == useful;
      Assoc(EncodeAll(w.handled + InHand(w)) + w.reader.buf + RA.Content(w.reader.script), w.net, EncodeAll(batch));
    }
  }

  lemma EmptyEncodes()
    ensures AllFit([]) && EncodeAll([]) == []
  {
  }

  // ─── The network and the frame reader ───────────────────────────────────────

  lemma ArriveKeeps(text: Text, w: World, a: RA.Arrival, w': World)
    requires Inv(text, w)
    requires w' == Arrives(w, a).(net := w'.net)
    requires (if a.Chunk? then a.data else []) + w'.net == w.net
    ensures Inv(text, w')
  {
    hide StreamOk, Proj, Log, EncodeAll, Pad.Real, RA.Content;
    var data := if a.Chunk? then a.data else [];
    RA.ContentAppend(w.reader.script, [a]);
    ContentOne(a);
    var front := EncodeAll(w.handled + InHand(w)) + w.reader.buf;
    Assoc(front, RA.Content(w.reader.script), data);
    Assoc(front + RA.Content(w.reader.script), data, w'.net);
  }

  lemma ContentOne(a: RA.Arrival)
    ensures RA.Content([a]) == if a.Chunk? then a.data else []
  {
    var data := if a.Chunk? then a.data else [];
    assert RA.Content([a]) == data + RA.Content([]) == data;
  }

  lemma DeliverKeeps(text: Text, w: World, n: nat)
    requires Inv(text, w)
    ensures Inv(text, DeliverStep(w, n))
  {
    hide Inv;
    if 0 < n <= |w.net| {
      Split(w.net, n);
      ArriveKeeps(text, w, RA.Chunk(w.net[..n]), DeliverStep(w, n));
    }
  }

  lemma StallKeeps(text: Text, w: World, a: RA.Arrival)
    requires Inv(text, w)
    ensures Inv(text, StallStep(w, a))
  {
    hide Inv;
    if !(a.Chunk? && a.data != []) {
      assert [] + w.net == w.net;
      ArriveKeeps(text, w, a, Arrives(w, a));
    }
  }

  lemma PollKeeps(text: Text, w: World)
    requires Inv(text, w)
    ensures Inv(text, PollStep(w))
  {
    hide Proj, Log, EncodeAll, Encode, Pad.Real, RA.Content, FR.PollFrame, Datas, Given, AppOk;
    if w.server.open && w.hand.None? {
      FR.PollIsParse(w.reader);
      var (r, p) := FR.PollFrame(w.reader);
      assert w.handled + [] == w.handled;
      if p.Ready? {
        EncodeAllAppend(w.handled, [p.frame]);
        EncodeOne(p.frame);
        FR.Shift(EncodeAll(w.handled), w.reader.buf, RA.Content(w.reader.script),
                 Encode(p.frame), r.buf, RA.Content(r.script));
      } else {
        FR.Shift(EncodeAll(w.handled), w.reader.buf, RA.Content(w.reader.script), [], r.buf, RA.Content(r.script));
        assert EncodeAll(w.handled) + [] == EncodeAll(w.handled);
      }
    }
  }

  /** What the server has read is what the client sent: stream by stream, a prefix. */
  lemma HandledIsSent(w: World, sid: u32)
    requires QueueInv(w) && WireInv(w)
    ensures w.handled + InHand(w) <= w.onWire
    ensures Proj(w.handled + InHand(w), sid) <= Proj(w.sent, sid)
  {
    hide Proj, EncodeAll, Pad.Real, RA.Content;
    var fs := w.handled + InHand(w);
    var tail := w.reader.buf + RA.Content(w.reader.script) + w.net;
    Assoc(EncodeAll(fs), w.reader.buf, RA.Content(w.reader.script));
    Assoc(EncodeAll(fs), w.reader.buf + RA.Content(w.reader.script), w.net);
    FR.PrefixOfEncoding(fs, tail, EncodeAll(w.onWire), w.onWire);
    ProjPrefix(fs, w.onWire, sid);
    ProjReal(w.onWire, sid);
    ProjPrefix(Pad.Real(w.onWire), w.sent, sid);
  }

  // ─── The server's streams ───────────────────────────────────────────────────

  lemma DatasOne(q: seq<Frame>, f: Frame)
    ensures Datas(q + [f]) == if |q| >= 2 && f.cmd == Psh then Datas(q) + [f.data] else Datas(q)
  {
    assert (q + [f])[..|q|] == q;
    assert Datas(q) + [] == Datas(q);
  }

  lemma {:induction false} DatasPrefix(a: seq<Frame>, b: seq<Frame>)
    requires a <= b
    ensures Datas(a) <= Datas(b)
  {
    if |a| == |b| {
      assert a == b;
    } else {
      var init := b[..|b| - 1];
      DatasPrefix(a, init);
      assert b == init + [b[|b| - 1]];
      DatasOne(init, b[|b| - 1]);
    }
  }

  lemma FlattenPrefix<T>(a: seq<seq<T>>, b: seq<seq<T>>)
    requires a <= b
    ensures Flatten(a) <= Flatten(b)
  {
    assert b == a + b[|a|..];
    FlattenAppend(a, b[|a|..]);
  }

  lemma GivenOne(text: Text, kind: Kind, chunks: seq<seq<byte>>, chunk: seq<byte>)
    requires kind.Udp? ==> chunks != [] && ParseUotRequest(text, chunks[0]).Some?
    ensures Given(text, kind, chunks + [chunk]) == Given(text, kind, chunks) + chunk
  {
    if kind.Tcp? {
      FlattenOne(chunks, chunk);
    } else {
      var tail := ParseUotRequest(text, chunks[0]).value.tail;
      assert (chunks + [chunk])[1..] == chunks[1..] + [chunk];
      FlattenOne(chunks[1..], chunk);
      Assoc(tail, Flatten(chunks[1..]), chunk);
    }
  }

  lemma GivenPrefix(text: Text, kind: Kind, a: seq<seq<byte>>, b: seq<seq<byte>>)
    requires a <= b
    ensures Given(text, kind, a) <= Given(text, kind, b)
  {
    if kind.Tcp? {
      FlattenPrefix(a, b);
    } else if a != [] {
      assert a[0] == b[0];
      FlattenPrefix(a[1..], b[1..]);
    }
  }

  /** More frames never disturb what a reader was given. */
  lemma AppGrows(text: Text, q: seq<Frame>, f: Frame, app: App)
    requires AppOk(text, q, app)
    ensures AppOk(text, q + [f], app)
  {
    hide Given;
    DatasOne(q, f);
    assert q <= q + [f];
    DatasPrefix(q, q + [f]);
    GivenPrefix(text, app.kind, Datas(q), Datas(q + [f]));
  }

  /** A frame leaves the streams it is not for where they were. */
  lemma OthersUntouched(text: Text, s: Server, f: Frame, sid: u32)
    requires sid != f.sid
    ensures var s' := Handle(text, s, f);
            && (sid in s'.entries ==> sid in s.entries && s'.entries[sid] == s.entries[sid])
            && (s'.open ==> (sid in s'.entries <==> sid in s.entries))
            && (sid in s'.apps <==> sid in s.apps)
            && (sid in s.apps ==> s'.apps[sid] == s.apps[sid])
  {
  }

  lemma NewApp(text: Text, q: seq<Frame>, f: Frame, t: TargetAddr)
    requires |q| == 1 && f.cmd == Psh && ParseTarget(text, f.data) == Ok(t) && !IsUot(t)
    ensures var app := App(t, Tcp, [], [], [], false);
            AppOk(text, q + [f], app) && Total(app) == Given(text, Tcp, Datas(q + [f]))
  {
    hide ParseTarget, ParseUotRequest, IsUot, Datas;
    DatasOne(q, f);
    assert Datas(q + [f]) == [] by { NoDatas(q + [f]); }
  }

  lemma NoDatas(q: seq<Frame>)
    requires |q| <= 2
    ensures Datas(q) == []
  {
  }

  lemma NewUdpApp(text: Text, q: seq<Frame>, f: Frame, t: TargetAddr)
    requires |q| == 2 && f.cmd == Psh && q[1].cmd == Psh
    requires ParseTarget(text, q[1].data) == Ok(t) && IsUot(t)
    requires ParseUotRequest(text, f.data).Some?
    ensures var r := ParseUotRequest(text, f.data).value;
            var kind := Udp(r.isConnect, r.dest);
            var app := App(t, kind, if r.tail == [] then [] else [r.tail], [], [], false);
            AppOk(text, q + [f], app) && Total(app) == Given(text, kind, Datas(q + [f]))
  {
    hide ParseUotRequest, ParseTarget;
    DatasOne(q, f);
    var tail := ParseUotRequest(text, f.data).value.tail;
    assert Datas(q + [f]) == [f.data];
    assert [f.data][1..] == [];
    assert tail + Flatten<byte>([]) == tail;
    assert Flatten([tail]) == tail + Flatten<byte>([]);
  }

  lemma DataArrives(text: Text, q: seq<Frame>, f: Frame, app: App)
    requires AppOk(text, q, app) && f.cmd == Psh
    requires Total(app) == Given(text, app.kind, Datas(q))
    ensures var app' := app.(chan := app.chan + [f.data]);
            AppOk(text, q + [f], app') && Total(app') == Given(text, app'.kind, Datas(q + [f]))
  {
    hide Given, ParseUotRequest, ParseTarget;
    DatasOne(q, f);
    GivenOne(text, app.kind, Datas(q), f.data);
    FlattenOne(app.chan, f.data);
    Assoc(app.read + app.pending, Flatten(app.chan), f.data);
  }

  lemma AppHasTarget(text: Text, q: seq<Frame>, app: App)
    requires AppOk(text, q, app)
    ensures |q| >= 2 && q[1].cmd == Psh
  {
  }

  lemma PshKeepsStream(text: Text, q: seq<Frame>, f: Frame, s: Server)
    requires StreamOk(text, q, f.sid, s) && s.open && f.cmd == Psh && !Ended(q)
    requires q != [] && q[0].cmd == Syn
    ensures StreamOk(text, q + [f], f.sid, HandlePsh(text, s, f.sid, f.data))
  {
    hide AppOk, Given, ParseTarget, ParseUotRequest, Datas, Total;
    var sid := f.sid;
    PshDispatches(text, q, f, s);
    if sid in s.apps {
      AppGrows(text, q, f, s.apps[sid]);
    }
    if sid in s.entries {
      match s.entries[sid]
      case Waiting =>
        NoAppYet(text, q, s, sid);
        match ParseTarget(text, f.data) {
          case Ok(t) =>
            assert (q + [f])[1] == f;
            if !IsUot(t) {
              NewApp(text, q, f, t);
            }
          case _ =>
        }
      case WaitingUotRequest(t) =>
        NoAppYet(text, q, s, sid);
        if ParseUotRequest(text, f.data).Some? {
          NewUdpApp(text, q, f, t);
        }
      case Active =>
        if CanReceive(s, sid) {
          DataArrives(text, q, f, s.apps[sid]);
        }
    }
  }

  lemma PshDispatches(text: Text, q: seq<Frame>, f: Frame, s: Server)
    requires StreamOk(text, q, f.sid, s) && s.open && f.cmd == Psh && q != [] && q[0].cmd == Syn
    ensures var s' := HandlePsh(text, s, f.sid, f.data); s'.open ==> Dispatched(text, q + [f], f.sid, s')
  {
    hide AppOk, Given, ParseTarget, ParseUotRequest, Datas, Total;
    var more := q + [f];
    assert forall i :: 0 <= i < |q| ==> more[i] == q[i];
    assert more[|q|] == f;
  }

  /** A stream still waiting has no reader. */
  lemma NoAppYet(text: Text, q: seq<Frame>, s: Server, sid: u32)
    requires StreamOk(text, q, sid, s) && s.open && sid in s.entries && s.entries[sid] != Active
    ensures sid !in s.apps
  {
  }

  lemma MineKeepsStream(text: Text, q: seq<Frame>, f: Frame, s: Server)
    requires StreamOk(text, q, f.sid, s) && s.open
    requires !Ended(q) && (f.cmd == Syn ==> q == []) && (f.cmd == Psh ==> q != [] && q[0].cmd == Syn)
    requires f.sid in s.entries || f.sid in s.apps ==> f.cmd in {Syn, Psh, Fin}
    ensures StreamOk(text, q + [f], f.sid, Handle(text, s, f))
  {
    hide AppOk, Given, ParseTarget, ParseUotRequest, Datas, Total, HandlePsh, StreamOk;
    if !s.settled {
      UnsettledKeepsStream(text, q, f, s);
    } else if f.cmd == Psh {
      PshKeepsStream(text, q, f, s);
    } else {
      BareKeepsStream(text, q, f, s);
    }
  }

  lemma UnsettledKeepsStream(text: Text, q: seq<Frame>, f: Frame, s: Server)
    requires StreamOk(text, q, f.sid, s) && s.open && !s.settled
    requires f.sid in s.entries || f.sid in s.apps ==> f.cmd in {Syn, Psh, Fin}
    ensures StreamOk(text, q + [f], f.sid, Handle(text, s, f))
  {
    hide AppOk, Given, ParseTarget, ParseUotRequest, Datas, Total, HandlePsh;
    if f.sid in s.apps {
      AppGrows(text, q, f, s.apps[f.sid]);
    }
  }

  /** A frame without payload. */
  lemma BareKeepsStream(text: Text, q: seq<Frame>, f: Frame, s: Server)
    requires StreamOk(text, q, f.sid, s) && s.open && s.settled && f.cmd != Psh
    requires !Ended(q) && (f.cmd == Syn ==> q == [])
    requires f.sid in s.entries || f.sid in s.apps ==> f.cmd in {Syn, Psh, Fin}
    ensures StreamOk(text, q + [f], f.sid, Handle(text, s, f))
  {
    hide AppOk, Given, ParseTarget, ParseUotRequest, Total, HandlePsh, Datas, StreamOk;
    if f.cmd == Syn {
      SynKeepsStream(text, q, f, s);
    } else if f.sid in s.entries || f.sid in s.apps {
      FinKeepsStream(text, q, f, s);
    } else {
      StrangerKeepsStream(text, q, f, s);
    }
  }

  lemma SynKeepsStream(text: Text, q: seq<Frame>, f: Frame, s: Server)
    requires StreamOk(text, q, f.sid, s) && s.open && s.settled && f.cmd == Syn && q == []
    ensures StreamOk(text, q + [f], f.sid, Handle(text, s, f))
  {
    hide Given, ParseTarget, ParseUotRequest, Total, HandlePsh, Datas;
    assert q + [f] == [f];
    assert f.sid !in s.apps;
  }

  lemma FinKeepsStream(text: Text, q: seq<Frame>, f: Frame, s: Server)
    requires StreamOk(text, q, f.sid, s) && s.open && s.settled && f.cmd == Fin
    ensures StreamOk(text, q + [f], f.sid, Handle(text, s, f))
  {
    hide AppOk, Given, ParseTarget, ParseUotRequest, Total, HandlePsh, Datas, Dispatched;
    BareDispatches(text, q, f, s);
    DatasOne(q, f);
    assert Ended(q + [f]);
    if f.sid in s.apps {
      AppGrows(text, q, f, s.apps[f.sid]);
    }
  }

  lemma StrangerKeepsStream(text: Text, q: seq<Frame>, f: Frame, s: Server)
    requires StreamOk(text, q, f.sid, s)
    requires s.open && s.settled && f.cmd != Psh && f.cmd != Syn && f.sid !in s.entries && f.sid !in s.apps
    ensures StreamOk(text, q + [f], f.sid, Handle(text, s, f))
  {
    hide AppOk, Given, ParseTarget, ParseUotRequest, Total, HandlePsh, Datas, Dispatched;
    BareDispatches(text, q, f, s);
  }

  lemma BareDispatches(text: Text, q: seq<Frame>, f: Frame, s: Server)
    requires Dispatched(text, q, f.sid, s) && s.open && s.settled && f.cmd != Psh && f.cmd != Syn
    ensures Handle(text, s, f).open ==> Dispatched(text, q + [f], f.sid, Handle(text, s, f))
  {
    hide ParseTarget, ParseUotRequest, HandlePsh;
    var more := q + [f];
    assert forall i :: 0 <= i < |q| ==> more[i] == q[i];
    assert more[|q|] == f;
  }

  lemma OthersKeepStream(text: Text, q: seq<Frame>, f: Frame, sid: u32, s: Server)
    requires StreamOk(text, q, sid, s) && s.open && !Mine(f, sid)
    ensures StreamOk(text, q, sid, Handle(text, s, f))
  {
    hide AppOk, Given, Datas, Total, HandlePsh;
    if sid != f.sid {
      OthersUntouched(text, s, f, sid);
    }
  }

  lemma {:induction false} ProjMembers(fs: seq<Frame>, sid: u32, i: nat)
    requires i < |Proj(fs, sid)|
    ensures Proj(fs, sid)[i] in fs && Mine(Proj(fs, sid)[i], sid)
  {
    var init := fs[..|fs| - 1];
    if i < |Proj(init, sid)| {
      ProjMembers(init, sid, i);
    }
  }

  lemma {:induction false} PshFramesAre(sid: u32, chunks: seq<seq<byte>>)
    ensures |PshFrames(sid, chunks)| == |chunks|
    ensures forall i :: 0 <= i < |chunks| ==> PshFrames(sid, chunks)[i] == Frame(Psh, sid, chunks[i])
  {
    if chunks != [] {
      PshFramesAre(sid, chunks[..|chunks| - 1]);
    }
  }

  /** A stream's log opens with its only SYN; then come PSH frames, and last a FIN. */
  lemma LogShape(sid: u32, p: Proxy, i: nat)
    requires i < |Log(sid, p)|
    ensures Log(sid, p)[i].cmd in {Syn, Psh, Fin}
    ensures Log(sid, p)[i].cmd == Syn <==> i == 0
    ensures Log(sid, p)[i].cmd == Fin ==> i == |Log(sid, p)| - 1
  {
    PshFramesAre(sid, p.chunks);
  }

  /** The next frame of a stream is one its log allows. */
  lemma NextInLog(text: Text, w: World)
    requires Inv(text, w) && w.hand.Some? && w.server.open
    ensures var f := w.hand.value;
            Mine(f, f.sid) ==>
              && !Ended(Proj(w.handled, f.sid))
              && (f.cmd == Syn ==> Proj(w.handled, f.sid) == [])
              && (f.cmd == Psh ==> Proj(w.handled, f.sid) != [] && Proj(w.handled, f.sid)[0].cmd == Syn)
              && (f.sid in w.server.entries || f.sid in w.server.apps ==> f.cmd in {Syn, Psh, Fin})
  {
    hide Log, EncodeAll, Pad.Real, RA.Content, AppOk, Given, Datas, Total, QueueInv, WireInv, StreamOk;
    var f := w.hand.value;
    var sid := f.sid;
    var q := Proj(w.handled, sid);
    if Mine(f, sid) {
      HandledIsSent(w, sid);
      ProjOne(w.handled, f, sid);
      assert w.handled + InHand(w) == w.handled + [f];
      assert q + [f] <= Proj(w.sent, sid);
      NextSent(text, w, sid, q, f);
    }
  }

  /** What can come next for a stream that has sent `q` and then `f`. */
  lemma NextSent(text: Text, w: World, sid: u32, q: seq<Frame>, f: Frame)
    requires Inv(text, w) && w.server.open && q + [f] <= Proj(w.sent, sid)
    ensures !Ended(q) && (f.cmd == Syn ==> q == []) && (f.cmd == Psh ==> q != [] && q[0].cmd == Syn)
    ensures sid in w.server.entries || sid in w.server.apps ==> f.cmd in {Syn, Psh, Fin}
  {
    hide Log, EncodeAll, Pad.Real, RA.Content, AppOk, Given, Datas, Total, Proj, WireInv;
    var sent := Proj(w.sent, sid);
    assert sent[|q|] == f;
    ProjMembers(w.sent, sid, |q|);
    if q != [] {
      assert sent[|q| - 1] == q[|q| - 1];
      ProjMembers(w.sent, sid, |q| - 1);
    }
    if sid > 0 {
      assert sid in w.proxies;
      LogShape(sid, w.proxies[sid], |q|);
      if q != [] {
        LogShape(sid, w.proxies[sid], |q| - 1);
        LogShape(sid, w.proxies[sid], 0);
        assert q[0] == sent[0];
      }
    } else {
      NoStreamZero(text, w);
    }
  }

  /** Stream id 0 carries session frames only. */
  lemma NoStreamZero(text: Text, w: World)
    requires Inv(text, w) && w.server.open
    ensures 0 !in w.server.entries && 0 !in w.server.apps
    ensures forall i :: 0 <= i < |w.sent| && w.sent[i].sid == 0 ==> w.sent[i].cmd != Syn
  {
    hide Log, EncodeAll, Pad.Real, RA.Content, Given, Datas, Total, Proj;
    if 0 in w.server.entries || 0 in w.server.apps {
      var q := Proj(w.handled, 0);
      assert StreamOk(text, q, 0, w.server);
      HandledIsSent(w, 0);
      ProjPrefix(w.handled, w.handled + InHand(w), 0);
      var i := if 0 in w.server.entries && w.server.entries[0] == Waiting then 0 else 1;
      assert q[i] == Proj(w.sent, 0)[i];
      ProjMembers(w.sent, 0, i);
      assert false;
    }
  }

  lemma HandleKeeps(text: Text, w: World)
    requires Inv(text, w)
    ensures Inv(text, HandleStep(text, w))
  {
    hide Log, EncodeAll, Pad.Real, RA.Content, StreamOk, Proj, Handle;
    if w.server.open && w.hand.Some? && !Blocked(w.server, w.hand.value) {
      var f := w.hand.value;
      NextInLog(text, w);
      assert w.handled + [f] + [] == w.handled + [f];
      forall sid: u32 ensures StreamOk(text, Proj(w.handled + [f], sid), sid, Handle(text, w.server, f)) {
        ProjOne(w.handled, f, sid);
        if Mine(f, sid) {
          MineKeepsStream(text, Proj(w.handled, sid), f, w.server);
        } else {
          OthersKeepStream(text, Proj(w.handled, sid), f, sid, w.server);
        }
      }
    }
  }

  // ─── Readers ────────────────────────────────────────────────────────────────

  /** A reader's step moves bytes along without losing or reordering any. */
  lemma ReadConserves(app: App, room: nat, live: bool)
    ensures var app' := ReadOutcome(app, room, live).0;
            && Total(app') == Total(app) && app.read <= app'.read
            && app'.target == app.target && app'.kind == app.kind && app'.gone == app.gone
  {
    if app.pending != [] {
      Split(app.pending, Min(room, |app.pending|));
      Assoc(app.read, app.pending[..Min(room, |app.pending|)], app.pending[Min(room, |app.pending|)..]);
    } else if app.chan != [] {
      var data := app.chan[0];
      var n := Min(room, |data|);
      Split(data, n);
      Assoc(app.read, data[..n], data[n..]);
      Assoc(app.read, data, Flatten(app.chan[1..]));
      assert app.read + [] == app.read;
    }
  }

  lemma RecvConserves(app: App)
    requires app.pending == []
    ensures Total(RecvChunk(app)) == Total(app)
    ensures RecvChunk(app).target == app.target && RecvChunk(app).kind == app.kind
    ensures RecvChunk(app).pending == [] && RecvChunk(app).gone == app.gone
  {
    if app.chan != [] {
      assert app.read + [] == app.read;
      assert app.read + app.chan[0] + [] == app.read + app.chan[0];
      Assoc(app.read, app.chan[0], Flatten(app.chan[1..]));
    }
  }

  lemma AppKeeps(text: Text, w: World, sid: u32, app: App)
    requires Inv(text, w) && sid in w.server.apps
    requires Total(app) == Total(w.server.apps[sid])
    requires app.target == w.server.apps[sid].target && app.kind == w.server.apps[sid].kind
    requires app.gone == w.server.apps[sid].gone
    requires app.kind.Udp? ==> app.pending == []
    ensures Inv(text, UpdateApp(w, sid, app))
  {
    hide Log, EncodeAll, Pad.Real, RA.Content, Proj, Given, Datas, Total;
  }

  lemma AppReadKeeps(text: Text, w: World, sid: u32, room: nat)
    requires Inv(text, w)
    ensures Inv(text, AppReadStep(w, sid, room))
  {
    hide Inv, Total, ReadOutcome;
    if CanReceive(w.server, sid) && w.server.apps[sid].kind.Tcp? {
      ReadConserves(w.server.apps[sid], room, sid in w.server.entries);
      AppKeeps(text, w, sid, ReadOutcome(w.server.apps[sid], room, sid in w.server.entries).0);
    }
  }

  lemma AppRecvKeeps(text: Text, w: World, sid: u32)
    requires Inv(text, w)
    ensures Inv(text, AppRecvStep(w, sid))
  {
    hide Total, RecvChunk, QueueInv, WireInv, LogInv, Given, Datas;
    if CanReceive(w.server, sid) && w.server.apps[sid].kind.Udp? {
      assert StreamOk(text, Proj(w.handled, sid), sid, w.server);
      RecvConserves(w.server.apps[sid]);
      AppKeeps(text, w, sid, RecvChunk(w.server.apps[sid]));
    }
  }

  /** A reader is past the start of its stream. */
  lemma AppIsPast(text: Text, q: seq<Frame>, app: App)
    requires AppOk(text, q, app)
    ensures |q| >= 2 && ParseTarget(text, q[1].data) == Ok(app.target)
    ensures IsUot(app.target) ==> |q| >= 3
  {
  }

  lemma GoneKeepsStream(text: Text, q: seq<Frame>, sid: u32, s: Server)
    requires StreamOk(text, q, sid, s) && sid in s.apps
    ensures StreamOk(text, q, sid,
                     s.(apps := s.apps[sid := s.apps[sid].(gone := true)], entries := s.entries - {sid}))
  {
    hide Given, Datas, ParseTarget, ParseUotRequest;
    AppIsPast(text, q, s.apps[sid]);
  }

  lemma OtherGone(text: Text, q: seq<Frame>, other: u32, s: Server, sid: u32)
    requires StreamOk(text, q, other, s) && sid in s.apps && other != sid
    ensures StreamOk(text, q, other,
                     s.(apps := s.apps[sid := s.apps[sid].(gone := true)], entries := s.entries - {sid}))
  {
    hide Given, Datas, ParseTarget, ParseUotRequest, AppOk;
  }

  lemma AppDropKeeps(text: Text, w: World, sid: u32)
    requires Inv(text, w)
    ensures Inv(text, AppDropStep(w, sid))
  {
    hide Log, Given, Datas, Proj, EncodeAll, RA.Content, Pad.Real, AppOk, Dispatched;
    if CanReceive(w.server, sid) {
      assert StreamOk(text, Proj(w.handled, sid), sid, w.server);
      GoneKeepsStream(text, Proj(w.handled, sid), sid, w.server);
      forall other: u32 | other != sid
        ensures StreamOk(text, Proj(w.handled, other), other, AppDropStep(w, sid).server)
      {
        OtherGone(text, Proj(w.handled, other), other, w.server, sid);
      }
    }
  }

  // ─── Runs ───────────────────────────────────────────────────────────────────

  lemma StartInv(text: Text, scheme: Pad.Scheme, settings: seq<byte>)
    requires Pad.FitsU16(scheme)
    ensures Inv(text, Start(scheme, settings))
  {
    var f := Frame(Settings, 0, settings);
    var w := Start(scheme, settings);
    assert w.sent == Pad.Real(w.onWire) + w.buffered + w.client.queue;
    assert QueueInv(w);
    assert WireInv(w);
    forall sid: u32 | sid > 0 ensures Proj([f], sid) == [] {
      ProjOne([], f, sid);
    }
    forall sid: u32
      ensures StreamOk(text, Proj(w.handled, sid), sid, w.server)
    {
      assert Proj(w.handled, sid) == [];
    }
  }

  lemma StepKeeps(text: Text, w: World, e: Event)
    requires Inv(text, w) && 0 < w.client.nextId < 0xFFFF_FFFF
    requires e.NewScheme? ==> Pad.FitsU16(e.scheme)
    ensures Inv(text, Step(text, w, e))
  {
    hide Inv, RegisterStep, SendSynStep, SendTargetStep, WriteStep, SendPacketStep, ShutdownStep, DropStep,
      TakeStep, FlushStep, DeliverStep, StallStep, PollStep, HandleStep, AppReadStep, AppRecvStep, AppDropStep;
    match e
    case Register(target) => RegisterKeeps(text, w, target);
    case SendSyn(sid) => SendSynKeeps(text, w, sid);
    case SendTarget(sid) => SendTargetKeeps(text, w, sid);
    case Write(sid, buf) => WriteKeeps(text, w, sid, buf);
    case SendPacket(sid, packet) => SendPacketKeeps(text, w, sid, packet);
    case Shutdown(sid) => ShutdownKeeps(text, w, sid);
    case DropStream(sid) => DropKeeps(text, w, sid);
    case Heartbeat =>
      if HasRoom(w.client) {
        HeartbeatKeeps(text, w);
      }
    case CountFrame | NewScheme(_) | ClientStop | ServerCancel | ServerStop => SmallStepKeeps(text, w, e);
    case LoopTake => TakeKeeps(text, w);
    case LoopFlush(sizes) => FlushKeeps(text, w, sizes);
    case Deliver(n) => DeliverKeeps(text, w, n);
    case Stall(a) => StallKeeps(text, w, a);
    case ServerPoll => PollKeeps(text, w);
    case ServerHandle => HandleKeeps(text, w);
    case AppRead(sid, room) => AppReadKeeps(text, w, sid, room);
    case AppRecv(sid) => AppRecvKeeps(text, w, sid);
    case AppDrop(sid) => AppDropKeeps(text, w, sid);
  }

  lemma SmallStepKeeps(text: Text, w: World, e: Event)
    requires Inv(text, w)
    requires e.CountFrame? || e.NewScheme? || e.ClientStop? || e.ServerCancel? || e.ServerStop?
    requires e.NewScheme? ==> Pad.FitsU16(e.scheme)
    ensures Inv(text, Step(text, w, e))
  {
    hide Log, EncodeAll, Pad.Real, RA.Content, Proj, Given, Datas, Total, AppOk, Pad.FitsU16;
  }

  lemma StepIds(text: Text, w: World, e: Event)
    ensures Step(text, w, e).client.nextId == w.client.nextId
            || Step(text, w, e).client.nextId == (w.client.nextId + 1) % 0x1_0000_0000
  {
    hide Handle, FR.PollFrame, Pad.Records, EncodeAll, Flatten, ReadOutcome, RecvChunk, Padding, ToBytes, SizesFor;
  }

  lemma {:induction false} RunInv(text: Text, scheme: Pad.Scheme, settings: seq<byte>, events: seq<Event>)
    requires Legal(scheme, events)
    ensures Inv(text, Run(text, Start(scheme, settings), events))
    ensures 0 < Run(text, Start(scheme, settings), events).client.nextId <= |events| + 1
  {
    hide Inv, Step, Pad.FitsU16;
    if events == [] {
      StartInv(text, scheme, settings);
    } else {
      var before := events[..|events| - 1];
      RunInv(text, scheme, settings, before);
      StepKeeps(text, Run(text, Start(scheme, settings), before), events[|events| - 1]);
      StepIds(text, Run(text, Start(scheme, settings), before), events[|events| - 1]);
    }
  }

  lemma {:induction false} DatasOfPsh(front: seq<Frame>, sid: u32, chunks: seq<seq<byte>>)
    requires |front| == 2
    ensures Datas(front + PshFrames(sid, chunks)) == chunks
  {
    if chunks == [] {
      assert front + PshFrames(sid, chunks) == front;
    } else {
      var init, last := chunks[..|chunks| - 1], chunks[|chunks| - 1];
      DatasOfPsh(front, sid, init);
      Assoc(front, PshFrames(sid, init), [Frame(Psh, sid, last)]);
      DatasOne(front + PshFrames(sid, init), Frame(Psh, sid, last));
      Split(chunks, |chunks| - 1);
      assert chunks[|chunks| - 1..] == [last];
    }
  }

  lemma DatasOfLog(sid: u32, p: Proxy)
    requires p.phase == Opened
    ensures Datas(Log(sid, p)) == p.chunks
    ensures |Log(sid, p)| >= 2 && Log(sid, p)[1] == Frame(Psh, sid, ToBytes(p.target))
  {
    var front := [Frame(Syn, sid, []), Frame(Psh, sid, ToBytes(p.target))];
    var log := front + PshFrames(sid, p.chunks);
    DatasOfPsh(front, sid, p.chunks);
    if p.fin {
      DatasOne(log, Frame(Fin, sid, []));
    } else {
      assert log + [] == log;
    }
  }

  /** Every reader the server has dispatched belongs to an opened client stream, was dispatched to
      what that stream's target decodes to, and has been given a prefix of its chunks. */
  lemma ReaderMatchesStream(text: Text, w: World, sid: u32)
    requires Inv(text, w) && sid in w.server.apps
    ensures sid in w.proxies && w.proxies[sid].phase == Opened
    ensures ParseTarget(text, ToBytes(w.proxies[sid].target)) == Ok(w.server.apps[sid].target)
    ensures Datas(Proj(w.handled, sid)) <= w.proxies[sid].chunks
    ensures Total(w.server.apps[sid]) <= Given(text, w.server.apps[sid].kind, w.proxies[sid].chunks)
    ensures w.proxies[sid].accepted == Flatten(w.proxies[sid].chunks)
    ensures AppOk(text, Proj(w.handled, sid), w.server.apps[sid])
  {
    hide Log, EncodeAll, Pad.Real, RA.Content, Datas, Given, Total, ParseTarget, Proj;
    var q := Proj(w.handled, sid);
    assert StreamOk(text, q, sid, w.server);
    HandledIsSent(w, sid);
    ProjPrefix(w.handled, w.handled + InHand(w), sid);
    ProjMembers(w.sent, sid, 1);
    assert q[1] == Proj(w.sent, sid)[1];
    assert sid != 0;
    var p := w.proxies[sid];
    assert q <= Log(sid, p);
    ShortLog(sid, p);
    DatasOfLog(sid, p);
    assert q[1] == Log(sid, p)[1];
    DatasPrefix(q, Log(sid, p));
    GivenPrefix(text, w.server.apps[sid].kind, Datas(q), p.chunks);
  }

  lemma ShortLog(sid: u32, p: Proxy)
    ensures p.phase != Opened ==> |Log(sid, p)| <= 1
  {
  }

  /** End to end. In every run, whatever the interleaving of streams, the batching, the padding
      drawn, the fragmentation of the wire and the pace of the readers: a TCP stream the server
      dispatches goes to the target its client asked for, and its reader has read a prefix of the
      bytes the client's `poll_write` acknowledged on that stream. */
  lemma EndToEnd(text: Text, scheme: Pad.Scheme, settings: seq<byte>, events: seq<Event>, sid: u32)
    requires Legal(scheme, events)
    requires var w := Run(text, Start(scheme, settings), events);
             sid in w.server.apps && w.server.apps[sid].kind.Tcp?
    ensures var w := Run(text, Start(scheme, settings), events);
            && sid in w.proxies
            && w.server.apps[sid].read <= w.proxies[sid].accepted
            && (WellFormed(text, w.proxies[sid].target) && Encodable(w.proxies[sid].target) ==>
                  w.server.apps[sid].target == w.proxies[sid].target)
  {
    hide Inv, Run, ParseTarget;
    RunInv(text, scheme, settings, events);
    var w := Run(text, Start(scheme, settings), events);
    ReaderMatchesStream(text, w, sid);
    var app, p := w.server.apps[sid], w.proxies[sid];
    Assoc(app.read, app.pending, Flatten(app.chan));
    if WellFormed(text, p.target) && Encodable(p.target) {
      TargetRecovered(text, p.target, []);
      assert ToBytes(p.target) + [] == ToBytes(p.target);
    }
  }

  /** Nothing is on its way any more. */
  predicate Drained(w: World) {
    && w.client.open && w.client.queue == [] && w.buffered == [] && w.net == []
    && w.hand.None? && w.reader.buf == [] && RA.Content(w.reader.script) == []
  }

  /** Nothing is lost either: when the path is drained and a stream is still open at the server, a
      reader that has emptied its channel has read every acknowledged byte. */
  lemma DrainedDelivers(text: Text, scheme: Pad.Scheme, settings: seq<byte>, events: seq<Event>, sid: u32)
    requires Legal(scheme, events)
    requires var w := Run(text, Start(scheme, settings), events);
             && Drained(w) && w.server.open
             && sid in w.server.entries && w.server.entries[sid] == Active
             && sid in w.server.apps && w.server.apps[sid].kind.Tcp?
    ensures var w := Run(text, Start(scheme, settings), events);
            sid in w.proxies && Total(w.server.apps[sid]) == w.proxies[sid].accepted
  {
    hide Run, Log, EncodeAll, RA.Content, Datas, Given, Total, Proj;
    RunInv(text, scheme, settings, events);
    var w := Run(text, Start(scheme, settings), events);
    var q := Proj(w.handled, sid);
    assert StreamOk(text, q, sid, w.server);
    ReaderMatchesStream(text, w, sid);
    AllHandled(w);
    ProjReal(w.onWire, sid);
    DatasOfLog(sid, w.proxies[sid]);
    TcpGiven(text, Datas(q));
  }

  lemma TcpGiven(text: Text, chunks: seq<seq<byte>>)
    ensures Given(text, Tcp, chunks) == Flatten(chunks)
  {
  }

  lemma AllHandled(w: World)
    requires QueueInv(w) && WireInv(w) && Drained(w)
    ensures w.handled == w.onWire && Pad.Real(w.onWire) == w.sent
  {
    hide EncodeAll, Pad.Real, RA.Content, ParseAll;
    var sent := Pad.Real(w.onWire);
    assert sent + [] + [] == sent;
    assert w.handled + [] == w.handled;
    assert EncodeAll(w.handled) + [] + [] + [] == EncodeAll(w.handled);
    ParseWhole(w.handled);
    ParseWhole(w.onWire);
  }

  // ─── What a reader is told ──────────────────────────────────────────────────

  /** The next chunk in the channel has no bytes. */
  predicate EmptyNext(app: App) {
    app.pending == [] && app.chan != [] && app.chan[0] == []
  }

  lemma {:induction false} FlattenEmpty<T>(chunks: seq<seq<T>>)
    ensures Flatten(chunks) == [] <==> forall i :: 0 <= i < |chunks| ==> chunks[i] == []
  {
    if chunks != [] {
      FlattenEmpty(chunks[1..]);
      assert forall i :: 1 <= i < |chunks| ==> chunks[i] == chunks[1..][i - 1];
    }
  }

  /** A read hands out exactly what it adds to the bytes read. Offered room, it waits if and only if
      the table has the stream and everything given is read; it is the end of the stream if and only
      if the table does not have it and everything given is read. Only a chunk without bytes is taken
      for the end before that. */
  lemma ReadAnswersIff(app: App, room: nat, live: bool)
    ensures var (app', p) := ReadOutcome(app, room, live);
            && app'.read == app.read + (if p.Ready? then p.value else [])
            && !p.BrokenPipe?
            && (room > 0 ==>
                  && (p.Pending? <==> live && app.read == Total(app) && !EmptyNext(app))
                  && (p == Ready([]) <==> EmptyNext(app) || (!live && app.read == Total(app))))
  {
    assert app.read + [] == app.read;
    FlattenEmpty(app.chan);
    Assoc(app.read, app.pending, Flatten(app.chan));
    var more := app.pending + Flatten(app.chan);
    assert Total(app) == app.read + more;
    assert app.read == app.read + more <==> more == [] by {
      assert |app.read + more| == |app.read| + |more|;
    }
  }

  /** What an event hands to the reader of a TCP stream. */
  function Tells(w: World, e: Event, sid: u32): seq<byte> {
    if e.AppRead? && e.sid == sid && CanReceive(w.server, sid) && w.server.apps[sid].kind.Tcp? then
      var p := ReadOutcome(w.server.apps[sid], e.room, sid in w.server.entries).1;
      if p.Ready? then p.value else []
    else []
  }

  /** All answers of a reader, joined. */
  function Told(text: Text, w: World, events: seq<Event>, sid: u32): seq<byte>
    decreases |events|
  {
    if events == [] then []
    else
      var init := events[..|events| - 1];
      Told(text, w, init, sid) + Tells(Run(text, w, init), events[|events| - 1], sid)
  }

  predicate ReadIs(w: World, sid: u32, bytes: seq<byte>) {
    if sid in w.server.apps && w.server.apps[sid].kind.Tcp? then w.server.apps[sid].read == bytes else bytes == []
  }

  lemma StepTells(text: Text, w: World, e: Event, sid: u32, bytes: seq<byte>)
    requires Inv(text, w) && ReadIs(w, sid, bytes)
    ensures ReadIs(Step(text, w, e), sid, bytes + Tells(w, e, sid))
  {
    hide Inv, Handle, HandleStep, PollStep, Total, Given, ReadOutcome, RecvChunk, WriteOutcome, ShutdownOutcome;
    assert bytes + [] == bytes;
    match e
    case AppRead(other, room) =>
      if CanReceive(w.server, other) {
        ReadAnswersIff(w.server.apps[other], room, other in w.server.entries);
        ReadConserves(w.server.apps[other], room, other in w.server.entries);
      }
    case AppRecv(other) => RecvKind(w.server, other);
    case ServerHandle => HandleReads(text, w, sid);
    case ServerPoll => PollApps(w);
    case _ => ClientApps(text, w, e, sid);
  }

  lemma RecvKind(s: Server, sid: u32)
    ensures CanReceive(s, sid) ==> RecvChunk(s.apps[sid]).kind == s.apps[sid].kind
  {
  }

  lemma PollApps(w: World)
    ensures PollStep(w).server.apps == w.server.apps
  {
    hide FR.PollFrame;
  }

  lemma ClientApps(text: Text, w: World, e: Event, sid: u32)
    requires !e.AppRead? && !e.AppRecv? && !e.ServerHandle? && !e.ServerPoll?
    ensures sid in Step(text, w, e).server.apps <==> sid in w.server.apps
    ensures sid in w.server.apps ==> Step(text, w, e).server.apps[sid].read == w.server.apps[sid].read
                                     && Step(text, w, e).server.apps[sid].kind == w.server.apps[sid].kind
  {
    hide WriteOutcome, ShutdownOutcome, Take, Flushed, FlushRecords, Padding, SizesFor, MayFlush, ToBytes;
  }

  /** Handling a frame reads nothing; a stream gets its reader only once. */
  lemma HandleReads(text: Text, w: World, sid: u32)
    requires Inv(text, w)
    ensures var s, s' := w.server, HandleStep(text, w).server;
            && (sid in s.apps ==> sid in s'.apps && s'.apps[sid].read == s.apps[sid].read
                                  && s'.apps[sid].kind == s.apps[sid].kind)
            && (sid !in s.apps && sid in s'.apps ==> s'.apps[sid].read == [])
  {
    hide Log, EncodeAll, Pad.Real, RA.Content, Proj, Given, Datas, Total, ParseTarget, ParseUotRequest;
    if w.hand.Some? {
      var f := w.hand.value;
      assert StreamOk(text, Proj(w.handled, f.sid), f.sid, w.server);
      if w.server.open && f.sid in w.server.entries && w.server.entries[f.sid] != Active {
        NoAppYet(text, Proj(w.handled, f.sid), w.server, f.sid);
      }
      if sid != f.sid {
        OthersUntouched(text, w.server, f, sid);
      }
    }
  }

  /** In every run the answers a reader got, joined, are exactly the bytes it is said to have read:
      nothing is read that was not handed out, nor handed out twice. */
  lemma {:induction false} AnswersAreRead(text: Text, scheme: Pad.Scheme, settings: seq<byte>,
                                          events: seq<Event>, sid: u32)
    requires Legal(scheme, events)
    ensures ReadIs(Run(text, Start(scheme, settings), events), sid, Told(text, Start(scheme, settings), events, sid))
    decreases |events|
  {
    hide Step, Inv, ReadIs, Tells, Pad.FitsU16;
    if events == [] {
      assert ReadIs(Start(scheme, settings), sid, []) by { StartReads(scheme, settings, sid); }
    } else {
      var init := events[..|events| - 1];
      RunInv(text, scheme, settings, init);
      AnswersAreRead(text, scheme, settings, init, sid);
      StepTells(text, Run(text, Start(scheme, settings), init), events[|events| - 1], sid,
                Told(text, Start(scheme, settings), init, sid));
    }
  }

  lemma StartReads(scheme: Pad.Scheme, settings: seq<byte>, sid: u32)
    ensures ReadIs(Start(scheme, settings), sid, [])
  {
  }

  /** No client sends a packet without bytes, which a reader would take for the end of its stream. */
  predicate NoEmptyPacket(events: seq<Event>) {
    forall i :: 0 <= i < |events| && events[i].SendPacket? ==> events[i].packet != []
  }

  predicate NoEmptyChunk(chunks: seq<seq<byte>>) {
    forall i :: 0 <= i < |chunks| ==> chunks[i] != []
  }

  predicate FullFrames(fs: seq<Frame>) {
    forall i :: 0 <= i < |fs| && fs[i].cmd == Psh ==> fs[i].data != []
  }

  predicate FullChannels(apps: map<u32, App>) {
    forall sid :: sid in apps ==> NoEmptyChunk(apps[sid].chan)
  }

  lemma StepSent(text: Text, w: World, e: Event)
    requires FullFrames(w.sent) && (e.SendPacket? ==> e.packet != [])
    ensures FullFrames(Step(text, w, e).sent)
  {
    hide Handle, FR.PollFrame, Pad.Records, EncodeAll, Flatten, ReadOutcome, RecvChunk, Padding, SizesFor, Take;
    hide Flushed;
  }

  lemma StepChannels(text: Text, w: World, e: Event)
    requires Inv(text, w) && FullFrames(w.sent) && FullChannels(w.server.apps)
    ensures FullChannels(Step(text, w, e).server.apps)
  {
    hide Inv, Handle, HandleStep, PollStep, Take, Flushed, FlushRecords, Padding, SizesFor, WriteOutcome,
         ShutdownOutcome;
    match e
    case ServerHandle => HandleChannels(text, w);
    case ServerPoll => PollApps(w);
    case _ =>
  }

  lemma HandleChannels(text: Text, w: World)
    requires Inv(text, w) && FullFrames(w.sent) && FullChannels(w.server.apps)
    ensures FullChannels(HandleStep(text, w).server.apps)
  {
    hide Log, EncodeAll, Pad.Real, RA.Content, Proj, Given, Datas, Total, ParseTarget, ParseUotRequest, StreamOk;
    if w.server.open && w.hand.Some? && !Blocked(w.server, w.hand.value) {
      var f := w.hand.value;
      if f.cmd == Psh {
        HandIsSent(w);
        assert f.data != [];
      }
    }
  }

  lemma HandIsSent(w: World)
    requires QueueInv(w) && WireInv(w) && w.hand.Some? && w.hand.value.cmd != Command.Waste
    ensures w.hand.value in w.sent
  {
    hide EncodeAll, Pad.Real, RA.Content;
    var f := w.hand.value;
    var fs := w.handled + [f];
    HandledIsSent(w, f.sid);
    assert fs == w.handled + InHand(w);
    assert w.onWire[|w.handled|] == fs[|w.handled|] == f;
    RealKeeps(w.onWire, |w.handled|);
  }

  lemma {:induction false} RealKeeps(fs: seq<Frame>, i: nat)
    requires i < |fs| && fs[i].cmd != Command.Waste
    ensures fs[i] in Pad.Real(fs)
  {
    if i < |fs| - 1 {
      RealKeeps(fs[..|fs| - 1], i);
    }
  }

  lemma {:induction false} RunFull(text: Text, scheme: Pad.Scheme, settings: seq<byte>, events: seq<Event>)
    requires Legal(scheme, events) && NoEmptyPacket(events)
    ensures var w := Run(text, Start(scheme, settings), events); FullFrames(w.sent) && FullChannels(w.server.apps)
    decreases |events|
  {
    hide Step, Inv, FullFrames, FullChannels, Pad.FitsU16;
    if events == [] {
      StartFull(scheme, settings);
    } else {
      var init := events[..|events| - 1];
      RunFull(text, scheme, settings, init);
      RunInv(text, scheme, settings, init);
      StepSent(text, Run(text, Start(scheme, settings), init), events[|events| - 1]);
      StepChannels(text, Run(text, Start(scheme, settings), init), events[|events| - 1]);
    }
  }

  lemma StartFull(scheme: Pad.Scheme, settings: seq<byte>)
    ensures FullFrames(Start(scheme, settings).sent) && FullChannels(Start(scheme, settings).server.apps)
  {
  }

  /** What the next read of stream `sid` answers. */
  function NextAnswer(w: World, sid: u32, room: nat): Poll<seq<byte>>
    requires sid in w.server.apps
  {
    ReadOutcome(w.server.apps[sid], room, sid in w.server.entries).1
  }

  /** The truth about the end of a stream. In every run in which no packet is empty, a reader that
      offers room is told that the stream is over if and only if the server's table no longer has it
      and everything given is read; it waits if and only if the table has it and everything given is
      read. While the session is open the table has the stream exactly until its FIN is processed, and
      then everything given is every byte the client's writes were acknowledged for. */
  lemma ReaderIsToldTheTruth(text: Text, scheme: Pad.Scheme, settings: seq<byte>, events: seq<Event>,
                             sid: u32, room: nat)
    requires Legal(scheme, events) && NoEmptyPacket(events) && room > 0
    requires var s := Run(text, Start(scheme, settings), events).server;
             CanReceive(s, sid) && s.apps[sid].kind.Tcp?
    ensures var w := Run(text, Start(scheme, settings), events);
            var app := w.server.apps[sid];
            && (NextAnswer(w, sid, room) == Ready([]) <==> sid !in w.server.entries && app.read == Total(app))
            && (NextAnswer(w, sid, room) == Pending <==> sid in w.server.entries && app.read == Total(app))
            && (w.server.open ==>
                  && (sid in w.server.entries <==> !Ended(Proj(w.handled, sid)))
                  && (Ended(Proj(w.handled, sid)) ==>
                        sid in w.proxies && w.proxies[sid].fin && Total(app) == w.proxies[sid].accepted))
  {
    hide Run, Log, EncodeAll, Pad.Real, RA.Content, Datas, Given, Total, Proj, ParseTarget, ReadOutcome;
    RunInv(text, scheme, settings, events);
    RunFull(text, scheme, settings, events);
    var w := Run(text, Start(scheme, settings), events);
    var app := w.server.apps[sid];
    ReadAnswersIff(app, room, sid in w.server.entries);
    assert !EmptyNext(app);
    assert StreamOk(text, Proj(w.handled, sid), sid, w.server);
    if w.server.open && Ended(Proj(w.handled, sid)) {
      ReaderMatchesStream(text, w, sid);
      EndedIsWhole(text, w, sid);
      TcpGiven(text, w.proxies[sid].chunks);
    }
  }

  /** Once its FIN is processed, all frames of a stream are. */
  lemma EndedIsWhole(text: Text, w: World, sid: u32)
    requires Inv(text, w) && sid in w.proxies && w.proxies[sid].phase == Opened && Ended(Proj(w.handled, sid))
    ensures w.proxies[sid].fin && Datas(Proj(w.handled, sid)) == w.proxies[sid].chunks
  {
    hide EncodeAll, Pad.Real, RA.Content, Datas, Given, Total, Proj, Log;
    var q := Proj(w.handled, sid);
    var p := w.proxies[sid];
    HandledIsSent(w, sid);
    ProjPrefix(w.handled, w.handled + InHand(w), sid);
    assert q <= Log(sid, p) && q[|q| - 1] == Log(sid, p)[|q| - 1];
    LogShape(sid, p, |q| - 1);
    assert q == Log(sid, p);
    DatasOfLog(sid, p);
    FinInLog(sid, p);
  }

  lemma FinInLog(sid: u32, p: Proxy)
    requires p.phase == Opened && Ended(Log(sid, p))
    ensures p.fin
  {
    PshFramesAre(sid, p.chunks);
  }

  /** When the path is drained the end a reader is told is the end the client meant: with every
      acknowledged byte read, it is told so if and only if the client's FIN went out. */
  lemma DrainedEnds(text: Text, scheme: Pad.Scheme, settings: seq<byte>, events: seq<Event>, sid: u32, room: nat)
    requires Legal(scheme, events) && NoEmptyPacket(events) && room > 0
    requires var w := Run(text, Start(scheme, settings), events);
             && Drained(w) && w.server.open
             && CanReceive(w.server, sid) && w.server.apps[sid].kind.Tcp?
    ensures var w := Run(text, Start(scheme, settings), events);
            && sid in w.proxies
            && Total(w.server.apps[sid]) == w.proxies[sid].accepted
            && (NextAnswer(w, sid, room) == Ready([]) <==>
                  w.proxies[sid].fin && w.server.apps[sid].read == w.proxies[sid].accepted)
  {
    hide Run, Log, EncodeAll, Pad.Real, RA.Content, Datas, Given, Total, Proj, ParseTarget, ReadOutcome;
    RunInv(text, scheme, settings, events);
    ReaderIsToldTheTruth(text, scheme, settings, events, sid, room);
    var w := Run(text, Start(scheme, settings), events);
    assert StreamOk(text, Proj(w.handled, sid), sid, w.server);
    ReaderMatchesStream(text, w, sid);
    AllHandled(w);
    ProjReal(w.onWire, sid);
    DatasOfLog(sid, w.proxies[sid]);
    TcpGiven(text, w.proxies[sid].chunks);
    FinEnds(sid, w.proxies[sid]);
  }

  lemma FinEnds(sid: u32, p: Proxy)
    requires p.phase == Opened
    ensures Ended(Log(sid, p)) <==> p.fin
  {
    PshFramesAre(sid, p.chunks);
  }

  /** UDP over TCP, end to end. When the client's chunks are a request header and then encoded
      packets, the first of which may come with the header and all of which may be cut up at will, the
      server's reader is bound to the requested destination, and the packets its decoder can cut from
      what it has read are a prefix of those sent. */
  lemma UdpEndToEnd(text: Text, scheme: Pad.Scheme, settings: seq<byte>, events: seq<Event>, sid: u32,
                    dest: TargetAddr, tail: seq<byte>, items: seq<UP.Item>)
    requires Legal(scheme, events) && Lawful(text)
    requires WellFormed(text, dest) && Encodable(dest)
    requires UP.AllSendable(text, items, false)
    requires var w := Run(text, Start(scheme, settings), events);
             && sid in w.server.apps && w.server.apps[sid].kind.Udp? && sid in w.proxies
             && var chunks := w.proxies[sid].chunks;
                && chunks != [] && chunks[0] == [0] + ToBytes(dest) + tail
                && tail + Flatten(chunks[1..]) == Flatten(UP.Encoded(text, items, false))
    ensures var w := Run(text, Start(scheme, settings), events);
            var app := w.server.apps[sid];
            && app.kind == Udp(false, Normal(text, dest))
            && UP.CutAll(app.read, false).0 <= UP.Encoded(text, items, false)
  {
    hide Run, Inv, UP.CutAll, UP.Encoded, Total, Decode, Datas;
    RunInv(text, scheme, settings, events);
    var w := Run(text, Start(scheme, settings), events);
    var packets := UP.Encoded(text, items, false);
    ReaderMatchesStream(text, w, sid);
    RequestParses(text, 0, dest, tail);
    FirstData(text, w, sid);
    ReadIsGiven(w.server.apps[sid]);
    PrefixCuts(text, items, w.server.apps[sid].read);
  }

  lemma PrefixCuts(text: Text, items: seq<UP.Item>, data: seq<byte>)
    requires Lawful(text) && UP.AllSendable(text, items, false)
    requires data <= Flatten(UP.Encoded(text, items, false))
    ensures UP.CutAll(data, false).0 <= UP.Encoded(text, items, false)
  {
    hide UP.CutAll, UP.Encoded, Flatten;
    var packets := UP.Encoded(text, items, false);
    var more := Flatten(packets)[|data|..];
    UP.PacketsRoundTrip(text, items, false, []);
    NothingToCut();
    assert Flatten(packets) + [] == data + more;
    UP.CutAllSplit(data, more, false);
    assert packets + [] == packets;
  }

  lemma NothingToCut()
    ensures UP.CutAll([], false).0 == []
  {
  }

  lemma ReadIsGiven(app: App)
    ensures app.read <= Total(app)
  {
    Assoc(app.read, app.pending, Flatten(app.chan));
  }

  /** A request is parsed back, its flag, its destination, and whatever came with it. */
  lemma RequestParses(text: Text, flag: byte, dest: TargetAddr, tail: seq<byte>)
    requires WellFormed(text, dest) && Encodable(dest)
    ensures ParseUotRequest(text, [flag] + ToBytes(dest) + tail)
            == Some(UotRequest(flag != 0, Normal(text, dest), tail))
  {
    hide Decode, ToBytes;
    var data := [flag] + ToBytes(dest) + tail;
    assert data[1..] == ToBytes(dest) + tail;
    DecodeIsIncremental(text, dest, ToBytes(dest) + tail);
    TargetRecovered(text, dest, []);
    assert data[1 + |ToBytes(dest)|..] == tail;
  }

  /** The request a UDP reader was dispatched for is the stream's first chunk. */
  lemma FirstData(text: Text, w: World, sid: u32)
    requires sid in w.server.apps && w.server.apps[sid].kind.Udp? && sid in w.proxies
    requires AppOk(text, Proj(w.handled, sid), w.server.apps[sid])
    requires Datas(Proj(w.handled, sid)) <= w.proxies[sid].chunks
    ensures w.proxies[sid].chunks != []
    ensures match ParseUotRequest(text, w.proxies[sid].chunks[0])
            case Some(r) => w.server.apps[sid].kind == Udp(r.isConnect, r.dest)
            case None => false
  {
  }

  // ─── The write loop's turn is a run of these steps ──────────────────────────

  lemma {:induction false} RunCons(text: Text, w: World, e: Event, events: seq<Event>)
    ensures Run(text, w, [e] + events) == Run(text, Step(text, w, e), events)
  {
    hide Step;
    if events == [] {
      assert ([e] + events)[..0] == [];
    } else {
      var init := events[..|events| - 1];
      RunCons(text, w, e, init);
      assert ([e] + events)[..|events|] == [e] + init;
    }
  }

  /** `LoopTake` as often as the `try_recv` loop goes round. */
  function TakesFor(c: Client): seq<Event>
    decreases |c.queue|
  {
    if MayBatch(c) then [LoopTake] + TakesFor(Take(c)) else []
  }

  lemma {:induction false} BatchIsRun(text: Text, w: World)
    ensures var after := Run(text, w, TakesFor(w.client));
            after.client == Batch(w.client) && after.(client := w.client, buffered := w.buffered) == w
    decreases |w.client.queue|
  {
    if MayBatch(w.client) {
      RunCons(text, w, LoopTake, TakesFor(Take(w.client)));
      BatchIsRun(text, TakeStep(w));
    }
  }

  /** A turn of the loop, `ClientSession.WriteLoopTurn`, is a run of these steps: `LoopTake`, once and
      then for the batch, and `LoopFlush`. The client ends up exactly where the turn leaves it, the
      network has got exactly the records the turn wrote, and nothing else in the world but the two
      ledgers of frames has changed. So the run theorems speak about the loop. */
  lemma TurnIsRun(text: Text, w: World, sizes: seq<int>)
    requires w.client.open && w.client.queue != []
    requires SizesFor(Batch(Take(w.client)), sizes)
    ensures var batch := Batch(Take(w.client));
            var after := Run(text, w, [LoopTake] + TakesFor(Take(w.client)) + [LoopFlush(sizes)]);
            && after.client == (if MayFlush(batch) then Flushed(batch) else batch)
            && after.net == w.net + (if MayFlush(batch) then Flatten(FlushRecords(batch, sizes)) else [])
            && after.(client := w.client, net := w.net, buffered := w.buffered, onWire := w.onWire) == w
  {
    hide SizesFor, Padding, FlushRecords;
    var takes := TakesFor(Take(w.client));
    RunCons(text, w, LoopTake, takes);
    BatchIsRun(text, TakeStep(w));
    assert ([LoopTake] + takes + [LoopFlush(sizes)])[..|takes| + 1] == [LoopTake] + takes;
    assert w.net + [] == w.net;
  }

  // ─── Padding, once off, stays off ───────────────────────────────────────────

  lemma StepPaddingStaysOff(text: Text, w: World, e: Event)
    requires !w.client.sendPadding
    ensures !Step(text, w, e).client.sendPadding
  {
    hide Handle, FR.PollFrame, Pad.Records, EncodeAll, Flatten, ReadOutcome, RecvChunk, Padding, ToBytes, SizesFor;
  }

  /** Once `write_with_padding` has switched padding off, no later event of any kind, a new padding
      scheme included, switches it on again. */
  lemma {:induction false} PaddingStaysOff(text: Text, w: World, before: seq<Event>, later: seq<Event>)
    requires !Run(text, w, before).client.sendPadding
    ensures !Run(text, w, before + later).client.sendPadding
    decreases |later|
  {
    hide Step;
    if later == [] {
      assert before + later == before;
    } else {
      var init, last := later[..|later| - 1], later[|later| - 1];
      PaddingStaysOff(text, w, before, init);
      assert (before + later)[..|before + later| - 1] == before + init;
      assert (before + later)[|before + later| - 1] == last;
      StepPaddingStaysOff(text, Run(text, w, before + init), last);
    }
  }

  /** The event is a write of the loop. */
  predicate Flushes(w: World, e: Event) {
    e.LoopFlush? && MayFlush(w.client) && SizesFor(w.client, e.sizes)
  }

  lemma StepPadding(text: Text, w: World, e: Event)
    ensures w.client.sendPadding && !Step(text, w, e).client.sendPadding ==>
              Flushes(w, e) && w.client.packetCount >= w.client.scheme.stopAt
    ensures Step(text, w, e).client.packetCount
            == w.client.packetCount + (if e.CountFrame? || (Flushes(w, e) && w.client.sendPadding) then 1 else 0)
  {
    hide Handle, FR.PollFrame, FlushRecords, EncodeAll, Flatten, ReadOutcome, RecvChunk, Padding, ToBytes, SizesFor;
  }

  /** Nor is it switched off before its time: when padding is off, some write before was numbered past
      the end of the padding scheme in force then. */
  lemma {:induction false} PaddingStopsAtTheEnd(text: Text, scheme: Pad.Scheme, settings: seq<byte>,
                                                events: seq<Event>) returns (i: nat)
    requires !Run(text, Start(scheme, settings), events).client.sendPadding
    ensures i < |events|
    ensures var w := Run(text, Start(scheme, settings), events[..i]);
            Flushes(w, events[i]) && w.client.packetCount >= w.client.scheme.stopAt
    decreases |events|
  {
    hide Step, Flushes;
    var n := |events| - 1;
    var before := Run(text, Start(scheme, settings), events[..n]);
    StepPadding(text, before, events[n]);
    if before.client.sendPadding {
      i := n;
    } else {
      i := PaddingStopsAtTheEnd(text, scheme, settings, events[..n]);
      assert events[..n][..i] == events[..i] && events[..n][i] == events[i];
    }
  }

  /** How many writes were made while padding was on, and how many other packets were counted. */
  function Packets(text: Text, w: World, events: seq<Event>): nat
    decreases |events|
  {
    if events == [] then 0
    else
      var init, e := events[..|events| - 1], events[|events| - 1];
      var before := Run(text, w, init);
      Packets(text, w, init)
      + if e.CountFrame? || (Flushes(before, e) && before.client.sendPadding) then 1 else 0
  }

  /** Every write made while padding was on has its own packet number, in order. */
  lemma {:induction false} PacketsAreNumbered(text: Text, w: World, events: seq<Event>)
    ensures Run(text, w, events).client.packetCount == w.client.packetCount + Packets(text, w, events)
    decreases |events|
  {
    hide Step, Flushes;
    if events != [] {
      var init := events[..|events| - 1];
      PacketsAreNumbered(text, w, init);
      StepPadding(text, Run(text, w, init), events[|events| - 1]);
    }
  }

  // ─── What a turn of the loop writes ─────────────────────────────────────────

  /** A batch is everything queued, up to the size of a batch. */
  lemma {:induction false} BatchTakesAll(c: Client)
    ensures var batch := Batch(c);
            batch.open && !batch.buffering ==> batch.queue == [] || |batch.buffer| >= SESSION_WRITE_BATCH_BYTES
    decreases |c.queue|
  {
    hide Take;
    if MayBatch(c) {
      TakeShrinks(c);
      BatchTakesAll(Take(c));
    }
  }

  lemma TakeShrinks(c: Client)
    requires c.queue != []
    ensures |Take(c).queue| < |c.queue|
  {
  }

  predicate HasPsh(fs: seq<Frame>) {
    exists i :: 0 <= i < |fs| && fs[i].cmd == Psh
  }

  lemma HasPshMore(a: seq<Frame>, b: seq<Frame>, c: seq<Frame>)
    requires HasPsh(a + b)
    ensures HasPsh(a + (b + c))
  {
    var i :| 0 <= i < |a + b| && (a + b)[i].cmd == Psh;
    assert (a + (b + c))[i] == (a + b)[i];
  }

  /** The loop stops holding frames back with the first payload frame it takes, and not before. */
  ghost predicate HeldUntilPsh(w: World) {
    && (!w.client.buffering ==> HasPsh(w.onWire + w.buffered))
    && (w.onWire != [] ==> HasPsh(w.onWire))
  }

  lemma StepHolds(text: Text, w: World, e: Event)
    requires QueueInv(w) && HeldUntilPsh(w)
    ensures HeldUntilPsh(Step(text, w, e))
  {
    hide Handle, FR.PollFrame, FlushRecords, Encode, EncodeAll, Flatten, ReadOutcome, RecvChunk, Padding, ToBytes,
         SizesFor, HasPsh, Pad.Real, WriteOutcome, ShutdownOutcome;
    match e
    case LoopTake =>
      if w.client.open && w.client.queue != [] && Fits(w.client.queue[0]) {
        TakeHolds(w);
      }
    case LoopFlush(sizes) =>
      if MayFlush(w.client) && SizesFor(w.client, sizes) {
        HasPshMore(w.onWire, w.buffered, Padding(w.client, sizes));
        assert w.onWire + (w.buffered + Padding(w.client, sizes)) + []
            == w.onWire + (w.buffered + Padding(w.client, sizes));
      }
    case _ => OthersHold(text, w, e);
  }

  lemma TakeHolds(w: World)
    requires HeldUntilPsh(w) && w.client.open && w.client.queue != [] && Fits(w.client.queue[0])
    ensures HeldUntilPsh(TakeStep(w))
  {
    hide Encode;
    var f := w.client.queue[0];
    if HasPsh(w.onWire + w.buffered) {
      HasPshMore(w.onWire, w.buffered, [f]);
    } else if f.cmd == Psh {
      var all := w.onWire + (w.buffered + [f]);
      assert all[|all| - 1] == f;
    }
  }

  lemma OthersHold(text: Text, w: World, e: Event)
    requires !e.LoopTake? && !e.LoopFlush?
    ensures var w' := Step(text, w, e);
            w'.client.buffering == w.client.buffering && w'.onWire == w.onWire && w'.buffered == w.buffered
  {
    hide Handle, FR.PollFrame, ReadOutcome, RecvChunk, ToBytes;
  }

  /** In every run nothing is written before the first payload, so SETTINGS, SYN and target go out
      together with it. */
  lemma {:induction false} FirstWriteHasPayload(text: Text, scheme: Pad.Scheme, settings: seq<byte>,
                                                events: seq<Event>)
    requires Legal(scheme, events)
    ensures HeldUntilPsh(Run(text, Start(scheme, settings), events))
    decreases |events|
  {
    hide Step, Inv, HeldUntilPsh, Pad.FitsU16;
    if events == [] {
      StartHolds(scheme, settings);
    } else {
      var init := events[..|events| - 1];
      RunInv(text, scheme, settings, init);
      FirstWriteHasPayload(text, scheme, settings, init);
      InvQueue(text, Run(text, Start(scheme, settings), init));
      StepHolds(text, Run(text, Start(scheme, settings), init), events[|events| - 1]);
    }
  }

  lemma StartHolds(scheme: Pad.Scheme, settings: seq<byte>)
    ensures HeldUntilPsh(Start(scheme, settings))
  {
  }

  lemma InvQueue(text: Text, w: World)
    requires Inv(text, w)
    ensures QueueInv(w)
  {
  }
}
