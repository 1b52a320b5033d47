/** Progress of an AnyTLS session, upload direction: as long as nobody stops it, both ends stay open,
    and from every state it can reach everything acknowledged can still be delivered. */
module AnytlsProgress {
  import opened Wire
  import opened AnytlsFrames
  import opened TargetAddress
  import opened AnytlsSession
  import opened AnytlsLink
  import Pad = AnytlsPadding
  import RA = ReadAhead
  import FR = FrameReading

  /** Neither end is stopped, the transport neither breaks nor ends, and nothing is queued that a frame
      cannot hold. */
  predicate Undisturbed(e: Event) {
    match e
    case Register(target) => |ToBytes(target)| <= 0xFFFF
    case SendPacket(_, packet) => |packet| <= 0xFFFF
    case ClientStop | ServerStop => false
    case Stall(a) => a == RA.NotReady
    case _ => true
  }

  predicate AllUndisturbed(events: seq<Event>) {
    forall i :: 0 <= i < |events| ==> Undisturbed(events[i])
  }

  predicate NoPsh(fs: seq<Frame>) {
    forall i :: 0 <= i < |fs| ==> fs[i].cmd != Psh
  }

  /** The first frame is SETTINGS, and none of the others ends a session. */
  predicate Opening(sent: seq<Frame>) {
    && sent != [] && sent[0].cmd == Settings
    && forall i :: 1 <= i < |sent| ==> sent[i].cmd in {Syn, Psh, Fin, HeartResponse}
  }

  /** What an undisturbed run keeps beside the invariant. */
  ghost predicate Healthy(w: World) {
    && w.client.open && w.server.open
    && AllFit(w.sent) && Opening(w.sent)
    && RA.Calm(w.reader.script)
    && (forall sid :: sid in w.proxies ==> |ToBytes(w.proxies[sid].target)| <= 0xFFFF)
    && (w.onWire != [] ==> w.onWire[0].cmd == Settings)
    && (w.server.settled <==> w.handled != [])
    && (w.client.buffering ==> NoPsh(w.buffered) && NoPsh(Pad.Real(w.onWire)))
  }

  // ─── Nobody closes the session ──────────────────────────────────────────────

  lemma SendHealthy(w: World, f: Frame)
    requires Healthy(w) && HasRoom(w.client) && Fits(f) && f.cmd in {Syn, Psh, Fin, HeartResponse}
    ensures Healthy(Send(w, f))
  {
    hide ToBytes, Pad.Real;
  }

  lemma ClientHealthy(text: Text, w: World, e: Event)
    requires Healthy(w) && Undisturbed(e)
    requires e.Register? || e.SendSyn? || e.SendTarget? || e.Write? || e.SendPacket? || e.Shutdown? || e.DropStream?
    ensures Healthy(Step(text, w, e))
  {
    hide ToBytes, Pad.Real, Healthy;
    match e
    case Register(target) => RegisterHealthy(w, target);
    case SendSyn(sid) =>
      if IsLive(w, sid, Registered) && HasRoom(w.client) {
        SendHealthy(w, Frame(Syn, sid, []));
        ProxyHealthy(Send(w, Frame(Syn, sid, [])), sid, w.proxies[sid].(phase := SynSent));
      }
    case SendTarget(sid) =>
      if IsLive(w, sid, SynSent) && HasRoom(w.client) {
        var f := Frame(Psh, sid, ToBytes(w.proxies[sid].target));
        TargetFits(w, sid);
        SendHealthy(w, f);
        ProxyHealthy(Send(w, f), sid, w.proxies[sid].(phase := Opened));
      }
    case Write(sid, buf) =>
      if IsLive(w, sid, Opened) && !w.proxies[sid].finSent && HasRoom(w.client) && buf != [] {
        ChunkHealthy(w, sid, buf[..Min(|buf|, 0xFFFF)]);
      }
    case SendPacket(sid, packet) =>
      if IsLive(w, sid, Opened) && !w.proxies[sid].finSent && HasRoom(w.client) {
        ChunkHealthy(w, sid, packet);
      }
    case Shutdown(sid) =>
      if IsLive(w, sid, Opened) && !w.proxies[sid].finSent && HasRoom(w.client) {
        SendHealthy(w, Frame(Fin, sid, []));
        ProxyHealthy(Send(w, Frame(Fin, sid, [])), sid, w.proxies[sid].(finSent := true, fin := true));
      }
    case DropStream(sid) =>
      if IsLive(w, sid, Opened) {
        var p := w.proxies[sid];
        if !p.finSent && HasRoom(w.client) {
          SendHealthy(w, Frame(Fin, sid, []));
          ProxyHealthy(Send(w, Frame(Fin, sid, [])), sid, p.(dropped := true, fin := true));
        } else {
          ProxyHealthy(w, sid, p.(dropped := true));
        }
      }
  }

  lemma RegisterHealthy(w: World, target: TargetAddr)
    requires Healthy(w) && |ToBytes(target)| <= 0xFFFF
    ensures Healthy(RegisterStep(w, target))
  {
    hide ToBytes, Pad.Real;
  }

  lemma TargetFits(w: World, sid: u32)
    requires Healthy(w) && sid in w.proxies
    ensures |ToBytes(w.proxies[sid].target)| <= 0xFFFF
  {
  }

  lemma ProxyHealthy(w: World, sid: u32, p: Proxy)
    requires Healthy(w) && sid in w.proxies && p.target == w.proxies[sid].target
    ensures Healthy(w.(proxies := w.proxies[sid := p]))
  {
    hide ToBytes, Pad.Real;
  }

  lemma ChunkHealthy(w: World, sid: u32, chunk: seq<byte>)
    requires Healthy(w) && sid in w.proxies && HasRoom(w.client) && |chunk| <= 0xFFFF
    ensures var p := w.proxies[sid];
            var p' := p.(chunks := p.chunks + [chunk], accepted := p.accepted + chunk);
            Healthy(Send(w, Frame(Psh, sid, chunk)).(proxies := w.proxies[sid := p']))
  {
    hide ToBytes, Pad.Real, Healthy;
    var p := w.proxies[sid];
    var p' := p.(chunks := p.chunks + [chunk], accepted := p.accepted + chunk);
    SendHealthy(w, Frame(Psh, sid, chunk));
    ProxyHealthy(Send(w, Frame(Psh, sid, chunk)), sid, p');
  }

  /** The frames still queued are among those sent. */
  lemma QueuedIsSent(w: World, i: nat)
    requires QueueInv(w) && w.client.open && i < |w.client.queue|
    ensures w.client.queue[i] in w.sent
  {
    hide Pad.Real, EncodeAll;
    var front := Pad.Real(w.onWire) + w.buffered;
    assert w.sent == front + w.client.queue;
    assert w.sent[|front| + i] == w.client.queue[i];
  }

  lemma TakeHealthy(w: World)
    requires QueueInv(w) && Healthy(w)
    ensures Healthy(TakeStep(w))
    ensures w.client.queue != [] ==> TakeStep(w).client.queue == w.client.queue[1..]
    ensures w.client.queue != [] ==> TakeStep(w).buffered == w.buffered + [w.client.queue[0]]
  {
    hide Pad.Real, EncodeAll, ToBytes;
    if w.client.queue != [] {
      QueuedIsSent(w, 0);
      var f := w.client.queue[0];
      assert Fits(f);
    }
  }

  lemma FlushHealthy(w: World, sizes: seq<int>)
    requires QueueInv(w) && Healthy(w)
    ensures Healthy(FlushStep(w, sizes))
  {
    hide ToBytes, FlushRecords, SizesFor, Padding;
    if MayFlush(w.client) && SizesFor(w.client, sizes) {
      if w.onWire == [] {
        assert w.buffered != [];
        assert Pad.Real(w.onWire) == [];
        assert w.sent[0] == ([] + w.buffered + w.client.queue)[0] == w.buffered[0];
        assert ([] + (w.buffered + Padding(w.client, sizes)))[0] == w.buffered[0];
      } else {
        assert (w.onWire + (w.buffered + Padding(w.client, sizes)))[0] == w.onWire[0];
      }
    }
  }

  lemma ArrivesHealthy(w: World, a: RA.Arrival, net: seq<byte>)
    requires Healthy(w) && (a == RA.NotReady || (a.Chunk? && a.data != []))
    ensures Healthy(Arrives(w, a).(net := net))
  {
    hide ToBytes, Pad.Real;
  }

  lemma {:induction false} AheadIsContent(script: RA.Script)
    ensures RA.Ahead(script) <= RA.Content(script)
  {
    if script != [] && script[0].Chunk? && script[0].data != [] {
      AheadIsContent(script[1..]);
    }
  }

  /** The beginning of some encoded frames is not malformed. */
  lemma PrefixNotBad(fs: seq<Frame>, bytes: seq<byte>)
    requires AllFit(fs) && bytes <= EncodeAll(fs)
    ensures !ParseFrame(bytes).Bad?
  {
    hide U32Bytes;
    if |bytes| >= FRAME_HEADER_SIZE {
      assert fs != [];
      assert bytes[0] == EncodeAll(fs)[0] == Encode(fs[0])[0] == Code(fs[0].cmd);
    }
  }

  /** What is on its way is the encoding of the frames not processed yet. */
  lemma OnItsWay(w: World) returns (rest: seq<Frame>)
    requires QueueInv(w) && WireInv(w)
    ensures w.onWire == w.handled + InHand(w) + rest && AllFit(rest)
    ensures w.reader.buf + RA.Content(w.reader.script) + w.net == EncodeAll(rest)
  {
    hide EncodeAll, RA.Content, Pad.Real;
    HandledIsSent(w, 0);
    var done := w.handled + InHand(w);
    rest := w.onWire[|done|..];
    assert w.onWire == done + rest;
    EncodeAllAppend(done, rest);
    var coming := w.reader.buf + RA.Content(w.reader.script) + w.net;
    Assoc(EncodeAll(done), w.reader.buf, RA.Content(w.reader.script));
    Assoc(EncodeAll(done), w.reader.buf + RA.Content(w.reader.script), w.net);
    SameTail(EncodeAll(done), coming, EncodeAll(rest));
  }

  lemma SameTail<T>(front: seq<T>, a: seq<T>, b: seq<T>)
    requires front + a == front + b
    ensures a == b
  {
    assert a == (front + a)[|front|..] && b == (front + b)[|front|..];
  }

  /** The bytes at hand are the beginning of what is on its way. */
  lemma AtHand(w: World, rest: seq<Frame>)
    requires AllFit(rest) && w.reader.buf + RA.Content(w.reader.script) + w.net == EncodeAll(rest)
    ensures w.reader.buf + RA.Ahead(w.reader.script) <= EncodeAll(rest)
  {
    hide EncodeAll, RA.Content, RA.Ahead;
    AheadIsContent(w.reader.script);
    Prefixes(w.reader.buf, RA.Ahead(w.reader.script), RA.Content(w.reader.script), w.net);
  }

  lemma Prefixes<T>(buf: seq<T>, a: seq<T>, b: seq<T>, net: seq<T>)
    requires a <= b
    ensures buf + a <= buf + b + net
  {
  }

  lemma PollHealthy(w: World)
    requires QueueInv(w) && WireInv(w) && Healthy(w)
    ensures Healthy(PollStep(w))
    ensures w.hand.None? ==> !FR.PollFrame(w.reader).1.Error?
  {
    hide ToBytes, Pad.Real, EncodeAll, RA.Content, RA.Ahead, RA.StopOf, FR.PollFrame, RA.Calm, ParseFrame;
    if w.hand.None? {
      var rest := OnItsWay(w);
      AtHand(w, rest);
      PrefixNotBad(rest, w.reader.buf + RA.Ahead(w.reader.script));
      RA.CalmStop(w.reader.script);
      FR.PollAnswersIff(w.reader);
      PollCalm(w.reader);
    }
  }

  lemma PollCalm(r: FR.Reader)
    requires RA.Calm(r.script)
    ensures RA.Calm(FR.PollFrame(r).0.script)
  {
    hide RA.Fill, RA.Calm;
    if r.at == FR.AtHeader {
      RA.FillCalm(r.script, r.buf, FRAME_HEADER_SIZE, false);
      var filled := RA.Fill(r.script, r.buf, FRAME_HEADER_SIZE, false);
      if filled.outcome == RA.Filled {
        RA.FillConserves(r.script, r.buf, FRAME_HEADER_SIZE, false);
        RA.FillCalm(filled.script, filled.buf, FRAME_HEADER_SIZE + U16From(filled.buf[5], filled.buf[6]), false);
      }
    } else {
      RA.FillCalm(r.script, r.buf, FRAME_HEADER_SIZE + r.at.len, false);
    }
  }

  /** The frame in hand neither ends the session nor stops the server. */
  lemma HandIsHarmless(text: Text, w: World)
    requires Inv(text, w) && Healthy(w) && w.hand.Some?
    ensures var f := w.hand.value;
            && f.cmd != Alert
            && (w.handled == [] ==> f.cmd == Settings)
            && (f.cmd == Psh && f.sid in w.server.entries && w.server.entries[f.sid] == Waiting ==>
                  !ParseTarget(text, f.data).Panics?)
  {
    hide EncodeAll, RA.Content, Pad.Real, ToBytes, StreamOk, ParseTarget;
    var f := w.hand.value;
    HandledIsSent(w, f.sid);
    assert w.handled + InHand(w) == w.handled + [f];
    assert w.onWire[|w.handled|] == f;
    if f.cmd != Command.Waste {
      HandIsSent(w);
      var i :| 0 <= i < |w.sent| && w.sent[i] == f;
      assert i > 0 ==> f.cmd in {Syn, Psh, Fin, HeartResponse};
    }
    if f.cmd == Psh && f.sid in w.server.entries && w.server.entries[f.sid] == Waiting {
      NamesTarget(text, w);
    }
  }

  lemma NamesTarget(text: Text, w: World)
    requires Inv(text, w) && w.hand.Some? && w.server.open && w.hand.value.cmd == Psh
    requires w.hand.value.sid in w.server.entries && w.server.entries[w.hand.value.sid] == Waiting
    ensures !ParseTarget(text, w.hand.value.data).Panics?
  {
    hide EncodeAll, RA.Content, Pad.Real, Proj, Log, ParseTarget, WireInv, QueueInv;
    var f := w.hand.value;
    var sid := f.sid;
    var q := Proj(w.handled, sid);
    assert StreamOk(text, q, sid, w.server);
    HandledIsSent(w, sid);
    ProjOne(w.handled, f, sid);
    assert w.handled + InHand(w) == w.handled + [f];
    assert (q + [f])[1] == f == Proj(w.sent, sid)[1];
    NoStreamZero(text, w);
    assert sid in w.proxies;
    SecondInLog(sid, w.proxies[sid]);
    TargetIsLong(text, w.proxies[sid].target);
  }

  lemma SecondInLog(sid: u32, p: Proxy)
    requires |Log(sid, p)| >= 2
    ensures Log(sid, p)[1].data == ToBytes(p.target)
  {
    hide PshFrames, ToBytes;
  }

  lemma TargetIsLong(text: Text, t: TargetAddr)
    ensures !ParseTarget(text, ToBytes(t)).Panics?
  {
    PanicsOnlyOnLoneDomainTag(text, ToBytes(t));
  }

  lemma HandleHealthy(text: Text, w: World)
    requires Inv(text, w) && Healthy(w)
    ensures Healthy(HandleStep(text, w))
  {
    hide EncodeAll, RA.Content, RA.Calm, Pad.Real, ToBytes, ParseTarget, ParseUotRequest, Inv, NoPsh;
    if w.hand.Some? && !Blocked(w.server, w.hand.value) {
      HandIsHarmless(text, w);
    }
  }

  lemma StepHealthy(text: Text, w: World, e: Event)
    requires Inv(text, w) && Healthy(w) && Undisturbed(e)
    ensures Healthy(Step(text, w, e))
  {
    hide Inv, Healthy, RegisterStep, SendSynStep, SendTargetStep, WriteStep, SendPacketStep, ShutdownStep, DropStep,
      TakeStep, FlushStep, PollStep, HandleStep, ToBytes, ReadOutcome, RecvChunk;
    match e
    case LoopTake => TakeHealthy(w) by { Parts(text, w); }
    case LoopFlush(sizes) => FlushHealthy(w, sizes) by { Parts(text, w); }
    case Deliver(n) =>
      if 0 < n <= |w.net| {
        ArrivesHealthy(w, RA.Chunk(w.net[..n]), w.net[n..]);
      }
    case Stall(a) => ArrivesHealthy(w, a, w.net);
    case ServerPoll => PollHealthy(w) by { Parts(text, w); }
    case ServerHandle => HandleHealthy(text, w);
    case Heartbeat =>
      if HasRoom(w.client) {
        SendHealthy(w, Frame(HeartResponse, 0, []));
      }
    case CountFrame | NewScheme(_) | ServerCancel | AppRead(_, _) | AppRecv(_) | AppDrop(_) => PlainHealthy(text, w, e);
    case _ => ClientHealthy(text, w, e);
  }

  lemma Parts(text: Text, w: World)
    requires Inv(text, w)
    ensures QueueInv(w) && WireInv(w)
  {
  }

  lemma PlainHealthy(text: Text, w: World, e: Event)
    requires Healthy(w)
    requires e.CountFrame? || e.NewScheme? || e.ServerCancel? || e.AppRead? || e.AppRecv? || e.AppDrop?
    ensures Healthy(Step(text, w, e))
  {
    hide ToBytes, Pad.Real, ReadOutcome, RecvChunk, RA.Calm;
  }

  /** In every run that nobody disturbs both ends of the session stay open: the server accepts the first
      frame, parses every one, and is never told to close. */
  lemma {:induction false} SessionStaysOpen(text: Text, scheme: Pad.Scheme, settings: seq<byte>, events: seq<Event>)
    requires Legal(scheme, events) && AllUndisturbed(events) && |settings| <= 0xFFFF
    ensures Healthy(Run(text, Start(scheme, settings), events))
    ensures var w := Run(text, Start(scheme, settings), events); w.client.open && w.server.open
    decreases |events|
  {
    hide Step, Inv, Pad.FitsU16, Undisturbed;
    if events == [] {
      assert Healthy(Start(scheme, settings)) by { StartHealthy(scheme, settings); }
    } else {
      var init := events[..|events| - 1];
      RunInv(text, scheme, settings, init);
      SessionStaysOpen(text, scheme, settings, init);
      assert Undisturbed(events[|events| - 1]);
      StepHealthy(text, Run(text, Start(scheme, settings), init), events[|events| - 1]);
    }
  }

  lemma StartHealthy(scheme: Pad.Scheme, settings: seq<byte>)
    requires |settings| <= 0xFFFF
    ensures Healthy(Start(scheme, settings))
  {
  }

  // ─── Everything can still arrive ────────────────────────────────────────────

  /** The world of a run that nobody disturbed. */
  ghost predicate Good(text: Text, w: World) {
    Inv(text, w) && Healthy(w) && 0 < w.client.nextId < 0xFFFF_FFFF
  }

  /** An event of the machinery itself: the write loop, the network, the read loop, and readers that
      read. */
  predicate Internal(e: Event) {
    || e.LoopTake? || e.LoopFlush? || e.Deliver? || e.ServerPoll? || e.ServerHandle? || e.AppRead? || e.AppRecv?
  }

  predicate AllInternal(events: seq<Event>) {
    forall i :: 0 <= i < |events| ==> Internal(events[i])
  }

  /** A reader that has not left. */
  predicate Stays(w: World, sid: u32) {
    sid in w.server.apps ==> !w.server.apps[sid].gone
  }

  /** The streams, and what was acknowledged on them, are as before; nobody has left. */
  ghost predicate SameStreams(w: World, w': World) {
    w'.proxies == w.proxies && forall sid :: Stays(w, sid) ==> Stays(w', sid)
  }

  lemma InternalStep(text: Text, w: World, e: Event)
    requires Good(text, w) && Internal(e)
    ensures Good(text, Step(text, w, e)) && SameStreams(w, Step(text, w, e))
  {
    hide Inv, Healthy, Step;
    StepKeeps(text, w, e);
    StepHealthy(text, w, e);
    InternalKeeps(text, w, e);
    if e.ServerHandle? {
      HandleStays(text, w);
    }
  }

  lemma InternalKeeps(text: Text, w: World, e: Event)
    requires Internal(e)
    ensures Step(text, w, e).proxies == w.proxies && Step(text, w, e).client.nextId == w.client.nextId
    ensures !e.ServerHandle? ==> forall sid :: Stays(w, sid) ==> Stays(Step(text, w, e), sid)
  {
    hide Handle, FR.PollFrame, FlushRecords, SizesFor, Padding;
  }

  lemma HandleStays(text: Text, w: World)
    ensures forall sid :: Stays(w, sid) ==> Stays(Step(text, w, ServerHandle), sid)
  {
    hide ParseTarget, ParseUotRequest;
  }

  lemma {:induction false} RunAppend(text: Text, w: World, a: seq<Event>, b: seq<Event>)
    ensures Run(text, w, a + b) == Run(text, Run(text, w, a), b)
    decreases |b|
  {
    hide Step;
    if b == [] {
      assert a + b == a;
    } else {
      var init := b[..|b| - 1];
      RunAppend(text, w, a, init);
      assert (a + b)[..|a + b| - 1] == a + init;
    }
  }

  lemma RunOne(text: Text, w: World, e: Event)
    ensures Run(text, w, [e]) == Step(text, w, e)
  {
    assert [e][..0] == [];
    assert Run(text, w, []) == w;
  }

  /** One more event, then the others. */
  lemma Then(text: Text, w: World, e: Event, events: seq<Event>)
    requires Internal(e) && AllInternal(events)
    ensures AllInternal([e] + events)
    ensures Run(text, w, [e] + events) == Run(text, Step(text, w, e), events)
  {
    RunAppend(text, w, [e], events);
    RunOne(text, w, e);
  }

  lemma Both(text: Text, w: World, a: seq<Event>, b: seq<Event>)
    requires AllInternal(a) && AllInternal(b)
    ensures AllInternal(a + b) && Run(text, w, a + b) == Run(text, Run(text, w, a), b)
  {
    RunAppend(text, w, a, b);
  }

  lemma TakeGood(text: Text, w: World)
    requires Good(text, w) && w.client.queue != []
    ensures var w' := Step(text, w, LoopTake);
            w'.client.queue == w.client.queue[1..] && w'.sent == w.sent && w'.net == w.net
  {
    Parts(text, w);
    TakeHealthy(w);
  }

  lemma NothingBuffered(w: World)
    requires QueueInv(w) && w.client.buffer == []
    ensures w.buffered == []
  {
  }

  /** With the queue empty and a payload frame sent the loop is not holding its first frames back. */
  lemma NotHeldBack(text: Text, w: World, sid: u32)
    requires Good(text, w) && w.client.queue == [] && sid in w.proxies && w.proxies[sid].phase == Opened
    ensures !w.client.buffering
  {
    hide EncodeAll, RA.Content, Proj, StreamOk, ToBytes, Pad.Real, Log;
    var log := Proj(w.sent, sid);
    assert log == Log(sid, w.proxies[sid]);
    DatasOfLog(sid, w.proxies[sid]);
    ProjMembers(w.sent, sid, 1);
    var kept := Pad.Real(w.onWire);
    assert w.sent == kept + w.buffered + [] == kept + w.buffered;
    var i :| 0 <= i < |w.sent| && w.sent[i] == log[1];
    assert i < |kept| ==> kept[i].cmd == Psh;
    assert i >= |kept| ==> w.buffered[i - |kept|].cmd == Psh;
  }

  /** One flush puts everything taken on the wire. */
  lemma BufferEmpties(text: Text, w: World, sizes: seq<int>)
    requires Good(text, w) && !w.client.buffering && SizesFor(w.client, sizes)
    ensures var w' := Step(text, w, LoopFlush(sizes));
            && Good(text, w') && SameStreams(w, w')
            && w'.client.queue == w.client.queue && w'.buffered == []
  {
    hide Inv, Healthy, FlushRecords, SizesFor, Padding;
    InternalStep(text, w, LoopFlush(sizes));
    Parts(text, w);
    assert w.client.open by { OpenEnds(w); }
    if w.client.buffer == [] {
      NothingBuffered(w);
    }
  }

  lemma OpenEnds(w: World)
    requires Healthy(w)
    ensures w.client.open && w.server.open && RA.Calm(w.reader.script)
  {
  }

  /** The client's part is done: everything sent is with the server or its transport. */
  predicate AllDelivered(w: World) {
    w.client.queue == [] && w.buffered == [] && w.net == []
  }

  lemma NetEmpties(text: Text, w: World) returns (events: seq<Event>)
    requires Good(text, w) && w.client.queue == [] && w.buffered == []
    ensures var w' := Run(text, w, events);
            AllInternal(events) && Good(text, w') && SameStreams(w, w') && AllDelivered(w')
  {
    hide Inv, Healthy;
    if w.net == [] {
      events := [];
    } else {
      var e := Deliver(|w.net|);
      InternalStep(text, w, e);
      assert w.net[|w.net|..] == [];
      events := [e];
      RunOne(text, w, e);
    }
  }

  // ─── The server's part ──────────────────────────────────────────────────────

  /** The server's end of the path moved; the rest is as it was. */
  predicate OnlyServer(w: World, w': World) {
    w'.client == w.client && w'.buffered == w.buffered && w'.net == w.net && w'.onWire == w.onWire
  }

  lemma ServerStep(text: Text, w: World, e: Event)
    requires e.ServerPoll? || e.ServerHandle? || e.AppRead? || e.AppRecv?
    ensures OnlyServer(w, Step(text, w, e))
  {
    hide Handle, FR.PollFrame, ReadOutcome, RecvChunk;
  }

  /** One read frees a place in a reader's channel, or empties what is set aside. */
  lemma ReaderMoves(text: Text, w: World, sid: u32) returns (e: Event)
    requires CanReceive(w.server, sid)
    requires w.server.apps[sid].chan != [] || w.server.apps[sid].pending != []
    requires w.server.apps[sid].kind.Udp? ==> w.server.apps[sid].pending == []
    ensures (e.AppRead? || e.AppRecv?) && CanReceive(Step(text, w, e).server, sid)
    ensures var s, s' := w.server, Step(text, w, e).server;
            && s' == s.(apps := s.apps[sid := s'.apps[sid]])
            && s'.apps[sid].kind == s.apps[sid].kind
            && (s'.apps[sid].kind.Udp? ==> s'.apps[sid].pending == [])
            && |s'.apps[sid].chan| <= |s.apps[sid].chan|
            && (if s.apps[sid].pending != [] then s'.apps[sid].pending == [] && s'.apps[sid].chan == s.apps[sid].chan
                else s'.apps[sid].pending == [] && |s'.apps[sid].chan| < |s.apps[sid].chan|)
    ensures Step(text, w, e).reader == w.reader && Step(text, w, e).hand == w.hand
            && Step(text, w, e).handled == w.handled
  {
    var app := w.server.apps[sid];
    if app.kind.Udp? {
      e := AppRecv(sid);
    } else {
      e := AppRead(sid, if app.pending != [] then |app.pending| else |app.chan[0]|);
    }
  }

  /** A reader reads what it has. */
  lemma {:induction false} ReaderEmpties(text: Text, w: World, sid: u32) returns (events: seq<Event>)
    requires Good(text, w) && CanReceive(w.server, sid)
    ensures var w' := Run(text, w, events);
            && AllInternal(events) && Good(text, w') && SameStreams(w, w') && OnlyServer(w, w')
            && w'.reader == w.reader && w'.hand == w.hand && w'.handled == w.handled
            && CanReceive(w'.server, sid) && w'.server.apps[sid].chan == [] && w'.server.apps[sid].pending == []
            && w'.server == w.server.(apps := w.server.apps[sid := w'.server.apps[sid]])
            && w'.server.apps[sid].kind == w.server.apps[sid].kind
    decreases |w.server.apps[sid].chan|, |w.server.apps[sid].pending|
  {
    hide Inv, Healthy, Step;
    var app := w.server.apps[sid];
    if app.chan == [] && app.pending == [] {
      events := [];
    } else {
      UdpHasNoTail(text, w, sid);
      var e := ReaderMoves(text, w, sid);
      InternalStep(text, w, e);
      ServerStep(text, w, e);
      var rest := ReaderEmpties(text, Step(text, w, e), sid);
      Then(text, w, e, rest);
      events := [e] + rest;
    }
  }

  lemma UdpHasNoTail(text: Text, w: World, sid: u32)
    requires Good(text, w) && sid in w.server.apps
    ensures w.server.apps[sid].kind.Udp? ==> w.server.apps[sid].pending == []
  {
    hide Healthy, QueueInv, WireInv, LogInv, Proj, Given, Datas;
    assert StreamOk(text, Proj(w.handled, sid), sid, w.server);
  }

  /** The frame in hand is processed, if need be after its reader has made room. */
  lemma HandEmpties(text: Text, w: World) returns (events: seq<Event>)
    requires Good(text, w) && AllDelivered(w) && w.hand.Some?
    ensures var w' := Run(text, w, events);
            && AllInternal(events) && Good(text, w') && SameStreams(w, w') && AllDelivered(w')
            && w'.hand.None? && w'.handled == w.handled + [w.hand.value] && w'.onWire == w.onWire
  {
    hide Inv, Healthy, Step;
    var f := w.hand.value;
    events := [];
    var w1 := w;
    if Blocked(w.server, f) {
      events := ReaderEmpties(text, w, f.sid);
      w1 := Run(text, w, events);
    }
    assert !Blocked(w1.server, f);
    InternalStep(text, w1, ServerHandle);
    ServerStep(text, w1, ServerHandle);
    OpenEnds(w1);
    Handled(text, w1);
    RunOne(text, w1, ServerHandle);
    Both(text, w, events, [ServerHandle]);
    events := events + [ServerHandle];
  }

  lemma Handled(text: Text, w: World)
    requires w.server.open && w.hand.Some? && !Blocked(w.server, w.hand.value)
    ensures Step(text, w, ServerHandle).hand.None?
    ensures Step(text, w, ServerHandle).handled == w.handled + [w.hand.value]
  {
    hide Handle;
  }

  /** What a transport still has, in answers and in bytes. */
  function Left(script: RA.Script): nat {
    |script| + |RA.Content(script)|
  }

  lemma ReadLeaves(script: RA.Script, room: nat)
    requires room > 0
    ensures var (a, rest) := RA.Read(script, room);
            Left(rest) < Left(script) || (script == [] && rest == [] && a == RA.NotReady)
  {
    RA.ReadConserves(script, room);
    if script != [] && script[0].Chunk? && |script[0].data| > room {
      var rest := [RA.Chunk(script[0].data[room..])] + script[1..];
      assert |rest| == |script|;
    }
  }

  /** A fill that has to wait has used an answer of the transport up, or there was none. */
  lemma {:induction false} FillLeaves(script: RA.Script, buf: seq<byte>, count: nat)
    ensures var r := RA.Fill(script, buf, count, false);
            Left(r.script) <= Left(script)
            && (r.outcome == RA.Pending ==> Left(r.script) < Left(script) || script == [])
    decreases if |buf| < count then count - |buf| else 0
  {
    hide RA.Read;
    if |buf| < count {
      var room := Max(RA.READ_AHEAD, count - |buf|);
      var (a, rest) := RA.Read(script, room);
      ReadLeaves(script, room);
      if a.Chunk? && a.data != [] {
        FillLeaves(rest, buf + a.data, count);
      }
    }
  }

  lemma PollLeaves(r: FR.Reader)
    ensures var (r', p) := FR.PollFrame(r);
            p.Waiting? ==> Left(r'.script) < Left(r.script) || r.script == []
  {
    hide RA.Fill, Left;
    if r.at == FR.AtHeader {
      FillLeaves(r.script, r.buf, FRAME_HEADER_SIZE);
      var filled := RA.Fill(r.script, r.buf, FRAME_HEADER_SIZE, false);
      if filled.outcome == RA.Filled {
        RA.FillConserves(r.script, r.buf, FRAME_HEADER_SIZE, false);
        var end := FRAME_HEADER_SIZE + U16From(filled.buf[5], filled.buf[6]);
        FillLeaves(filled.script, filled.buf, end);
        assert filled.script == [] ==> r.script == [] || Left(filled.script) < Left(r.script) by {
          assert Left([]) == 0 && (r.script != [] ==> Left(r.script) > 0) by { NothingLeft(r.script); }
        }
      }
    } else {
      FillLeaves(r.script, r.buf, FRAME_HEADER_SIZE + r.at.len);
    }
  }

  lemma NothingLeft(script: RA.Script)
    ensures Left([]) == 0 && (script != [] ==> Left(script) > 0)
  {
  }

  /** Polling gets the next frame, however the bytes come. */
  lemma {:induction false} NextFrameComes(text: Text, w: World) returns (events: seq<Event>)
    requires Good(text, w) && AllDelivered(w) && w.hand.None? && |w.handled| < |w.onWire|
    ensures var w' := Run(text, w, events);
            && AllInternal(events) && Good(text, w') && SameStreams(w, w') && AllDelivered(w')
            && w'.hand.Some? && w'.handled == w.handled && w'.onWire == w.onWire
    decreases Left(w.reader.script)
  {
    hide Inv, Healthy, Step, Left;
    InternalStep(text, w, ServerPoll);
    ServerStep(text, w, ServerPoll);
    Polled(text, w);
    var w1 := Step(text, w, ServerPoll);
    if w1.hand.Some? {
      events := [ServerPoll];
      RunOne(text, w, ServerPoll);
    } else {
      PollLeaves(w.reader);
      MoreToCome(text, w);
      var rest := NextFrameComes(text, w1);
      Then(text, w, ServerPoll, rest);
      events := [ServerPoll] + rest;
    }
  }

  lemma Polled(text: Text, w: World)
    requires Good(text, w) && w.hand.None?
    ensures var w' := Step(text, w, ServerPoll);
            var (r, p) := FR.PollFrame(w.reader);
            && w'.reader == r && w'.handled == w.handled
            && (p.Ready? ==> w'.hand == Some(p.frame)) && (!p.Ready? ==> w'.hand.None? && p.Waiting?)
  {
    hide FR.PollFrame;
    Parts(text, w);
    PollHealthy(w);
  }

  /** With frames still to come the transport has answers left, or the next frame is whole. */
  lemma MoreToCome(text: Text, w: World)
    requires Good(text, w) && AllDelivered(w) && w.hand.None? && |w.handled| < |w.onWire|
    requires FR.PollFrame(w.reader).1.Waiting?
    ensures w.reader.script != []
  {
    hide EncodeAll, Pad.Real, FR.PollFrame, ParseFrame, StreamOk, RA.Ahead, RA.Content;
    if w.reader.script == [] {
      var rest := OnItsWay(w);
      assert rest != [];
      NoAnswers();
      FR.PollAnswersIff(w.reader);
      assert w.reader.buf + [] + [] == w.reader.buf && w.reader.buf + [] == w.reader.buf;
      FirstIsWhole(rest);
      assert false;
    }
  }

  lemma NoAnswers()
    ensures RA.Ahead([]) == [] && RA.Content([]) == []
  {
  }

  lemma FirstIsWhole(fs: seq<Frame>)
    requires AllFit(fs) && fs != []
    ensures ParseFrame(EncodeAll(fs)).Got?
  {
    hide ParseFrame;
    ParseEncode(fs[0], EncodeAll(fs[1..]));
  }

  /** The server reads and processes every frame. */
  lemma {:induction false} ServerCatchesUp(text: Text, w: World) returns (events: seq<Event>)
    requires Good(text, w) && AllDelivered(w)
    ensures var w' := Run(text, w, events);
            && AllInternal(events) && Good(text, w') && SameStreams(w, w') && AllDelivered(w')
            && w'.hand.None? && w'.handled == w'.onWire
    decreases |w.onWire| - |w.handled|, if w.hand.Some? then 1 else 0
  {
    hide Inv, Healthy, Step;
    Parts(text, w);
    var rest := OnItsWay(w);
    if w.hand.Some? {
      var a := HandEmpties(text, w);
      var w1 := Run(text, w, a);
      var b := ServerCatchesUp(text, w1);
      Both(text, w, a, b);
      events := a + b;
    } else if |w.handled| < |w.onWire| {
      var a := NextFrameComes(text, w);
      var w1 := Run(text, w, a);
      var b := HandEmpties(text, w1);
      var w2 := Run(text, w1, b);
      var c := ServerCatchesUp(text, w2);
      Both(text, w1, b, c);
      Both(text, w, a, b + c);
      events := a + (b + c);
    } else {
      assert w.handled + [] + rest == w.handled + rest;
      assert rest == [];
      assert w.handled + [] == w.handled;
      events := [];
    }
  }

  /** A stream whose client named a target that arrives, everything of which the server has processed,
      has its reader, and that was given everything acknowledged. */
  lemma CaughtUp(text: Text, w: World, sid: u32)
    requires Good(text, w) && AllDelivered(w) && w.hand.None? && w.handled == w.onWire
    requires sid in w.proxies && w.proxies[sid].phase == Opened && Stays(w, sid)
    requires var t := w.proxies[sid].target; WellFormed(text, t) && Encodable(t) && !IsUot(t)
    ensures CanReceive(w.server, sid) && w.server.apps[sid].kind.Tcp?
    ensures w.server.apps[sid].target == w.proxies[sid].target
    ensures Total(w.server.apps[sid]) == w.proxies[sid].accepted
    ensures sid in w.server.entries <==> !w.proxies[sid].fin
  {
    hide EncodeAll, RA.Content, Proj, ToBytes, Pad.Real, Log, Datas, Given, Total, ParseTarget, Decode, ParseUotRequest;
    var p := w.proxies[sid];
    var q := Proj(w.handled, sid);
    var kept := Pad.Real(w.onWire);
    assert w.sent == kept + [] + [] == kept;
    ProjReal(w.onWire, sid);
    assert q == Log(sid, p);
    DatasOfLog(sid, p);
    TargetRecovered(text, p.target, []);
    assert ToBytes(p.target) + [] == ToBytes(p.target);
    assert StreamOk(text, q, sid, w.server);
    assert ParseTarget(text, q[1].data) == Ok(p.target);
    TcpGiven(text, p.chunks);
    FinEnds(sid, p);
  }

  /** Nothing that was acknowledged is ever stuck. After every run that nobody disturbed, whatever is
      queued, buffered, on the wire or half read, and whoever is blocked on a full channel, the
      machinery and the readers can go on, without another call of the client, to where the stream has
      gone to the target it asked for and its reader, if it has not left, has read every byte
      acknowledged, and is then told of the end if and only if the client's FIN went out. */
  lemma EverythingCanArrive(text: Text, scheme: Pad.Scheme, settings: seq<byte>, events: seq<Event>, sid: u32,
                            sizes: seq<int>) returns (more: seq<Event>)
    requires Legal(scheme, events) && |events| < 0xFFFF_FFFE
    requires AllUndisturbed(events) && |settings| <= 0xFFFF
    requires var w := Run(text, Start(scheme, settings), events);
             && SizesFor(w.client, sizes) && Stays(w, sid)
             && sid in w.proxies && w.proxies[sid].phase == Opened
             && var t := w.proxies[sid].target; WellFormed(text, t) && Encodable(t) && !IsUot(t)
    ensures AllInternal(more)
    ensures var w := Run(text, Start(scheme, settings), events);
            var last := Run(text, Start(scheme, settings), events + more);
            && last.proxies == w.proxies
            && CanReceive(last.server, sid) && last.server.apps[sid].kind.Tcp?
            && last.server.apps[sid].target == w.proxies[sid].target
            && last.server.apps[sid].read == w.proxies[sid].accepted
            && (forall room: nat :: room > 0 ==>
                  NextAnswer(last, sid, room) == if w.proxies[sid].fin then Ready([]) else Pending)
  {
    hide Inv, Healthy, Run, Legal, AllUndisturbed, SizesFor, WellFormed, Encodable, ReadOutcome, Total;
    var w := Run(text, Start(scheme, settings), events);
    RunInv(text, scheme, settings, events) by { assert Legal(scheme, events); }
    SessionStaysOpen(text, scheme, settings, events);
    assert Good(text, w);
    more := Delivery(text, w, sid, sizes);
    var last := Run(text, w, more);
    RunAppend(text, Start(scheme, settings), events, more);
    forall room: nat | room > 0
      ensures NextAnswer(last, sid, room) == if w.proxies[sid].fin then Ready([]) else Pending
    {
      ReadAnswersIff(last.server.apps[sid], room, sid in last.server.entries);
    }
  }

  lemma Delivery(text: Text, w: World, sid: u32, sizes: seq<int>) returns (more: seq<Event>)
    requires Good(text, w) && SizesFor(w.client, sizes) && Stays(w, sid)
    requires sid in w.proxies && w.proxies[sid].phase == Opened
    requires var t := w.proxies[sid].target; WellFormed(text, t) && Encodable(t) && !IsUot(t)
    ensures AllInternal(more)
    ensures var last := Run(text, w, more);
            && last.proxies == w.proxies
            && CanReceive(last.server, sid) && last.server.apps[sid].kind.Tcp?
            && last.server.apps[sid].target == w.proxies[sid].target
            && last.server.apps[sid].read == Total(last.server.apps[sid]) == w.proxies[sid].accepted
            && last.server.apps[sid].chan == []
            && (sid in last.server.entries <==> !w.proxies[sid].fin)
  {
    hide Inv, Healthy, SizesFor, WellFormed, Encodable, Step;
    var a, w1 := AllTaken(text, w, sizes);
    NotHeldBack(text, w1, sid);
    BufferEmpties(text, w1, sizes);
    var flush := LoopFlush(sizes);
    var w2 := Step(text, w1, flush);
    var b := NetEmpties(text, w2);
    var w3 := Run(text, w2, b);
    var c := ServerCatchesUp(text, w3);
    var w4 := Run(text, w3, c);
    CaughtUp(text, w4, sid);
    var d := ReaderEmpties(text, w4, sid);
    var w5 := Run(text, w4, d);
    CaughtUp(text, w5, sid);
    AllIsRead(w5.server.apps[sid]);
    Both(text, w3, c, d);
    Both(text, w2, b, c + d);
    Then(text, w1, flush, b + (c + d));
    Both(text, w, a, [flush] + (b + (c + d)));
    more := a + ([flush] + (b + (c + d)));
  }

  /** Taking frames off the queue leaves the draws for the next write as they are. */
  lemma AllTaken(text: Text, w: World, sizes: seq<int>) returns (events: seq<Event>, w': World)
    requires Good(text, w) && SizesFor(w.client, sizes)
    ensures AllInternal(events) && w' == Run(text, w, events)
    ensures Good(text, w') && SameStreams(w, w') && w'.client.queue == [] && SizesFor(w'.client, sizes)
    decreases |w.client.queue|
  {
    hide Inv, Healthy, Step;
    if w.client.queue == [] {
      events, w' := [], w;
    } else {
      InternalStep(text, w, LoopTake);
      TakeGood(text, w);
      TakeSizes(text, w, sizes);
      var rest;
      rest, w' := AllTaken(text, Step(text, w, LoopTake), sizes);
      Then(text, w, LoopTake, rest);
      events := [LoopTake] + rest;
    }
  }

  lemma TakeSizes(text: Text, w: World, sizes: seq<int>)
    requires SizesFor(w.client, sizes)
    ensures SizesFor(Step(text, w, LoopTake).client, sizes)
  {
    hide Pad.Drawn;
  }

  lemma AllIsRead(app: App)
    requires app.chan == [] && app.pending == []
    ensures app.read == Total(app)
  {
    assert app.read + [] + [] == app.read;
  }
}
