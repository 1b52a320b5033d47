/** UDP over TCP: packets `[target] | length(2) | payload` cut out of a byte stream
    (src/proxy/anytls_proto.rs). */
module UotPackets {
  import opened Wire
  import opened TargetAddress

  /** `uot_write_target`: like the SOCKS5 form, with other type tags. */
  function TargetBytes(t: TargetAddr): seq<byte> {
    match t
    case V4(ip, port) => [0] + ip + U16Bytes(port)
    case V6(ip, port, _, _) => [1] + ip + U16Bytes(port)
    case Domain(name, port) => [2, |name| % 256] + name + U16Bytes(port)
  }

  datatype HeadLen = Unknown | Len(n: nat) | BadType

  /** `uot_target_len`: how long the address at the front is, once all of it is there. */
  function TargetLen(data: seq<byte>): HeadLen {
    if data == [] then Unknown
    else if data[0] == 0 then (if |data| >= 7 then Len(7) else Unknown)
    else if data[0] == 1 then (if |data| >= 19 then Len(19) else Unknown)
    else if data[0] == 2 then
      if |data| < 2 then Unknown
      else
        var len: nat := data[1];
        if |data| >= 4 + len then Len(4 + len) else Unknown
    else BadType
  }

  datatype Cut = More | Bad | Packet(bytes: seq<byte>, rest: seq<byte>)

  /** The packet whose address takes `head` bytes. */
  function CutAfter(data: seq<byte>, head: nat): Cut {
    if |data| < head + 2 then More
    else
      var len: nat := U16From(data[head], data[head + 1]);
      if |data| < head + 2 + len then More
      else Packet(data[..head + 2 + len], data[head + 2 + len..])
  }

  /** `next_packet`. In connect mode packets carry no address. */
  function Next(data: seq<byte>, isConnect: bool): Cut {
    match if isConnect then Len(0) else TargetLen(data)
    case Unknown => More
    case BadType => Bad
    case Len(head) => CutAfter(data, head)
  }

  /** The one-shot parse: all packets at the front, and what is left. */
  function CutAll(data: seq<byte>, isConnect: bool): (seq<seq<byte>>, seq<byte>)
    decreases |data|
  {
    match Next(data, isConnect)
    case Packet(p, rest) => var (ps, tail) := CutAll(rest, isConnect); ([p] + ps, tail)
    case _ => ([], data)
  }

  /** `encode_uot_packet`. */
  function EncodePacket(payload: seq<byte>, target: Option<TargetAddr>): (packet: Option<seq<byte>>)
    ensures packet.Some? <==> |payload| <= 0xFFFF
  {
    if |payload| > 0xFFFF then None
    else Some((if target.Some? then TargetBytes(target.value) else []) + U16Bytes(|payload|) + payload)
  }

  /** `uot_decode_target`: the address and how many bytes it took. */
  function DecodeTarget(text: Text, data: seq<byte>): Option<(TargetAddr, nat)> {
    if data == [] then None
    else if data[0] == 0 then
      if |data| < 7 then None else Some((V4(data[1..5], U16From(data[5], data[6])), 7))
    else if data[0] == 1 then
      if |data| < 19 then None else Some((V6(data[1..17], U16From(data[17], data[18]), 0, 0), 19))
    else if data[0] == 2 then
      if |data| < 2 then None
      else
        var len: nat := data[1];
        if |data| < 2 + len + 2 then None
        else Some((Domain(text.lossy(data[2..2 + len]), U16From(data[2 + len], data[3 + len])), 2 + len + 2))
    else None
  }

  function DecodeHead(text: Text, data: seq<byte>, isConnect: bool): Option<(Option<TargetAddr>, nat)> {
    if isConnect then Some((None, 0))
    else match DecodeTarget(text, data)
      case None => None
      case Some(head) => Some((Some(head.0), head.1))
  }

  /** `decode_uot_packet`. */
  function DecodePacket(text: Text, data: seq<byte>, isConnect: bool): Option<(Option<TargetAddr>, seq<byte>)> {
    match DecodeHead(text, data, isConnect)
    case None => None
    case Some(h) =>
      var head := h.1;
      if |data| < head + 2 then None
      else
        var len: nat := U16From(data[head], data[head + 1]);
        if |data| < head + 2 + len then None
        else Some((h.0, data[head + 2..head + 2 + len]))
  }

  // ─── UotReadBuffer ──────────────────────────────────────────────────────────

  class UotReadBuffer {
    var data: seq<byte>

    constructor ()
      ensures data == []
    {
      data := [];
    }

    method Push(chunk: seq<byte>)
      modifies this
      ensures data == old(data) + chunk
    {
      data := data + chunk;
    }

    method NextPacket(isConnect: bool) returns (cut: Cut)
      modifies this
      ensures cut == Next(old(data), isConnect)
      ensures data == if cut.Packet? then cut.rest else old(data)
    {
      var head := 0;
      if isConnect {
        if |data| < 2 {
          return More;
        }
      } else {
        match TargetLen(data) {
          case BadType => return Bad;
          case Unknown => return More;
          case Len(n) => head := n;
        }
      }
      if |data| < head + 2 {
        return More;
      }
      var len: nat := U16From(data[head], data[head + 1]);
      if |data| < head + 2 + len {
        return More;
      }
      cut := Packet(data[..head + 2 + len], data[head + 2 + len..]);
      data := data[head + 2 + len..];
    }
  }

  // ─── Fragmentation ──────────────────────────────────────────────────────────

  /** More bytes never change a decision already taken. */
  lemma NextIsStable(data: seq<byte>, more: seq<byte>, isConnect: bool)
    ensures Next(data, isConnect).Bad? ==> Next(data + more, isConnect).Bad?
    ensures Next(data, isConnect).Packet? ==>
              Next(data + more, isConnect)
              == Packet(Next(data, isConnect).bytes, Next(data, isConnect).rest + more)
  {
    hide TargetLen, CutAfter;
    TargetLenIsStable(data, more);
    var head := if isConnect then Len(0) else TargetLen(data);
    if head.Len? {
      CutAfterIsStable(data, more, head.n);
    }
  }

  lemma CutAfterIsStable(data: seq<byte>, more: seq<byte>, head: nat)
    ensures !CutAfter(data, head).Bad?
    ensures CutAfter(data, head).Packet? ==>
              CutAfter(data + more, head) == Packet(CutAfter(data, head).bytes, CutAfter(data, head).rest + more)
  {
    if CutAfter(data, head).Packet? {
      SliceAppend(data, more, |CutAfter(data, head).bytes|);
    }
  }

  lemma TargetLenIsStable(data: seq<byte>, more: seq<byte>)
    ensures !TargetLen(data).Unknown? ==> TargetLen(data + more) == TargetLen(data)
    ensures TargetLen(data).Len? ==> TargetLen(data).n <= |data|
  {
  }

  lemma NextSound(data: seq<byte>, isConnect: bool)
    requires Next(data, isConnect).Packet?
    ensures data == Next(data, isConnect).bytes + Next(data, isConnect).rest
    ensures |Next(data, isConnect).rest| < |data|
  {
  }

  lemma CutAllStep(data: seq<byte>, p: seq<byte>, rest: seq<byte>, isConnect: bool)
    requires Next(data, isConnect) == Packet(p, rest)
    ensures CutAll(data, isConnect) == ([p] + CutAll(rest, isConnect).0, CutAll(rest, isConnect).1)
  {
    hide Next;
  }

  /** The packets and the leftover are the bytes, cut; the leftover holds no whole packet. */
  lemma {:induction false} CutAllSound(data: seq<byte>, isConnect: bool)
    ensures Flatten(CutAll(data, isConnect).0) + CutAll(data, isConnect).1 == data
    ensures !Next(CutAll(data, isConnect).1, isConnect).Packet?
    decreases |data|
  {
    hide Next;
    match Next(data, isConnect)
    case Packet(p, rest) =>
      NextSound(data, isConnect);
      CutAllSound(rest, isConnect);
      var (ps, tail) := CutAll(rest, isConnect);
      assert ([p] + ps)[1..] == ps;
      Assoc(p, Flatten(ps), tail);
    case _ =>
  }

  /** Parsing fragment by fragment is parsing at once. */
  lemma {:induction false} CutAllSplit(a: seq<byte>, b: seq<byte>, isConnect: bool)
    ensures var (ps, left) := CutAll(a, isConnect);
            var (qs, tail) := CutAll(left + b, isConnect);
            CutAll(a + b, isConnect) == (ps + qs, tail)
    decreases |a|
  {
    hide Next;
    NextIsStable(a, b, isConnect);
    match Next(a, isConnect)
    case Packet(p, rest) =>
      NextSound(a, isConnect);
      CutAllSplit(rest, b, isConnect);
      var (ps, left) := CutAll(rest, isConnect);
      var (qs, tail) := CutAll(left + b, isConnect);
      Assoc([p], ps, qs);
    case _ =>
      assert [] + CutAll(a + b, isConnect).0 == CutAll(a + b, isConnect).0;
  }

  datatype Event = PushChunk(chunk: seq<byte>) | TakeOne

  /** A decoder at work: its buffer, the packets it has cut, all bytes ever pushed, and whether the
      last call found no packet. */
  datatype Session = Session(data: seq<byte>, packets: seq<seq<byte>>, pushed: seq<byte>, idle: bool)

  function Step(s: Session, e: Event, isConnect: bool): Session {
    match e
    case PushChunk(chunk) => s.(data := s.data + chunk, pushed := s.pushed + chunk, idle := false)
    case TakeOne =>
      match Next(s.data, isConnect)
      case Packet(p, rest) => s.(data := rest, packets := s.packets + [p], idle := false)
      case _ => s.(idle := true)
  }

  function Run(events: seq<Event>, isConnect: bool): Session {
    if events == [] then Session([], [], [], false)
    else Step(Run(events[..|events| - 1], isConnect), events[|events| - 1], isConnect)
  }

  ghost predicate OneShot(s: Session, isConnect: bool) {
    var (ps, tail) := CutAll(s.data, isConnect);
    && Flatten(s.packets) + s.data == s.pushed
    && CutAll(s.pushed, isConnect) == (s.packets + ps, tail)
    && (s.idle ==> CutAll(s.pushed, isConnect) == (s.packets, s.data))
  }

  lemma PushKeeps(s: Session, chunk: seq<byte>, isConnect: bool)
    requires OneShot(s, isConnect)
    ensures OneShot(Step(s, PushChunk(chunk), isConnect), isConnect)
  {
    hide CutAll, Next;
    var (ps, left) := CutAll(s.data, isConnect);
    CutAllSplit(s.pushed, chunk, isConnect);
    CutAllSplit(s.data, chunk, isConnect);
    Assoc(s.packets, ps, CutAll(left + chunk, isConnect).0);
    Assoc(Flatten(s.packets), s.data, chunk);
  }

  lemma TakeKeeps(s: Session, isConnect: bool)
    requires OneShot(s, isConnect)
    ensures OneShot(Step(s, TakeOne, isConnect), isConnect)
  {
    hide Next;
    match Next(s.data, isConnect)
    case Packet(p, rest) =>
      NextSound(s.data, isConnect);
      FlattenOne(s.packets, p);
      Assoc(Flatten(s.packets), p, rest);
      Assoc(s.packets, [p], CutAll(rest, isConnect).0);
    case _ =>
      assert s.packets + [] == s.packets;
  }

  /** The packets cut so far followed by the parse of the buffer are the one-shot parse of
      everything pushed, however it was cut up and whenever packets were asked for; once a call finds
      none, they are all of it and the buffer is the unparsed suffix. */
  lemma {:induction false} DecoderIgnoresFragmentation(events: seq<Event>, isConnect: bool)
    ensures OneShot(Run(events, isConnect), isConnect)
  {
    if events != [] {
      var s := Run(events[..|events| - 1], isConnect);
      DecoderIgnoresFragmentation(events[..|events| - 1], isConnect);
      match events[|events| - 1]
      case PushChunk(chunk) => PushKeeps(s, chunk, isConnect);
      case TakeOne => TakeKeeps(s, isConnect);
    }
  }

  // ─── Round trip ─────────────────────────────────────────────────────────────

  lemma HeadFields(text: Text, t: TargetAddr, tail: seq<byte>)
    requires WellFormed(text, t) && Encodable(t) && Lawful(text)
    ensures TargetLen(TargetBytes(t) + tail) == Len(EncodedLen(t))
    ensures DecodeTarget(text, TargetBytes(t) + tail) == Some((t, EncodedLen(t)))
    ensures |TargetBytes(t)| == EncodedLen(t)
  {
    match t
    case V4(ip, port) => Fields([0], ip, port, tail);
    case V6(ip, port, _, _) => Fields([1], ip, port, tail);
    case Domain(name, port) =>
      Fields([2, |name| % 256], name, port, tail);
      var data := TargetBytes(t) + tail;
      assert data[2..2 + data[1] as int] == name;
  }

  lemma LengthField(head: seq<byte>, payload: seq<byte>, tail: seq<byte>)
    requires |payload| <= 0xFFFF
    ensures var packet := head + U16Bytes(|payload|) + payload;
            var data := packet + tail;
            && U16From(data[|head|], data[|head| + 1]) == |payload|
            && data[..|packet|] == packet && data[|packet|..] == tail
            && data[|head| + 2..|packet|] == payload
  {
    U16RoundTrip(|payload|);
    var packet := head + U16Bytes(|payload|) + payload;
    assert packet[|head| + 2..] == payload;
    assert (packet + tail)[..|packet|] == packet;
  }

  /** Repairing the front part of valid text replaces at most the one character cut through, by three
      bytes. */
  ghost predicate Repairs(text: Text) {
    forall name, s :: text.isUtf8(name) && s <= name ==> |text.lossy(s)| <= |s| + 2
  }

  /** What the decoder takes for the name: as much as the length byte says. */
  lemma DomainHead(text: Text, name: seq<byte>, port: u16, tail: seq<byte>)
    ensures var head := DecodeTarget(text, TargetBytes(Domain(name, port)) + tail);
            head.Some? && head.value.0.Domain? && head.value.0.name == text.lossy(name[..|name| % 256])
  {
    var data := TargetBytes(Domain(name, port)) + tail;
    var len: nat := |name| % 256;
    Fields([2, len], name, port, tail);
    assert |data| >= 2 + |name| + 2 && data[2..2 + len] == data[2..2 + |name|][..len];
  }

  /** An address that loses something is not what the decoder finds. */
  lemma HeadDiffers(text: Text, t: TargetAddr, tail: seq<byte>)
    requires WellFormed(text, t) && !Encodable(t) && Repairs(text)
    ensures var head := DecodeTarget(text, TargetBytes(t) + tail); head.Some? ==> head.value.0 != t
  {
    hide TargetBytes, DecodeTarget;
    match t
    case V6(ip, port, _, _) => V6Head(text, t, tail);
    case Domain(name, port) =>
      DomainHead(text, name, port, tail);
      var len: nat := |name| % 256;
      assert name[..len] <= name && len + 256 <= |name|;
      assert |text.lossy(name[..len])| <= len + 2;
  }

  lemma V6Head(text: Text, t: TargetAddr, tail: seq<byte>)
    requires t.V6?
    ensures var head := DecodeTarget(text, TargetBytes(t) + tail);
            head.Some? ==> head.value.0.V6? && head.value.0.flowinfo == 0 && head.value.0.scopeId == 0
  {
    assert (TargetBytes(t) + tail)[0] == 1;
  }

  /** An encoded packet of an address that loses nothing is cut out whole, wherever it stands in the
      stream. It decodes to the payload and the address it was made from if and only if there is no
      such address or it loses nothing. */
  lemma PacketRoundTrip(text: Text, payload: seq<byte>, target: Option<TargetAddr>, tail: seq<byte>)
    requires |payload| <= 0xFFFF && Lawful(text)
    requires target.Some? ==> WellFormed(text, target.value)
    ensures var packet := EncodePacket(payload, target).value;
            var whole := target.Some? ==> Encodable(target.value);
            && (whole ==> Next(packet + tail, target.None?) == Packet(packet, tail))
            && (whole ==> DecodePacket(text, packet, target.None?) == Some((target, payload)))
            && (Repairs(text) ==>
                  (DecodePacket(text, packet, target.None?) == Some((target, payload)) <==> whole))
  {
    var head := if target.Some? then TargetBytes(target.value) else [];
    var packet := EncodePacket(payload, target).value;
    LengthField(head, payload, tail);
    LengthField(head, payload, []);
    assert packet + [] == packet;
    if target.Some? {
      Assoc(head, U16Bytes(|payload|), payload);
      Assoc(head, U16Bytes(|payload|) + payload, tail);
      if Encodable(target.value) {
        HeadFields(text, target.value, U16Bytes(|payload|) + payload);
        HeadFields(text, target.value, U16Bytes(|payload|) + payload + tail);
      } else if Repairs(text) {
        HeadDiffers(text, target.value, U16Bytes(|payload|) + payload);
      }
    }
  }

  datatype Item = Item(payload: seq<byte>, target: Option<TargetAddr>)

  predicate Sendable(text: Text, item: Item, isConnect: bool) {
    && |item.payload| <= 0xFFFF
    && item.target.None? == isConnect
    && (item.target.Some? ==> WellFormed(text, item.target.value) && Encodable(item.target.value))
  }

  predicate AllSendable(text: Text, items: seq<Item>, isConnect: bool) {
    forall i :: 0 <= i < |items| ==> Sendable(text, items[i], isConnect)
  }

  function Encoded(text: Text, items: seq<Item>, isConnect: bool): (packets: seq<seq<byte>>)
    requires AllSendable(text, items, isConnect)
    ensures |packets| == |items|
  {
    if items == [] then []
    else [EncodePacket(items[0].payload, items[0].target).value] + Encoded(text, items[1..], isConnect)
  }

  /** Whole runs of packets survive: parsing their concatenation gives them back one by one, and
      each decodes to the payload and address that were sent. */
  lemma {:induction false} PacketsRoundTrip(text: Text, items: seq<Item>, isConnect: bool, tail: seq<byte>)
    requires Lawful(text)
    requires AllSendable(text, items, isConnect)
    ensures var packets := Encoded(text, items, isConnect);
            && CutAll(Flatten(packets) + tail, isConnect)
               == (packets + CutAll(tail, isConnect).0, CutAll(tail, isConnect).1)
            && forall i :: 0 <= i < |items| ==>
                 DecodePacket(text, packets[i], isConnect) == Some((items[i].target, items[i].payload))
  {
    hide Next, DecodePacket, EncodePacket, CutAll;
    if items == [] {
      assert Flatten(Encoded(text, items, isConnect)) + tail == tail;
      assert [] + CutAll(tail, isConnect).0 == CutAll(tail, isConnect).0;
    } else {
      var packet := EncodePacket(items[0].payload, items[0].target).value;
      var packets := Encoded(text, items[1..], isConnect);
      PacketsRoundTrip(text, items[1..], isConnect, tail);
      PacketRoundTrip(text, items[0].payload, items[0].target, Flatten(packets) + tail);
      CutAllStep(packet + (Flatten(packets) + tail), packet, Flatten(packets) + tail, isConnect);
      assert ([packet] + packets)[1..] == packets;
      Assoc(packet, Flatten(packets), tail);
      Assoc([packet], packets, CutAll(tail, isConnect).0);
    }
  }
}
