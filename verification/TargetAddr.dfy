/** Addresses and their SOCKS5 / Trojan encoding (src/proxy/mod.rs). */
module TargetAddress {
  import opened Wire

  /** A socket address or a host name with a port. `V6` carries the flow label and the scope,
      which the wire format has no room for; a `Domain` holds the bytes of a UTF-8 string. */
  datatype TargetAddr =
    | V4(ip4: seq<byte>, port4: u16)
    | V6(ip6: seq<byte>, port6: u16, flowinfo: u32, scopeId: u32)
    | Domain(name: seq<byte>, port: u16)

  /** What the standard library supplies: the UTF-8 check of `String::from_utf8`, the repair done by
      `String::from_utf8_lossy`, and the parser of IP literals (`str::parse::<IpAddr>`), whose
      result carries the port it is given. */
  datatype Text = Text(
    isUtf8: seq<byte> -> bool,
    lossy: seq<byte> -> seq<byte>,
    ipLiteral: (seq<byte>, u16) -> Option<TargetAddr>)

  /** The repair leaves valid text alone. */
  ghost predicate Lawful(text: Text) {
    forall s :: text.isUtf8(s) ==> text.lossy(s) == s
  }

  /** The values the Rust type can hold. */
  predicate WellFormed(text: Text, t: TargetAddr) {
    match t
    case V4(ip, _) => |ip| == 4
    case V6(ip, _, _, _) => |ip| == 16
    case Domain(name, _) => text.isUtf8(name)
  }

  /** `write_to`: the domain length is cast with `as u8`. */
  function ToBytes(t: TargetAddr): seq<byte> {
    match t
    case V4(ip, port) => [1] + ip + U16Bytes(port)
    case V6(ip, port, _, _) => [4] + ip + U16Bytes(port)
    case Domain(name, port) => [3, |name| % 256] + name + U16Bytes(port)
  }

  function EncodedLen(t: TargetAddr): nat {
    match t
    case V4(_, _) => 7
    case V6(_, _, _, _) => 19
    case Domain(name, _) => 1 + 1 + |name| + 2
  }

  /** The addresses whose encoding loses nothing. */
  predicate Encodable(t: TargetAddr) {
    match t
    case V4(_, _) => true
    case V6(_, _, flowinfo, scopeId) => flowinfo == 0 && scopeId == 0
    case Domain(name, _) => |name| <= 255
  }

  datatype Parsed = Ok(target: TargetAddr) | Err | Panics

  /** `parse_target_from_syn`. A lone domain tag indexes past the end of the slice, which panics. */
  function ParseTarget(text: Text, data: seq<byte>): Parsed {
    if data == [] then Err
    else if data[0] == 1 then
      if |data| < 7 then Err else Ok(V4(data[1..5], U16From(data[5], data[6])))
    else if data[0] == 3 then
      if |data| < 2 then Panics
      else
        var len: nat := data[1];
        if |data| < 2 + len + 2 then Err
        else if !text.isUtf8(data[2..2 + len]) then Err
        else Ok(Domain(data[2..2 + len], U16From(data[2 + len], data[3 + len])))
    else if data[0] == 4 then
      if |data| < 19 then Err else Ok(V6(data[1..17], U16From(data[17], data[18]), 0, 0))
    else Err
  }

  datatype Decoded = Incomplete | Got(target: TargetAddr, len: nat) | Invalid

  function NormalDomain(text: Text, name: seq<byte>, port: u16): TargetAddr {
    match text.ipLiteral(name, port)
    case Some(ip) => ip
    case None => Domain(name, port)
  }

  /** `TargetAddr::decode`; `read_from` reads the same layout from a stream. */
  function Decode(text: Text, buf: seq<byte>): Decoded {
    if buf == [] then Incomplete
    else if buf[0] == 1 then
      if |buf| < 7 then Incomplete else Got(V4(buf[1..5], U16From(buf[5], buf[6])), 7)
    else if buf[0] == 3 then
      if |buf| < 2 then Incomplete
      else
        var len: nat := buf[1];
        if |buf| < 2 + len + 2 then Incomplete
        else
          var name, port := buf[2..2 + len], U16From(buf[2 + len], buf[3 + len]);
          if text.isUtf8(name) then Got(NormalDomain(text, name, port), 2 + len + 2) else Invalid
    else if buf[0] == 4 then
      if |buf| < 19 then Incomplete else Got(V6(buf[1..17], U16From(buf[17], buf[18]), 0, 0), 19)
    else Invalid
  }

  /** An address as a decoder that recognises IP literals reports it. */
  function Normal(text: Text, t: TargetAddr): TargetAddr {
    if t.Domain? then NormalDomain(text, t.name, t.port) else t
  }

  /** Where the fields of an encoding are, whatever follows it. */
  lemma Fields(head: seq<byte>, body: seq<byte>, port: u16, tail: seq<byte>)
    ensures var data := head + body + U16Bytes(port) + tail;
            var at := |head| + |body|;
            && |data| >= at + 2
            && (forall i :: 0 <= i < |head| ==> data[i] == head[i])
            && data[|head|..at] == body
            && U16From(data[at], data[at + 1]) == port
  {
    var data := head + body + U16Bytes(port) + tail;
    assert data[..|head| + |body|] == head + body;
    U16RoundTrip(port);
  }

  /** The server recovers the client's target, whatever follows it in the frame, exactly when the
      encoding loses nothing. */
  lemma TargetRecovered(text: Text, t: TargetAddr, tail: seq<byte>)
    requires WellFormed(text, t)
    ensures ParseTarget(text, ToBytes(t) + tail) == Ok(t) <==> Encodable(t)
    ensures |ToBytes(t)| == EncodedLen(t)
  {
    match t
    case V4(ip, port) => Fields([1], ip, port, tail);
    case V6(ip, port, _, _) => Fields([4], ip, port, tail);
    case Domain(name, port) =>
      Fields([3, |name| % 256], name, port, tail);
      var len: nat := |name| % 256;
      if len < |name| {
        assert |(ToBytes(t) + tail)[2..2 + len]| < |name|;
      }
  }

  /** `parse_target_from_syn` panics on exactly one input. */
  lemma PanicsOnlyOnLoneDomainTag(text: Text, data: seq<byte>)
    ensures ParseTarget(text, data).Panics? <==> data == [3]
  {
  }

  /** `decode` is incremental and self-delimiting: on every proper prefix of an encoding it asks
      for more, and from the whole encoding on it reports the address and its length. */
  lemma DecodeIsIncremental(text: Text, t: TargetAddr, buf: seq<byte>)
    requires WellFormed(text, t) && Encodable(t)
    ensures buf < ToBytes(t) ==> Decode(text, buf) == Incomplete
    ensures ToBytes(t) <= buf ==> Decode(text, buf) == Got(Normal(text, t), EncodedLen(t))
  {
    if ToBytes(t) <= buf {
      DecodeWhole(text, t, buf[|ToBytes(t)|..]);
      assert buf == ToBytes(t) + buf[|ToBytes(t)|..];
    } else if buf < ToBytes(t) {
      DecodePart(text, t, buf);
    }
  }

  lemma DecodeWhole(text: Text, t: TargetAddr, tail: seq<byte>)
    requires WellFormed(text, t) && Encodable(t)
    ensures Decode(text, ToBytes(t) + tail) == Got(Normal(text, t), EncodedLen(t))
  {
    match t
    case V4(ip, port) => Fields([1], ip, port, tail);
    case V6(ip, port, _, _) => Fields([4], ip, port, tail);
    case Domain(name, port) =>
      Fields([3, |name| % 256], name, port, tail);
      var data := ToBytes(t) + tail;
      assert data[2..2 + data[1] as int] == name;
  }

  lemma DecodePart(text: Text, t: TargetAddr, buf: seq<byte>)
    requires WellFormed(text, t) && Encodable(t)
    requires buf < ToBytes(t)
    ensures Decode(text, buf) == Incomplete
  {
    var whole := ToBytes(t);
    assert forall i :: 0 <= i < |buf| ==> buf[i] == whole[i];
  }
}
