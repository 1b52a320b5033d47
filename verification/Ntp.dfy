/** NTP timestamps and the clock offset (src/utils/ntp.rs; sections 6 and 8 of RFC 5905, and the era
    rule of section 3 of RFC 4330). Times are Unix nanoseconds. */
module Ntp {
  import opened Wire

  const NTP_PACKET_LEN := 48
  const NTP_UNIX_EPOCH_DELTA := 2_208_988_800
  const NANOS := 1_000_000_000
  const ERA := 0x1_0000_0000
  /** 5^9: the only factor that a binary fraction of a second cannot hold. */
  const FIVES := 1_953_125
  /** The first Unix second that the era rule reads back wrongly. */
  const LAST_SECOND := 4_233_462_144

  type i64 = x: int | -0x8000_0000_0000_0000 <= x < 0x8000_0000_0000_0000

  // ─── Timestamps ─────────────────────────────────────────────────────────────

  /** A time before 1970 counts as 1970; the seconds are cut to 32 bits, the fraction rounded down. */
  function ToNtp(time: int): u64 {
    var t := if time >= 0 then time else 0;
    var secs := (t / NANOS + NTP_UNIX_EPOCH_DELTA) % ERA;
    secs * ERA + t % NANOS * ERA / NANOS
  }

  /** Seconds with the top bit clear belong to the era after 2036. */
  function FromNtp(stamp: u64): int {
    var secs := stamp / ERA;
    var era := if secs < 0x8000_0000 then secs + ERA else secs;
    (era - NTP_UNIX_EPOCH_DELTA) * NANOS + stamp % ERA * NANOS / ERA
  }

  function Fraction(nanos: nat): (frac: nat)
    requires nanos < NANOS
    ensures frac < ERA
  {
    nanos * ERA / NANOS
  }

  /** Rounding the fraction down twice loses one nanosecond unless nothing was rounded. */
  lemma FractionLoss(nanos: nat)
    requires nanos < NANOS
    ensures Fraction(nanos) * NANOS / ERA == if nanos * ERA % NANOS == 0 then nanos else nanos - 1
  {
  }

  lemma ExactFraction(nanos: nat)
    requires nanos < NANOS
    ensures nanos * ERA % NANOS == 0 <==> nanos % FIVES == 0
  {
    if nanos * ERA % NANOS == 0 {
      ExactIsMultiple(nanos, nanos * ERA / NANOS);
    }
    if nanos % FIVES == 0 {
      MultipleIsExact(nanos / FIVES);
    }
  }

  /** 2^23 has the inverse 1241897 modulo 5^9. */
  lemma ExactIsMultiple(nanos: nat, q: nat)
    requires nanos * ERA == q * NANOS
    ensures nanos % FIVES == 0
  {
    assert nanos * 0x80_0000 == q * FIVES;
    var k := 1_241_897 * q - 5_333_907 * nanos;
    assert nanos == FIVES * k;
    MultipleHasNoRest(k);
  }

  lemma MultipleHasNoRest(k: int)
    ensures FIVES * k % FIVES == 0
  {
  }

  lemma MultipleIsExact(k: nat)
    ensures k * FIVES * ERA % NANOS == 0
  {
    assert k * FIVES * ERA == NANOS * (k * 0x80_0000);
  }

  /** The round trip loses 0 or 1 ns of every time whose second is in reach of the era rule, exactly
      none when the nanoseconds are a multiple of 5^9; and it keeps the second if and only if it is in
      reach. */
  lemma RoundTrip(time: nat)
    ensures var back := FromNtp(ToNtp(time));
            && (time / NANOS < LAST_SECOND ==>
                  back == if time % NANOS % FIVES == 0 then time else time - 1)
            && (time / NANOS >= LAST_SECOND ==> back < time - 1)
  {
    var secs, nanos := time / NANOS, time % NANOS;
    var wrapped := (secs + NTP_UNIX_EPOCH_DELTA) % ERA;
    StampParts(wrapped, Fraction(nanos));
    FractionLoss(nanos);
    ExactFraction(nanos);
    EraRule(secs);
  }

  lemma StampParts(secs: u32, frac: u32)
    ensures (secs * ERA + frac) / ERA == secs && (secs * ERA + frac) % ERA == frac
  {
  }

  /** The second read back is the one written if it is in reach, and at least an era earlier if not. */
  lemma EraRule(secs: nat)
    ensures var wrapped := (secs + NTP_UNIX_EPOCH_DELTA) % ERA;
            var back := (if wrapped < 0x8000_0000 then wrapped + ERA else wrapped) - NTP_UNIX_EPOCH_DELTA;
            && (secs < LAST_SECOND ==> back == secs)
            && (secs >= LAST_SECOND ==> back <= secs - ERA)
  {
  }

  // ─── The response ───────────────────────────────────────────────────────────

  datatype Fault = TooShort | NotServerMode | Unsynchronized | BadStratum | OriginMismatch | OutOfRange

  datatype Answer = Offset(nanos: i64) | Bad(fault: Fault)

  /** Division toward zero. */
  function Half(n: int): int {
    if n >= 0 then n / 2 else -(-n / 2)
  }

  function ParseResponse(request: seq<byte>, response: seq<byte>, t1: int, t4: int): Answer
    requires |request| == NTP_PACKET_LEN
  {
    if |response| < NTP_PACKET_LEN then Bad(TooShort)
    else if response[0] % 8 != 4 then Bad(NotServerMode)
    else if response[0] / 64 == 3 then Bad(Unsynchronized)
    else if !(1 <= response[1] < 16) then Bad(BadStratum)
    else if response[24..32] != request[40..48] then Bad(OriginMismatch)
    else
      var t2 := FromNtp(U64From(response[32..40]));
      var t3 := FromNtp(U64From(response[40..48]));
      var offset := Half((t2 - t1) + (t3 - t4));
      if -0x8000_0000_0000_0000 <= offset < 0x8000_0000_0000_0000 then Offset(offset) else Bad(OutOfRange)
  }

  /** `build_request`. */
  function BuildRequest(transmit: int): (packet: seq<byte>)
    ensures |packet| == NTP_PACKET_LEN
  {
    [0x23] + Zeros(39) + U64Bytes(ToNtp(transmit))
  }

  /** What a well-behaved server sends back: it copies the client's stamp and adds its own two. */
  function ServerReply(request: seq<byte>, first: byte, stratum: byte, received: int, sent: int): (packet: seq<byte>)
    requires |request| == NTP_PACKET_LEN
    ensures |packet| == NTP_PACKET_LEN
  {
    [first, stratum] + Zeros(22) + request[40..48] + U64Bytes(ToNtp(received)) + U64Bytes(ToNtp(sent))
  }

  lemma ReplyFields(request: seq<byte>, first: byte, stratum: byte, received: int, sent: int)
    requires |request| == NTP_PACKET_LEN
    ensures var p := ServerReply(request, first, stratum, received, sent);
            && p[0] == first && p[1] == stratum && p[24..32] == request[40..48]
            && U64From(p[32..40]) == ToNtp(received) && U64From(p[40..48]) == ToNtp(sent)
  {
    hide U64Bytes, U64From, ToNtp, Zeros;
    var p := ServerReply(request, first, stratum, received, sent);
    assert p[32..40] == U64Bytes(ToNtp(received)) && p[40..48] == U64Bytes(ToNtp(sent));
    U64RoundTrip(ToNtp(received));
    U64RoundTrip(ToNtp(sent));
  }

  /** The computed offset differs from the true one by at most half the total network delay plus 1.5
      ns, which is under 2 ns more: with symmetric delays it is off by no more than the rounding. `theta`
      is what the server's clock is ahead; the delays of request and reply are any non-negative times. */
  lemma OffsetError(t1: int, theta: int, out: nat, hold: nat, back: nat, first: byte, stratum: byte)
    requires first % 8 == 4 && first / 64 != 3 && 1 <= stratum < 16
    requires 0 <= t1 + out + theta && t1 + out + theta + hold < LAST_SECOND * NANOS
    requires -0x4000_0000_0000_0000 <= theta < 0x4000_0000_0000_0000 && out + back < 0x4000_0000_0000_0000
    ensures var request := BuildRequest(t1);
            var response := ServerReply(request, first, stratum, t1 + out + theta, t1 + out + theta + hold);
            var answer := ParseResponse(request, response, t1, t1 + out + hold + back);
            && answer.Offset?
            && 2 * (answer.nanos - theta) <= out + back + 3 && 2 * (theta - answer.nanos) <= out + back + 3
            && 2 * (answer.nanos - theta) <= (if out >= back then out - back else back - out) + 3
            && 2 * (theta - answer.nanos) <= (if out >= back then out - back else back - out) + 3
  {
    hide FromNtp, ToNtp, ServerReply, BuildRequest, U64From;
    var received, sent := t1 + out + theta, t1 + out + theta + hold;
    ReplyFields(BuildRequest(t1), first, stratum, received, sent);
    RoundTrip(received);
    RoundTrip(sent);
  }

  /** A reply is taken if and only if it is long enough, in server mode, synchronized, of a stratum
      from 1 to 15, an echo of the request's stamp, and of an offset in range. */
  lemma AcceptedIff(request: seq<byte>, response: seq<byte>, t1: int, t4: int)
    requires |request| == NTP_PACKET_LEN
    ensures ParseResponse(request, response, t1, t4).Offset? <==>
              && |response| >= NTP_PACKET_LEN
              && response[0] % 8 == 4 && response[0] / 64 < 3 && 1 <= response[1] <= 15
              && response[24..32] == request[40..48]
              && var sum := FromNtp(U64From(response[32..40])) + FromNtp(U64From(response[40..48])) - t1 - t4;
                 -0x1_0000_0000_0000_0002 < sum < 0x1_0000_0000_0000_0000
  {
    hide FromNtp, U64From;
  }
}
