/** Record lifetimes through the response cache (src/dns/mod.rs, `apply_ttl_to_response`,
    `cap_record_ttls`, `cached_response`, `exchange_and_store`). */
module DnsTtl {
  import opened Wire
  import opened DnsCaching

  datatype Record = Record(ttl: u32, data: seq<byte>)

  datatype Packet = Packet(id: u16, answers: seq<Record>, servers: seq<Record>, additional: seq<Record>)

  /** The configured limits in whole seconds, as a `Duration` counts them. */
  datatype Limits = Limits(min: Option<u64>, max: Option<u64>)

  /** `as u32`. */
  function Cut(n: u64): u32 {
    n % 0x1_0000_0000
  }

  /** The lower limit first, then the upper one, which wins when they cross. */
  function Clamp(ttl: u32, limits: Limits): u32 {
    var low := if limits.min.Some? && ttl < Cut(limits.min.value) then Cut(limits.min.value) else ttl;
    if limits.max.Some? && low > Cut(limits.max.value) then Cut(limits.max.value) else low
  }

  function Clamped(records: seq<Record>, limits: Limits): (out: seq<Record>)
    ensures |out| == |records|
  {
    if records == [] then [] else [records[0].(ttl := Clamp(records[0].ttl, limits))] + Clamped(records[1..], limits)
  }

  function Capped(records: seq<Record>, cap: u32): (out: seq<Record>)
    ensures |out| == |records|
  {
    if records == [] then [] else [records[0].(ttl := Min(records[0].ttl, cap))] + Capped(records[1..], cap)
  }

  function All(p: Packet): seq<Record> {
    p.answers + p.servers + p.additional
  }

  function MinTtl(records: seq<Record>): Option<u32> {
    if records == [] then None
    else match MinTtl(records[1..])
      case None => Some(records[0].ttl)
      case Some(m) => Some(Min(records[0].ttl, m))
  }

  function Apply(p: Packet, limits: Limits): Packet {
    Packet(p.id, Clamped(p.answers, limits), Clamped(p.servers, limits), Clamped(p.additional, limits))
  }

  function Cap(p: Packet, cap: u32): Packet {
    Packet(p.id, Capped(p.answers, cap), Capped(p.servers, cap), Capped(p.additional, cap))
  }

  // ─── What the loops compute ─────────────────────────────────────────────────

  lemma {:induction false} ClampedAt(records: seq<Record>, limits: Limits, i: nat)
    requires i < |records|
    ensures Clamped(records, limits)[i] == records[i].(ttl := Clamp(records[i].ttl, limits))
  {
    if i > 0 {
      ClampedAt(records[1..], limits, i - 1);
    }
  }

  lemma {:induction false} CappedAt(records: seq<Record>, cap: u32, i: nat)
    requires i < |records|
    ensures Capped(records, cap)[i] == records[i].(ttl := Min(records[i].ttl, cap))
  {
    if i > 0 {
      CappedAt(records[1..], cap, i - 1);
    }
  }

  /** The smallest lifetime over all records: a lower bound that one of them meets. */
  lemma {:induction false} MinTtlIsLeast(records: seq<Record>) returns (at: nat)
    requires records != []
    ensures MinTtl(records).Some? && at < |records| && records[at].ttl == MinTtl(records).value
    ensures forall i :: 0 <= i < |records| ==> MinTtl(records).value <= records[i].ttl
  {
    at := 0;
    if |records| > 1 {
      var j := MinTtlIsLeast(records[1..]);
      if records[1..][j].ttl < records[0].ttl {
        at := j + 1;
      }
      assert forall i :: 1 <= i < |records| ==> records[i] == records[1..][i - 1];
    }
  }

  lemma {:induction false} MinTtlAppend(a: seq<Record>, r: Record)
    ensures MinTtl(a + [r]) == match MinTtl(a) case None => Some(r.ttl) case Some(m) => Some(Min(m, r.ttl))
  {
    if a != [] {
      assert (a + [r])[1..] == a[1..] + [r];
      MinTtlAppend(a[1..], r);
    }
  }

  predicate Within(ttl: int, limits: Limits) {
    (limits.min.Some? ==> limits.min.value <= ttl) && (limits.max.Some? ==> ttl <= limits.max.value)
  }

  /** The configured limits are kept for every lifetime if and only if the lower one, when there is
      one, is within 32 bits and not above what the cast leaves of the upper one. */
  lemma LimitsKeptIff(limits: Limits)
    ensures (forall ttl: u32 :: Within(Clamp(ttl, limits), limits))
            <==> (limits.min.Some? ==>
                    && limits.min.value < 0x1_0000_0000
                    && (limits.max.Some? ==> limits.min.value <= Cut(limits.max.value)))
  {
    if forall ttl: u32 :: Within(Clamp(ttl, limits), limits) {
      assert Within(Clamp(0, limits), limits);
    }
  }

  /** A lifetime already within the configured limits is left alone, whichever it is, if and only if
      the upper limit, when there is one, survives the cast or is cast to the longest lifetime there
      is, or no lifetime reaches the lower limit. */
  lemma InsideUnchangedIff(limits: Limits)
    ensures (forall ttl: u32 :: Within(ttl, limits) ==> Clamp(ttl, limits) == ttl)
            <==> (limits.max.Some? ==>
                    || limits.max.value < 0x1_0000_0000
                    || Cut(limits.max.value) == 0xFFFF_FFFF
                    || (limits.min.Some? && limits.min.value >= 0x1_0000_0000))
  {
    if forall ttl: u32 :: Within(ttl, limits) ==> Clamp(ttl, limits) == ttl {
      assert Within(0xFFFF_FFFF, limits) ==> Clamp(0xFFFF_FFFF, limits) == 0xFFFF_FFFF;
    }
  }

  /** For instance a lower limit of whole multiples of 2^32 seconds is no limit at all. */
  lemma LowerLimitWrapsAround(ttl: u32, k: nat)
    requires k * 0x1_0000_0000 < U64_LIMIT
    ensures Clamp(ttl, Limits(Some(k * 0x1_0000_0000), None)) == ttl
  {
    assert Cut(k * 0x1_0000_0000) == 0 by { MultipleIsZero(k); }
  }

  /** And an upper limit of such a multiple takes every lifetime to 0, whatever the lower one says. */
  lemma UpperLimitWrapsAround(ttl: u32, min: Option<u64>, k: nat)
    requires k * 0x1_0000_0000 < U64_LIMIT
    ensures Clamp(ttl, Limits(min, Some(k * 0x1_0000_0000))) == 0
  {
    assert Cut(k * 0x1_0000_0000) == 0 by { MultipleIsZero(k); }
  }

  lemma MultipleIsZero(k: nat)
    ensures k * 0x1_0000_0000 % 0x1_0000_0000 == 0
  {
  }

  class Response {
    var id: u16
    var answers: seq<Record>
    var servers: seq<Record>
    var additional: seq<Record>

    constructor (p: Packet)
      ensures Value() == p
    {
      id, answers, servers, additional := p.id, p.answers, p.servers, p.additional;
    }

    function Value(): Packet
      reads this
    {
      Packet(id, answers, servers, additional)
    }

    /** One pass over all three sections, rewriting and taking the minimum. */
    method ApplyTtl(limits: Limits) returns (least: Option<u32>)
      modifies this
      ensures Value() == Apply(old(Value()), limits)
      ensures least == MinTtl(All(Value()))
    {
      var a, m0 := ClampSection(answers, limits, [], None);
      assert [] + a == a;
      var s, m1 := ClampSection(servers, limits, a, m0);
      var d, m2 := ClampSection(additional, limits, a + s, m1);
      answers, servers, additional := a, s, d;
      least := m2;
    }

    method CapTtls(cap: u32)
      modifies this
      ensures Value() == Cap(old(Value()), cap)
    {
      answers := CapSection(answers, cap);
      servers := CapSection(servers, cap);
      additional := CapSection(additional, cap);
    }
  }

  method ClampRecord(record: Record, limits: Limits) returns (out: Record)
    ensures out == record.(ttl := Clamp(record.ttl, limits))
  {
    var ttl := record.ttl;
    if limits.min.Some? {
      var minSecs := Cut(limits.min.value);
      if ttl < minSecs {
        ttl := minSecs;
      }
    }
    if limits.max.Some? {
      var maxSecs := Cut(limits.max.value);
      if ttl > maxSecs {
        ttl := maxSecs;
      }
    }
    out := record.(ttl := ttl);
  }

  method ClampSection(records: seq<Record>, limits: Limits, before: seq<Record>, least: Option<u32>)
    returns (out: seq<Record>, least': Option<u32>)
    requires least == MinTtl(before)
    ensures out == Clamped(records, limits) && least' == MinTtl(before + out)
  {
    hide Clamp, MinTtl, Clamped;
    out, least' := [], least;
    assert before + [] == before;
    for i := 0 to |records|
      invariant |out| == i && least' == MinTtl(before + out)
      invariant forall j :: 0 <= j < i ==> out[j] == records[j].(ttl := Clamp(records[j].ttl, limits))
    {
      var record := ClampRecord(records[i], limits);
      MinTtlAppend(before + out, record);
      Assoc(before, out, [record]);
      out := out + [record];
      least' := Some(if least'.Some? then Min(least'.value, record.ttl) else record.ttl);
    }
    forall j | 0 <= j < |records|
      ensures out[j] == Clamped(records, limits)[j]
    {
      ClampedAt(records, limits, j);
    }
    assert out == Clamped(records, limits);
  }

  method CapSection(records: seq<Record>, cap: u32) returns (out: seq<Record>)
    ensures out == Capped(records, cap)
  {
    out := [];
    for i := 0 to |records|
      invariant |out| == i
      invariant forall j :: 0 <= j < i ==> out[j] == records[j].(ttl := Min(records[j].ttl, cap))
    {
      out := out + [records[i].(ttl := if records[i].ttl <= cap then records[i].ttl else cap)];
    }
    forall j | 0 <= j < |records|
      ensures out[j] == Capped(records, cap)[j]
    {
      CappedAt(records, cap, j);
    }
    assert out == Capped(records, cap);
  }

  // ─── Stored, served, never outlived ─────────────────────────────────────────

  /** The wire form of packets, as the parser and builder see it. */
  datatype Codec = Codec(build: Packet -> seq<byte>, parse: seq<byte> -> Option<Packet>)

  ghost predicate Lossless(k: Codec) {
    forall p :: k.parse(k.build(p)) == Some(p) && k.build(p) != []
  }

  /** `exchange_and_store`: what it keeps of an upstream packet, if anything. */
  function Storing(p: Packet, limits: Limits, k: Codec, key: Key): Option<Op> {
    var applied := Apply(p, limits);
    match MinTtl(All(applied))
    case Some(ttl) => if ttl > 0 then Some(SetOp(key, k.build(applied), ttl)) else None
    case None => None
  }

  /** A packet is kept, for the least lifetime of its records, if and only if it has a record and none
      is clamped to nothing. */
  lemma StoredIff(p: Packet, limits: Limits, k: Codec, key: Key)
    ensures Storing(p, limits, k, key).Some?
            <==> All(p) != [] && forall i :: 0 <= i < |All(p)| ==> Clamp(All(p)[i].ttl, limits) > 0
    ensures Storing(p, limits, k, key).Some? ==>
              var op := Storing(p, limits, k, key).value;
              && op.SetOp? && op.key == key && op.response == k.build(Apply(p, limits))
              && Some(op.ttl) == MinTtl(All(Apply(p, limits)))
  {
    hide Clamp, MinTtl;
    var applied := All(Apply(p, limits));
    forall i | 0 <= i < |All(p)|
      ensures |applied| == |All(p)| && applied[i].ttl == Clamp(All(p)[i].ttl, limits)
    {
      ApplyAll(p, limits, i);
    }
    if All(p) == [] {
      assert applied == [];
      assert MinTtl([]) == None by { NoMinTtl(); }
    } else {
      ApplyAll(p, limits, 0);
      var at := MinTtlIsLeast(applied);
      assert applied[at].ttl == Clamp(All(p)[at].ttl, limits);
    }
  }

  lemma NoMinTtl()
    ensures MinTtl([]) == None
  {
  }

  lemma ApplyAll(p: Packet, limits: Limits, i: nat)
    requires i < |All(p)|
    ensures |All(Apply(p, limits))| == |All(p)|
    ensures All(Apply(p, limits))[i] == All(p)[i].(ttl := Clamp(All(p)[i].ttl, limits))
  {
    hide Clamp;
    if i < |p.answers| {
      ClampedAt(p.answers, limits, i);
    } else if i < |p.answers| + |p.servers| {
      ClampedAt(p.servers, limits, i - |p.answers|);
    } else {
      ClampedAt(p.additional, limits, i - |p.answers| - |p.servers|);
    }
  }

  /** `cached_response`: `now` is the second reading of the clock, after the one in `get`. */
  function Serving(e: Entry, k: Codec, id: u16, now: nat): Option<Packet> {
    var remaining := if e.expiry >= now then e.expiry - now else 0;
    match k.parse(e.response)
    case None => None
    case Some(p) => Some(Cap(p.(id := id), Min(remaining, 0xFFFF_FFFF)))
  }

  /** A served packet is the stored one under the asker's id; each of its records lives no longer than
      it was stored with, and ends by the entry's expiry, counted from the reading of the clock that
      found the entry fresh. Counted from the second reading it ends by then exactly when that
      reading has not passed the expiry; and it is shortened no further than to end just then. */
  lemma ServedRecordEndsInTime(e: Entry, k: Codec, p: Packet, id: u16, found: nat, now: nat, i: nat)
    requires Lossless(k) && e.response == k.build(p) && e.expiry > found && found <= now
    requires i < |All(p)|
    ensures Serving(e, k, id, now).Some?
    ensures var q := Serving(e, k, id, now).value;
            && q.id == id && |All(q)| == |All(p)|
            && All(q)[i].data == All(p)[i].data && All(q)[i].ttl <= All(p)[i].ttl
            && found + All(q)[i].ttl <= e.expiry
            && (now + All(q)[i].ttl <= e.expiry <==> now <= e.expiry)
            && (All(q)[i].ttl == All(p)[i].ttl || now + All(q)[i].ttl == Max(now, e.expiry))
  {
    var cap := Min(if e.expiry >= now then e.expiry - now else 0, 0xFFFF_FFFF);
    CapAll(p.(id := id), cap, i);
    assert All(p.(id := id)) == All(p);
  }

  lemma CapAll(p: Packet, cap: u32, i: nat)
    requires i < |All(p)|
    ensures |All(Cap(p, cap))| == |All(p)| && All(Cap(p, cap))[i] == All(p)[i].(ttl := Min(All(p)[i].ttl, cap))
  {
    if i < |p.answers| {
      CappedAt(p.answers, cap, i);
    } else if i < |p.answers| + |p.servers| {
      CappedAt(p.servers, cap, i - |p.answers|);
    } else {
      CappedAt(p.additional, cap, i - |p.answers| - |p.servers|);
    }
  }

  /** A packet stored by `exchange_and_store`. */
  ghost predicate FromUpstream(op: Op, k: Codec) {
    op.SetOp? ==> exists p, limits :: Storing(p, limits, k, op.key) == Some(op)
  }

  /** End to end: in any run of the cache fed by `exchange_and_store`, a record served from it ends no
      later than its packet was stored plus the smallest clamped lifetime over the packet's three
      sections, which no record of the stored packet undercuts. */
  lemma ServedWithinClampedTtl(calls: seq<Call>, start: nat, i: nat, k: Codec, id: u16, now: nat, r: nat)
    returns (j: nat, p: Packet, limits: Limits)
    requires Lossless(k) && Orderly(calls, start) && i < |calls| && calls[i].op.GetOp? && calls[i].now <= now
    requires forall n :: 0 <= n < |calls| ==> FromUpstream(calls[n].op, k)
    requires |Answers(EMPTY, calls, start).0| == |calls| && Answers(EMPTY, calls, start).0[i].Some?
    requires var q := Serving(Answers(EMPTY, calls, start).0[i].value, k, id, now); q.Some? && r < |All(q.value)|
    ensures j < i && Storing(p, limits, k, calls[i].op.key) == Some(calls[j].op)
    ensures var q := Serving(Answers(EMPTY, calls, start).0[i].value, k, id, now).value;
            var stored := All(Apply(p, limits));
            && q.id == id && |All(q)| == |stored| && MinTtl(stored).Some?
            && All(q)[r].data == stored[r].data
            && calls[i].now + All(q)[r].ttl <= calls[j].now + MinTtl(stored).value
            && MinTtl(stored).value <= stored[r].ttl
            && (All(q)[r].ttl == stored[r].ttl
                || now + All(q)[r].ttl == Max(now, calls[j].now + MinTtl(stored).value))
  {
    hide Apply, MinTtl, All, Cap, Answers;
    j := GetReturnsLastSet(calls, start, i);
    assert FromUpstream(calls[j].op, k);
    p, limits :| Storing(p, limits, k, calls[j].op.key) == Some(calls[j].op);
    var e := Answers(EMPTY, calls, start).0[i].value;
    var applied := Apply(p, limits);
    ServedShape(e, k, applied, id, now);
    ServedRecordEndsInTime(e, k, applied, id, calls[i].now, now, r);
    var _ := MinTtlIsLeast(All(applied));
  }

  lemma ServedShape(e: Entry, k: Codec, p: Packet, id: u16, now: nat)
    requires Lossless(k) && e.response == k.build(p)
    ensures Serving(e, k, id, now).Some? && |All(Serving(e, k, id, now).value)| == |All(p)|
  {
    var cap := Min(if e.expiry >= now then e.expiry - now else 0, 0xFFFF_FFFF);
    var q := Cap(p.(id := id), cap);
    assert |All(q)| == |All(p)|;
  }
}
