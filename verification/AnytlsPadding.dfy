/** Padding of the client's upload (src/proxy/outbound/anytls.rs, `PaddingScheme` and
    `write_with_padding`): payload is split into records of drawn sizes and topped up with WASTE. */
module AnytlsPadding {
  import opened Wire
  import opened AnytlsFrames

  const CHECK_MARK := -1

  datatype Entry = Fixed(size: nat) | Range(min: nat, max: nat) | CheckMark

  datatype Scheme = Scheme(stopAt: u32, policies: map<u32, seq<Entry>>)

  predicate Draws(e: Entry, size: int) {
    match e
    case Fixed(v) => size == v
    case Range(min, max) => min <= size <= max
    case CheckMark => size == CHECK_MARK
  }

  /** The size lists `generate_record_payload_sizes` may return for packet `pkt`. */
  predicate Drawn(scheme: Scheme, pkt: u32, sizes: seq<int>) {
    if pkt in scheme.policies then
      && |sizes| == |scheme.policies[pkt]|
      && forall i :: 0 <= i < |sizes| ==> Draws(scheme.policies[pkt][i], sizes[i])
    else sizes == []
  }

  /** Every size a scheme can draw fits the length field it is cast to. */
  predicate FitsU16(scheme: Scheme) {
    forall pkt :: pkt in scheme.policies ==>
      forall i :: 0 <= i < |scheme.policies[pkt]| ==>
        match scheme.policies[pkt][i]
        case Fixed(v) => v <= 0xFFFF
        case Range(_, max) => max <= 0xFFFF
        case CheckMark => true
  }

  predicate SizesOk(sizes: seq<int>) {
    forall i :: 0 <= i < |sizes| ==> CHECK_MARK <= sizes[i] <= 0xFFFF
  }

  /** A WASTE record of `len` zero bytes; the header says `len as u16`. */
  function Waste(len: nat): seq<byte> {
    Header(Command.Waste, 0, len % 0x1_0000) + Zeros(len)
  }

  /** The records written for `remaining`, in order: what each drawn size turns into. */
  function Records(remaining: seq<byte>, sizes: seq<int>): seq<seq<byte>>
    requires forall i :: 0 <= i < |sizes| ==> CHECK_MARK <= sizes[i]
    decreases |sizes|
  {
    if sizes == [] then (if remaining == [] then [] else [remaining])
    else if sizes[0] == CHECK_MARK then
      if remaining == [] then [] else Records(remaining, sizes[1..])
    else
      var target: nat := sizes[0];
      if |remaining| > target then [remaining[..target]] + Records(remaining[target..], sizes[1..])
      else if |remaining| > 0 then
        (if target > |remaining| + FRAME_HEADER_SIZE
         then [remaining, Waste(target - |remaining| - FRAME_HEADER_SIZE)] else [remaining])
        + Records([], sizes[1..])
      else [Waste(target)] + Records([], sizes[1..])
  }

  /** The payload lengths of the WASTE records among them. */
  function WasteLengths(remaining: nat, sizes: seq<int>): seq<nat>
    requires forall i :: 0 <= i < |sizes| ==> CHECK_MARK <= sizes[i]
    decreases |sizes|
  {
    if sizes == [] then []
    else if sizes[0] == CHECK_MARK then
      if remaining == 0 then [] else WasteLengths(remaining, sizes[1..])
    else
      var target: nat := sizes[0];
      if remaining > target then WasteLengths(remaining - target, sizes[1..])
      else if remaining > 0 then
        (if target > remaining + FRAME_HEADER_SIZE then [target - remaining - FRAME_HEADER_SIZE] else [])
        + WasteLengths(0, sizes[1..])
      else [target] + WasteLengths(0, sizes[1..])
  }

  function WasteAll(lens: seq<nat>): seq<byte> {
    if lens == [] then [] else Waste(lens[0]) + WasteAll(lens[1..])
  }

  function WasteFrames(lens: seq<nat>): seq<Frame> {
    if lens == [] then [] else [Frame(Command.Waste, 0, Zeros(lens[0]))] + WasteFrames(lens[1..])
  }

  lemma RecordsUnfold(first: seq<seq<byte>>, rest: seq<seq<byte>>)
    ensures Flatten(first + rest) == Flatten(first) + Flatten(rest)
    ensures |first| == 1 ==> Flatten(first) == first[0]
    ensures |first| == 2 ==> Flatten(first) == first[0] + first[1]
  {
    FlattenAppend(first, rest);
    if |first| == 2 {
      assert first[1..] == [first[1]];
      assert Flatten(first[1..]) == first[1] + Flatten(first[1..][1..]);
    }
  }

  /** Whatever the sizes, the bytes written are the buffer, whole and in order, followed by WASTE
      records only. */
  lemma {:induction false} PayloadThenWaste(data: seq<byte>, sizes: seq<int>)
    requires forall i :: 0 <= i < |sizes| ==> CHECK_MARK <= sizes[i]
    ensures Flatten(Records(data, sizes)) == data + WasteAll(WasteLengths(|data|, sizes))
    decreases |sizes|
  {
    hide Waste, WasteAll, Flatten;
    if sizes == [] {
      EmptyWaste(data);
    } else if sizes[0] == CHECK_MARK {
      if data == [] {
        EmptyWaste(data);
      } else {
        PayloadThenWaste(data, sizes[1..]);
      }
    } else if |data| > sizes[0] {
      var target: nat := sizes[0];
      PayloadThenWaste(data[target..], sizes[1..]);
      RecordsUnfold([data[..target]], Records(data[target..], sizes[1..]));
      Split(data, target);
      Assoc(data[..target], data[target..], WasteAll(WasteLengths(|data| - target, sizes[1..])));
    } else {
      PayloadThenWaste([], sizes[1..]);
      LastPayload(data, sizes[0], Records([], sizes[1..]), WasteLengths(0, sizes[1..]));
    }
  }

  lemma EmptyWaste(data: seq<byte>)
    ensures Flatten(if data == [] then [] else [data]) == data + WasteAll([])
  {
    assert data + [] == data;
  }

  /** The record the payload ends in, and those after it. */
  lemma LastPayload(data: seq<byte>, target: nat, records: seq<seq<byte>>, lens: seq<nat>)
    requires |data| <= target
    requires Flatten(records) == [] + WasteAll(lens)
    ensures data == [] ==> Flatten([Waste(target)] + records) == data + WasteAll([target] + lens)
    ensures data != [] && target > |data| + FRAME_HEADER_SIZE ==>
              var len := target - |data| - FRAME_HEADER_SIZE;
              Flatten([data, Waste(len)] + records) == data + WasteAll([len] + lens)
    ensures data != [] && target <= |data| + FRAME_HEADER_SIZE ==>
              Flatten([data] + records) == data + WasteAll([] + lens)
  {
    hide Waste;
    var more := WasteAll(lens);
    assert [] + more == more;
    if data == [] {
      RecordsUnfold([Waste(target)], records);
      assert ([target] + lens)[1..] == lens;
      assert data + WasteAll([target] + lens) == WasteAll([target] + lens);
    } else if target > |data| + FRAME_HEADER_SIZE {
      var len := target - |data| - FRAME_HEADER_SIZE;
      RecordsUnfold([data, Waste(len)], records);
      assert ([len] + lens)[1..] == lens;
      Assoc(data, Waste(len), more);
    } else {
      RecordsUnfold([data], records);
      assert [] + lens == lens;
    }
  }

  function Sum(sizes: seq<int>): int {
    if sizes == [] then 0 else Sum(sizes[..|sizes| - 1]) + sizes[|sizes| - 1]
  }

  lemma {:induction false} SumFront(sizes: seq<int>)
    requires sizes != []
    ensures Sum(sizes) == sizes[0] + Sum(sizes[1..])
    decreases |sizes|
  {
    if |sizes| > 1 {
      var m := |sizes| - 1;
      SumFront(sizes[..m]);
      assert sizes[1..][..m - 1] == sizes[..m][1..] && sizes[1..][m - 1] == sizes[m];
    } else {
      assert sizes[..0] == [] && sizes[1..] == [];
    }
  }

  predicate Proper(sizes: seq<int>) {
    forall j :: 0 <= j < |sizes| ==> sizes[j] >= 0
  }

  /** Padding does cut the payload up: as long as the buffer outlasts the sizes drawn, the i-th record is
      exactly as long as the i-th size says, and is the payload at that place. */
  lemma {:induction false} RecordsAreCutToSize(data: seq<byte>, sizes: seq<int>, i: nat)
    requires i < |sizes| && Proper(sizes[..i + 1]) && |data| > Sum(sizes[..i + 1])
    requires forall j :: 0 <= j < |sizes| ==> CHECK_MARK <= sizes[j]
    ensures 0 <= Sum(sizes[..i]) <= Sum(sizes[..i + 1])
    ensures i < |Records(data, sizes)|
    ensures Records(data, sizes)[i] == data[Sum(sizes[..i])..Sum(sizes[..i + 1])]
    decreases i
  {
    var upTo := sizes[..i + 1];
    SumFront(upTo);
    assert upTo[..i] == sizes[..i] && upTo[0] == sizes[0] >= 0;
    assert upTo[1..] == sizes[1..][..i];
    SumNonNegative(upTo[1..]);
    assert Records(data, sizes) == [data[..sizes[0]]] + Records(data[sizes[0]..], sizes[1..]);
    if i > 0 {
      var front := sizes[..i];
      SumFront(front);
      assert front[0] == sizes[0] && front[1..] == sizes[1..][..i - 1];
      assert Proper(sizes[1..][..i]) by {
        assert forall j :: 0 <= j < i ==> sizes[1..][..i][j] == upTo[j + 1];
      }
      RecordsAreCutToSize(data[sizes[0]..], sizes[1..], i - 1);
      assert Records(data, sizes)[i] == Records(data[sizes[0]..], sizes[1..])[i - 1];
    } else {
      assert sizes[..0] == [] && upTo[1..] == [];
    }
  }

  lemma {:induction false} SumNonNegative(sizes: seq<int>)
    requires Proper(sizes)
    ensures Sum(sizes) >= 0
  {
    if sizes != [] {
      SumNonNegative(sizes[..|sizes| - 1]);
    }
  }

  /** And it pads: once the payload is used up, and up to the first check mark, every size is filled with
      a WASTE record of that much payload; the size the payload ends in is topped up to exactly that
      size when a header still fits. */
  lemma {:induction false} EverySizeIsFilled(sizes: seq<int>)
    requires Proper(sizes)
    ensures |Records([], sizes)| == |sizes|
    ensures forall i :: 0 <= i < |sizes| ==> Records([], sizes)[i] == Waste(sizes[i])
    decreases |sizes|
  {
    if sizes != [] {
      assert Proper(sizes[1..]) by {
        assert forall j :: 0 <= j < |sizes| - 1 ==> sizes[1..][j] == sizes[j + 1];
      }
      EverySizeIsFilled(sizes[1..]);
      assert forall i :: 1 <= i < |sizes| ==> sizes[i] == sizes[1..][i - 1];
    }
  }

  lemma LastIsToppedUp(data: seq<byte>, sizes: seq<int>)
    requires forall i :: 0 <= i < |sizes| ==> CHECK_MARK <= sizes[i]
    requires sizes != [] && 0 < |data| && |data| + FRAME_HEADER_SIZE < sizes[0]
    ensures var records := Records(data, sizes);
            |records| >= 2 && records[0] == data && |records[0]| + |records[1]| == sizes[0]
            && records[2..] == Records([], sizes[1..])
  {
    var len := sizes[0] - |data| - FRAME_HEADER_SIZE;
    assert Records(data, sizes) == [data, Waste(len)] + Records([], sizes[1..]);
    assert |Waste(len)| == FRAME_HEADER_SIZE + len;
  }

  /** A check mark ends the padding of a write whose payload is used up, and is nothing before that. */
  lemma CheckMarkEnds(data: seq<byte>, sizes: seq<int>)
    requires forall i :: 0 <= i < |sizes| ==> CHECK_MARK <= sizes[i]
    requires sizes != [] && sizes[0] == CHECK_MARK
    ensures data == [] ==> Records(data, sizes) == []
    ensures data != [] ==> Records(data, sizes) == Records(data, sizes[1..])
  {
  }

  lemma {:induction false} WasteLengthsUnder(remaining: nat, sizes: seq<int>, bound: int)
    requires forall i :: 0 <= i < |sizes| ==> CHECK_MARK <= sizes[i] < bound
    ensures forall i :: 0 <= i < |WasteLengths(remaining, sizes)| ==> WasteLengths(remaining, sizes)[i] < bound
    decreases |sizes|
  {
    if sizes != [] {
      if sizes[0] == CHECK_MARK {
        WasteLengthsUnder(remaining, sizes[1..], bound);
      } else if remaining > sizes[0] {
        WasteLengthsUnder(remaining - sizes[0], sizes[1..], bound);
      } else {
        WasteLengthsUnder(0, sizes[1..], bound);
      }
    }
  }

  lemma {:induction false} WasteLengthsFit(remaining: nat, sizes: seq<int>)
    requires SizesOk(sizes)
    ensures forall i :: 0 <= i < |WasteLengths(remaining, sizes)| ==> WasteLengths(remaining, sizes)[i] <= 0xFFFF
  {
    WasteLengthsUnder(remaining, sizes, 0x1_0000);
  }

  lemma {:induction false} WasteFramesAre(lens: seq<nat>)
    ensures |WasteFrames(lens)| == |lens|
    ensures forall i :: 0 <= i < |lens| ==> WasteFrames(lens)[i] == Frame(Command.Waste, 0, Zeros(lens[i]))
  {
    hide Zeros;
    if lens != [] {
      WasteFramesAre(lens[1..]);
    }
  }

  lemma {:induction false} WasteIsFrames(lens: seq<nat>)
    requires forall i :: 0 <= i < |lens| ==> lens[i] <= 0xFFFF
    ensures AllFit(WasteFrames(lens))
    ensures WasteAll(lens) == EncodeAll(WasteFrames(lens))
  {
    hide Zeros, Header;
    if lens != [] {
      WasteIsFrames(lens[1..]);
      var f := Frame(Command.Waste, 0, Zeros(lens[0]));
      EncodeAllCons(f, WasteFrames(lens[1..]));
      assert Waste(lens[0]) == Encode(f);
    }
  }

  /** What a receiver keeps: everything but WASTE. */
  function Real(fs: seq<Frame>): seq<Frame> {
    if fs == [] then []
    else
      var last := fs[|fs| - 1];
      Real(fs[..|fs| - 1]) + if last.cmd == Command.Waste then [] else [last]
  }

  lemma {:induction false} RealAppend(a: seq<Frame>, b: seq<Frame>)
    ensures Real(a + b) == Real(a) + Real(b)
  {
    if b == [] {
      assert a + b == a;
      assert Real(a) + [] == Real(a);
    } else {
      var last := b[|b| - 1];
      var init := b[..|b| - 1];
      RealAppend(a, init);
      assert (a + b)[..|a + b| - 1] == a + init;
      Assoc(Real(a), Real(init), if last.cmd == Command.Waste then [] else [last]);
    }
  }

  lemma {:induction false} RealOfWaste(fs: seq<Frame>)
    requires forall i :: 0 <= i < |fs| ==> fs[i].cmd == Command.Waste
    ensures Real(fs) == []
  {
    if fs != [] {
      RealOfWaste(fs[..|fs| - 1]);
    }
  }

  lemma {:induction false} RealOfReal(fs: seq<Frame>)
    requires forall i :: 0 <= i < |fs| ==> fs[i].cmd != Command.Waste
    ensures Real(fs) == fs
  {
    if fs != [] {
      var init, last := fs[..|fs| - 1], fs[|fs| - 1];
      RealOfReal(init);
      Split(fs, |fs| - 1);
      assert fs[|fs| - 1..] == [last];
      assert Real(fs) == Real(init) + [last];
    }
  }

  /** For sizes in the u16 range padding is invisible: the records hold whole frames, and dropping
      WASTE gives back exactly the frames of the buffer. */
  lemma PaddingInvisible(fs: seq<Frame>, sizes: seq<int>)
    requires AllFit(fs) && SizesOk(sizes)
    requires forall i :: 0 <= i < |fs| ==> fs[i].cmd != Command.Waste
    ensures var lens := WasteLengths(|EncodeAll(fs)|, sizes);
            var written := Flatten(Records(EncodeAll(fs), sizes));
            && AllFit(fs + WasteFrames(lens))
            && written == EncodeAll(fs + WasteFrames(lens))
            && ParseAll(written) == (fs + WasteFrames(lens), [])
            && Real(ParseAll(written).0) == fs
  {
    var lens := WasteLengths(|EncodeAll(fs)|, sizes);
    PayloadThenWaste(EncodeAll(fs), sizes);
    WasteLengthsFit(|EncodeAll(fs)|, sizes);
    WasteFramesAre(lens);
    WasteIsFrames(lens);
    EncodeAllAppend(fs, WasteFrames(lens));
    ParseWhole(fs + WasteFrames(lens));
    RealAppend(fs, WasteFrames(lens));
    RealOfReal(fs);
    RealOfWaste(WasteFrames(lens));
    assert fs + [] == fs;
  }

  lemma SchemeDrawsFit(scheme: Scheme, pkt: u32, sizes: seq<int>)
    requires FitsU16(scheme) && Drawn(scheme, pkt, sizes)
    ensures SizesOk(sizes)
  {
    if pkt in scheme.policies {
      forall i | 0 <= i < |sizes| ensures CHECK_MARK <= sizes[i] <= 0xFFFF {
        assert Draws(scheme.policies[pkt][i], sizes[i]);
      }
    }
  }

  // ─── Beyond the u16 range ───────────────────────────────────────────────────

  lemma TooShort(buf: seq<byte>)
    requires |buf| < FRAME_HEADER_SIZE
    ensures ParseFrame(buf) == More
  {
  }

  lemma ZeroFrame(n: nat)
    requires n >= FRAME_HEADER_SIZE
    ensures ParseFrame(Zeros(n)) == Got(Frame(Command.Waste, 0, []), Zeros(n - FRAME_HEADER_SIZE))
  {
    hide Zeros, ParseFrame;
    var f := Frame(Command.Waste, 0, []);
    assert Encode(f) == Zeros(FRAME_HEADER_SIZE);
    ZerosAdd(FRAME_HEADER_SIZE, n - FRAME_HEADER_SIZE);
    ParseEncode(f, Zeros(n - FRAME_HEADER_SIZE));
  }

  lemma {:induction false} ZerosParse(n: nat)
    ensures ParseAll(Zeros(n)).1 == Zeros(n % FRAME_HEADER_SIZE)
    ensures Real(ParseAll(Zeros(n)).0) == []
  {
    hide Zeros, ParseFrame;
    if n < FRAME_HEADER_SIZE {
      TooShort(Zeros(n));
    } else {
      var f := Frame(Command.Waste, 0, []);
      var rest := Zeros(n - FRAME_HEADER_SIZE);
      ZeroFrame(n);
      ZerosParse(n - FRAME_HEADER_SIZE);
      ParseAllStep(Zeros(n), f, rest);
      RealAppend([f], ParseAll(rest).0);
      RealOfWaste([f]);
    }
  }

  lemma WasteParse(len: nat)
    ensures var said := len % 0x1_0000;
            var f := Frame(Command.Waste, 0, Zeros(said));
            ParseAll(Waste(len)) == ([f] + ParseAll(Zeros(len - said)).0, ParseAll(Zeros(len - said)).1)
  {
    hide ParseAll, ParseFrame;
    var said := len % 0x1_0000;
    var f := Frame(Command.Waste, 0, Zeros(said));
    ZerosAdd(said, len - said);
    Assoc(Header(Command.Waste, 0, said), Zeros(said), Zeros(len - said));
    ParseEncode(f, Zeros(len - said));
    ParseAllStep(Waste(len), f, Zeros(len - said));
  }

  predicate Aligned(len: nat) {
    len / 0x1_0000 % FRAME_HEADER_SIZE == 0
  }

  /** A size past 65535 makes the header lie about the length. The receiver then reads the excess
      zeros as empty WASTE frames, and stays in step with the sender exactly when the 65536-byte
      excesses divide by the header size; for sizes under 458752 that means no excess at all. */
  lemma OversizedWaste(len: nat)
    ensures ParseAll(Waste(len)).1 == [] <==> Aligned(len)
    ensures len < 0x7_0000 ==> (Aligned(len) <==> len <= 0xFFFF)
    ensures Real(ParseAll(Waste(len)).0) == []
  {
    hide ParseAll, Waste;
    var q := len / 0x1_0000;
    WasteParse(len);
    assert len - len % 0x1_0000 == 0x1_0000 * q;
    ZerosParse(0x1_0000 * q);
    var f := Frame(Command.Waste, 0, Zeros(len % 0x1_0000));
    RealAppend([f], ParseAll(Zeros(0x1_0000 * q)).0);
    RealOfWaste([f]);
    ExcessModulo(q);
    assert |Zeros(0x1_0000 * q % FRAME_HEADER_SIZE)| == 0x1_0000 * q % FRAME_HEADER_SIZE;
  }

  /** The receiver has nothing left over after the buffer, nor after any of the WASTE records. */
  ghost predicate InStep(written: seq<byte>, lens: seq<nat>) {
    forall i: nat :: i <= |lens| ==> ParseAll(written + WasteAll(lens[..i])).1 == []
  }

  lemma {:induction false} WasteAllAppend(a: seq<nat>, len: nat)
    ensures WasteAll(a + [len]) == WasteAll(a) + Waste(len)
  {
    hide Waste;
    if a == [] {
      assert [] + [len] == [len] && [len][1..] == [];
      assert WasteAll([len]) == Waste(len) + WasteAll([]);
    } else {
      assert (a + [len])[0] == a[0] && (a + [len])[1..] == a[1..] + [len];
      WasteAllAppend(a[1..], len);
      Assoc(Waste(a[0]), WasteAll(a[1..]), Waste(len));
    }
  }

  /** One more WASTE record, seen by a receiver in step. */
  lemma NextWaste(written: seq<byte>, lens: seq<nat>, i: nat)
    requires i < |lens| && ParseAll(written + WasteAll(lens[..i])).1 == []
    ensures var before := ParseAll(written + WasteAll(lens[..i]));
            var after := ParseAll(written + WasteAll(lens[..i + 1]));
            (after.1 == [] <==> Aligned(lens[i])) && Real(after.0) == Real(before.0)
  {
    hide ParseAll, Waste, WasteAll, Aligned, Real;
    var before := written + WasteAll(lens[..i]);
    assert lens[..i + 1] == lens[..i] + [lens[i]];
    WasteAllAppend(lens[..i], lens[i]);
    Assoc(written, WasteAll(lens[..i]), Waste(lens[i]));
    ParseAllSplit(before, Waste(lens[i]));
    assert [] + Waste(lens[i]) == Waste(lens[i]);
    OversizedWaste(lens[i]);
    RealAppend(ParseAll(before).0, ParseAll(Waste(lens[i])).0);
    assert Real(ParseAll(before).0) + [] == Real(ParseAll(before).0);
  }

  lemma {:induction false} AlignedInStep(written: seq<byte>, lens: seq<nat>, i: nat)
    requires i <= |lens| && ParseAll(written).1 == [] && forall j :: 0 <= j < i ==> Aligned(lens[j])
    ensures ParseAll(written + WasteAll(lens[..i])).1 == []
    ensures Real(ParseAll(written + WasteAll(lens[..i])).0) == Real(ParseAll(written).0)
    decreases i
  {
    hide ParseAll, Real, Aligned;
    if i == 0 {
      assert written + WasteAll(lens[..0]) == written;
    } else {
      AlignedInStep(written, lens, i - 1);
      NextWaste(written, lens, i - 1);
    }
  }

  /** Whatever the sizes, within range or beyond, the receiver stays in step with the sender through
      a whole write if and only if every WASTE record in it is aligned, and then it keeps exactly the
      frames of the buffer. For sizes under 458752 that means no length over 65535. */
  lemma WriteInStepIff(fs: seq<Frame>, sizes: seq<int>)
    requires AllFit(fs) && forall i :: 0 <= i < |fs| ==> fs[i].cmd != Command.Waste
    requires forall i :: 0 <= i < |sizes| ==> CHECK_MARK <= sizes[i]
    ensures var lens := WasteLengths(|EncodeAll(fs)|, sizes);
            var written := Flatten(Records(EncodeAll(fs), sizes));
            && written == EncodeAll(fs) + WasteAll(lens)
            && (InStep(EncodeAll(fs), lens) <==> forall i :: 0 <= i < |lens| ==> Aligned(lens[i]))
            && (InStep(EncodeAll(fs), lens) ==> ParseAll(written).1 == [] && Real(ParseAll(written).0) == fs)
            && ((forall i :: 0 <= i < |sizes| ==> sizes[i] < 0x7_0000) ==>
                  (InStep(EncodeAll(fs), lens) <==> forall i :: 0 <= i < |lens| ==> lens[i] <= 0xFFFF))
  {
    hide ParseAll, WasteAll, Aligned, Real, Records, WasteLengths;
    var bytes := EncodeAll(fs);
    var lens := WasteLengths(|bytes|, sizes);
    PayloadThenWaste(bytes, sizes);
    ParseWhole(fs);
    RealOfReal(fs);
    if forall i :: 0 <= i < |lens| ==> Aligned(lens[i]) {
      forall i: nat | i <= |lens| ensures ParseAll(bytes + WasteAll(lens[..i])).1 == [] {
        AlignedInStep(bytes, lens, i);
      }
      AlignedInStep(bytes, lens, |lens|);
      assert lens[..|lens|] == lens;
    }
    if InStep(bytes, lens) {
      forall i | 0 <= i < |lens| ensures Aligned(lens[i]) {
        NextWaste(bytes, lens, i);
      }
    }
    if forall i :: 0 <= i < |sizes| ==> sizes[i] < 0x7_0000 {
      WasteLengthsUnder(|bytes|, sizes, 0x7_0000);
      forall i | 0 <= i < |lens| ensures Aligned(lens[i]) <==> lens[i] <= 0xFFFF {
        OversizedWaste(lens[i]);
      }
    }
  }

  lemma ExcessModulo(q: nat)
    ensures 0x1_0000 * q % 7 == 0 <==> q % 7 == 0
  {
    assert 0x1_0000 * q == 7 * (9362 * q) + 2 * q;
    var r := q % 7;
    assert 2 * q == 7 * (2 * (q / 7)) + 2 * r;
  }
}
