/** The VMess chunk stream (src/proxy/inbound/vmess.rs, `VmessServerStream`): length-prefixed
    encrypted chunks written and read under partial polls. */
module VmessChunks {
  import opened Wire
  import opened ReadAhead

  const CHUNK_SIZE := 0x4000
  const MAX_CHUNK_SIZE := 17 * 1024
  const OVERHEAD := 16

  /** An AEAD under one key: the nonce is the chunk counter. */
  datatype Cipher = Cipher(seal: (u16, seq<byte>) -> seq<byte>, open: (u16, seq<byte>) -> Option<seq<byte>>)

  /** What an AEAD promises: opening under the same nonce gives the plaintext back, and the tag is
      OVERHEAD bytes. */
  ghost predicate Lawful(c: Option<Cipher>) {
    c.Some? ==>
      forall n: u16, p: seq<byte> ::
        |c.value.seal(n, p)| == |p| + OVERHEAD && c.value.open(n, c.value.seal(n, p)) == Some(p)
  }

  /** Without a cipher chunks go in the clear. */
  function Overhead(c: Option<Cipher>): nat {
    if c.Some? then OVERHEAD else 0
  }

  /** The 16-bit chunk counter wraps around. */
  function Bump(n: u16): u16 {
    (n + 1) % 0x1_0000
  }

  function Seal(c: Option<Cipher>, n: u16, payload: seq<byte>): seq<byte> {
    if c.Some? then c.value.seal(n, payload) else payload
  }

  function Advance(c: Option<Cipher>, n: u16): u16 {
    if c.Some? then Bump(n) else n
  }

  function MaxPayload(c: Option<Cipher>): nat {
    CHUNK_SIZE - Overhead(c)
  }

  function Frame(c: Option<Cipher>, n: u16, payload: seq<byte>): seq<byte>
    requires |payload| <= MaxPayload(c)
  {
    U16Bytes(|payload| + Overhead(c)) + Seal(c, n, payload)
  }

  predicate Fits(c: Option<Cipher>, payloads: seq<seq<byte>>) {
    forall i :: 0 <= i < |payloads| ==> |payloads[i]| <= MaxPayload(c)
  }

  /** The chunks as the receiver should see them, from counter `n` on. */
  function Chunks(c: Option<Cipher>, n: u16, payloads: seq<seq<byte>>): seq<byte>
    requires Fits(c, payloads)
    decreases |payloads|
  {
    if payloads == [] then []
    else Frame(c, n, payloads[0]) + Chunks(c, Advance(c, n), payloads[1..])
  }

  /** The counter after `k` chunks. */
  function CountAfter(c: Option<Cipher>, n: u16, k: nat): u16
    decreases k
  {
    if k == 0 then n else CountAfter(c, Advance(c, n), k - 1)
  }

  // ─── Writing ────────────────────────────────────────────────────────────────

  datatype WriteState = Building | Flushing(consume: nat, written: nat, total: nat)

  datatype Writer = Writer(state: WriteState, buf: seq<byte>, count: u16)

  /** What the transport answers to one `poll_write`. */
  datatype Answer = NotYet | Took(n: nat) | Refused

  datatype WritePoll = WritePending | Written(n: nat) | WriteFailed

  predicate WriterValid(w: Writer) {
    match w.state
    case Building => w.buf == []
    case Flushing(_, written, total) => written < total == |w.buf|
  }

  /** `BuildingData`: one chunk out of the front of the caller's buffer. */
  function Build(w: Writer, c: Option<Cipher>, data: seq<byte>): Writer {
    var consume := Min(|data|, MaxPayload(c));
    var buf := Frame(c, w.count, data[..consume]);
    Writer(Flushing(consume, 0, |buf|), buf, Advance(c, w.count))
  }

  /** `FlushingData`: the writer, the result, the bytes the transport took, the answers left. */
  function Flush(w: Writer, answers: seq<Answer>): (res: (Writer, WritePoll, seq<byte>, seq<Answer>))
    requires WriterValid(w) && w.state.Flushing?
    ensures WriterValid(res.0)
    decreases |answers|
  {
    var Flushing(consume, written, total) := w.state;
    if answers == [] then (w, WritePending, [], [])
    else match answers[0]
      case NotYet => (w, WritePending, [], answers[1..])
      case Refused => (w, WriteFailed, [], answers[1..])
      case Took(n) =>
        var k := Min(n, total - written);
        if k == 0 then (w, WriteFailed, [], answers[1..])
        else if written + k < total then
          var (w', p, sent, rest) := Flush(w.(state := Flushing(consume, written + k, total)), answers[1..]);
          (w', p, w.buf[written..written + k] + sent, rest)
        else (Writer(Building, [], w.count), Written(consume), w.buf[written..], answers[1..])
  }

  function WriteOutcome(w: Writer, c: Option<Cipher>, data: seq<byte>, answers: seq<Answer>)
    : (Writer, WritePoll, seq<byte>, seq<Answer>)
    requires WriterValid(w)
  {
    Flush(if w.state.Building? then Build(w, c, data) else w, answers)
  }

  // ─── Reading ────────────────────────────────────────────────────────────────

  datatype ReadState = WaitingLength | WaitingData(size: nat) | FlushingData(size: nat) | Closed

  datatype Reader = Reader(state: ReadState, buf: seq<byte>, chunk: seq<byte>, count: u16)

  /** The end of the stream is a read without bytes. */
  datatype ReadPoll = ReadPending | Bytes(data: seq<byte>) | Transport | TooLarge | BadChunk

  predicate ReaderValid(r: Reader) {
    r.state.FlushingData? ==> r.state.size == |r.chunk|
  }

  /** Opening a chunk already cut from the buffer. The counter moves even when the tag is wrong. */
  function Open(r: Reader, c: Option<Cipher>, sealed: seq<byte>): (Reader, bool)
    requires r.state.WaitingData?
  {
    if c.None? then (r.(state := FlushingData(|sealed|), chunk := sealed), true)
    else if |sealed| < OVERHEAD then (r, false)
    else match c.value.open(r.count, sealed)
      case None => (r.(count := Bump(r.count)), false)
      case Some(plain) => (Reader(FlushingData(|plain|), r.buf, plain, Bump(r.count)), true)
  }

  function Rank(s: ReadState): nat {
    match s
    case WaitingLength => 2
    case WaitingData(_) => 1
    case _ => 0
  }

  function ReadOutcome(r: Reader, c: Option<Cipher>, script: Script, room: nat): (res: (Reader, ReadPoll, Script))
    requires ReaderValid(r)
    ensures ReaderValid(res.0)
    decreases Rank(r.state)
  {
    match r.state
    case WaitingLength =>
      var f := Fill(script, r.buf, 2, true);
      (match f.outcome
       case Pending => (r.(buf := f.buf), ReadPending, f.script)
       case Failed => (r.(buf := f.buf), Transport, f.script)
       case CleanEof => (r.(buf := f.buf, state := Closed), Bytes([]), f.script)
       case Filled =>
         FillConserves(script, r.buf, 2, true);
         var len := U16From(f.buf[0], f.buf[1]);
         if len > MAX_CHUNK_SIZE then (r.(buf := f.buf[2..]), TooLarge, f.script)
         else ReadOutcome(r.(buf := f.buf[2..], state := WaitingData(len)), c, f.script, room))
    case WaitingData(size) =>
      var f := Fill(script, r.buf, size, false);
      (match f.outcome
       case Pending => (r.(buf := f.buf), ReadPending, f.script)
       case Filled =>
         FillConserves(script, r.buf, size, false);
         var (r', ok) := Open(r.(buf := f.buf[size..]), c, f.buf[..size]);
         if !ok then (r', BadChunk, f.script) else ReadOutcome(r', c, f.script, room)
       case _ => (r.(buf := f.buf), Transport, f.script))
    case FlushingData(size) =>
      var n := Min(room, size);
      (r.(chunk := r.chunk[n..], state := if n < size then FlushingData(size - n) else WaitingLength),
       Bytes(r.chunk[..n]), script)
    case Closed => (r, Bytes([]), script)
  }

  // ─── What a schedule of writes puts on the wire ─────────────────────────────

  /** One call of `poll_write`. */
  datatype WriteCall = WriteCall(data: seq<byte>, answers: seq<Answer>)

  /** After a schedule: the writer, the wire, the bytes reported as written, and the plaintext of
      every chunk built, the last of which may still be in flight. */
  datatype Sent = Sent(w: Writer, wire: seq<byte>, acked: seq<byte>, chunks: seq<seq<byte>>)

  const IDLE := Writer(Building, [], 0)

  function Reported(data: seq<byte>, p: WritePoll): seq<byte> {
    if p.Written? then data[..Min(p.n, |data|)] else []
  }

  function AfterWrite(s: Sent, c: Option<Cipher>, call: WriteCall): Sent
    requires WriterValid(s.w)
  {
    var (w, p, sent, _) := WriteOutcome(s.w, c, call.data, call.answers);
    Sent(w, s.wire + sent, s.acked + Reported(call.data, p),
         if s.w.state.Building? then s.chunks + [call.data[..Min(|call.data|, MaxPayload(c))]] else s.chunks)
  }

  /** A caller told to wait comes back with a buffer that starts with what is in flight. */
  predicate Retries(s: Sent, call: WriteCall) {
    s.w.state.Flushing? && s.chunks != [] ==> s.chunks[|s.chunks| - 1] <= call.data
  }

  /** Bytes on the wire are the finished chunks and the flushed part of the one in flight; the
      reported bytes are the finished chunks. */
  predicate Sound(s: Sent, c: Option<Cipher>) {
    && WriterValid(s.w) && Fits(c, s.chunks)
    && s.w.count == CountAfter(c, 0, |s.chunks|)
    && match s.w.state
       case Building => s.wire == Chunks(c, 0, s.chunks) && s.acked == Flatten(s.chunks)
       case Flushing(consume, written, _) =>
         && s.chunks != []
         && var n := |s.chunks| - 1;
         && s.acked == Flatten(s.chunks[..n])
         && consume == |s.chunks[n]|
         && s.w.buf == Frame(c, CountAfter(c, 0, n), s.chunks[n])
         && s.wire == Chunks(c, 0, s.chunks[..n]) + s.w.buf[..written]
  }

  lemma {:induction false} CountAfterAdd(c: Option<Cipher>, n: u16, j: nat, k: nat)
    ensures CountAfter(c, n, j + k) == CountAfter(c, CountAfter(c, n, j), k)
    decreases j
  {
    if j > 0 {
      CountAfterAdd(c, Advance(c, n), j - 1, k);
    }
  }

  lemma {:induction false} ChunksAppend(c: Option<Cipher>, n: u16, a: seq<seq<byte>>, p: seq<byte>)
    requires Fits(c, a) && |p| <= MaxPayload(c)
    ensures Fits(c, a + [p])
    ensures Chunks(c, n, a + [p]) == Chunks(c, n, a) + Frame(c, CountAfter(c, n, |a|), p)
    decreases |a|
  {
    hide Frame;
    if a == [] {
      assert a + [p] == [p] && [p][1..] == [];
      assert Chunks(c, n, [p]) == Frame(c, n, p) + [];
    } else {
      assert (a + [p])[0] == a[0] && (a + [p])[1..] == a[1..] + [p];
      ChunksAppend(c, Advance(c, n), a[1..], p);
      Assoc(Frame(c, n, a[0]), Chunks(c, Advance(c, n), a[1..]), Frame(c, CountAfter(c, n, |a|), p));
    }
  }

  /** One call moved the flushed position to `to`, and finished the chunk when that is its end. */
  predicate FlushedTo(w: Writer, w': Writer, p: WritePoll, sent: seq<byte>, to: nat)
    requires WriterValid(w) && w.state.Flushing?
  {
    var Flushing(consume, written, total) := w.state;
    && written <= to <= total
    && sent == w.buf[written..to]
    && (p.Written? ==> to == total && p.n == consume && w' == Writer(Building, [], w.count))
    && (!p.Written? ==> to < total && w' == w.(state := Flushing(consume, to, total)))
  }

  lemma {:induction false} FlushSpec(w: Writer, answers: seq<Answer>) returns (to: nat)
    requires WriterValid(w) && w.state.Flushing?
    ensures var (w', p, sent, _) := Flush(w, answers); FlushedTo(w, w', p, sent, to)
    decreases |answers|
  {
    var Flushing(consume, written, total) := w.state;
    to := written;
    if answers != [] && answers[0].Took? {
      var k := Min(answers[0].n, total - written);
      if 0 < k && written + k < total {
        var next := w.(state := Flushing(consume, written + k, total));
        to := FlushSpec(next, answers[1..]);
        SliceJoin(w.buf, written, written + k, to);
      } else {
        to := written + k;
      }
    }
  }

  /** How much a transport takes before it first declines, and whether it then refuses or just waits. */
  function Takes(answers: seq<Answer>): nat {
    if answers == [] || !answers[0].Took? || answers[0].n == 0 then 0 else answers[0].n + Takes(answers[1..])
  }

  predicate RefusesNext(answers: seq<Answer>) {
    answers != [] &&
    match answers[0]
    case NotYet => false
    case Refused => true
    case Took(n) => n == 0 || RefusesNext(answers[1..])
  }

  /** What a write answers is decided by the transport alone: it is done if and only if the transport
      takes all that is left of the chunk before it declines; otherwise all that was taken is sent, and
      it fails if and only if the transport refuses then, and waits if and only if it does not. */
  lemma {:induction false} FlushAnswersIff(w: Writer, answers: seq<Answer>)
    requires WriterValid(w) && w.state.Flushing?
    ensures var (w', p, sent, _) := Flush(w, answers);
            var left := w.state.total - w.state.written;
            && (p.Written? <==> Takes(answers) >= left) && (p.Written? ==> p.n == w.state.consume)
            && (p.WriteFailed? <==> Takes(answers) < left && RefusesNext(answers))
            && (p.WritePending? <==> Takes(answers) < left && !RefusesNext(answers))
            && |sent| == Min(left, Takes(answers))
    decreases |answers|
  {
    var Flushing(consume, written, total) := w.state;
    if answers != [] && answers[0].Took? {
      var k := Min(answers[0].n, total - written);
      if 0 < k && written + k < total {
        FlushAnswersIff(w.(state := Flushing(consume, written + k, total)), answers[1..]);
      }
    }
  }

  /** So a write on an idle writer gets through a transport that takes enough, and reports every byte a
      chunk holds. */
  lemma WriteGetsThrough(s: Sent, c: Option<Cipher>, call: WriteCall)
    requires Lawful(c) && WriterValid(s.w) && s.w.state.Building?
    requires Takes(call.answers) >= 2 + Min(|call.data|, MaxPayload(c)) + Overhead(c)
    ensures WriteOutcome(s.w, c, call.data, call.answers).1 == Written(Min(|call.data|, MaxPayload(c)))
    ensures AfterWrite(s, c, call).acked == s.acked + call.data[..Min(|call.data|, MaxPayload(c))]
  {
    hide Flush, Lawful;
    var w := Build(s.w, c, call.data);
    var p := call.data[..Min(|call.data|, MaxPayload(c))];
    FrameLength(c, s.w.count, p);
    SealLength(c, s.w.count, p);
    FlushAnswersIff(w, call.answers);
  }

  /** Opening a new chunk leaves the wire and the reports as they were. */
  lemma BuildSound(s: Sent, c: Option<Cipher>, data: seq<byte>)
    requires Sound(s, c) && s.w.state.Building?
    ensures var p := data[..Min(|data|, MaxPayload(c))];
            Sound(Sent(Build(s.w, c, data), s.wire, s.acked, s.chunks + [p]), c)
  {
    hide Chunks, Frame, Seal;
    var p := data[..Min(|data|, MaxPayload(c))];
    var n := |s.chunks|;
    assert (s.chunks + [p])[..n] == s.chunks && (s.chunks + [p])[n] == p;
    CountAfterAdd(c, 0, n, 1);
    assert CountAfter(c, s.w.count, 1) == Advance(c, s.w.count);
    var w := Build(s.w, c, data);
    assert |w.buf| >= 2 by { FrameLength(c, s.w.count, p); }
    assert s.wire + w.buf[..0] == s.wire;
  }

  lemma FrameLength(c: Option<Cipher>, n: u16, p: seq<byte>)
    requires |p| <= MaxPayload(c)
    ensures |Frame(c, n, p)| == 2 + |Seal(c, n, p)|
  {
  }

  /** The chunk in flight, with what came before it. */
  lemma InFlight(s: Sent, c: Option<Cipher>)
    requires Sound(s, c) && s.w.state.Flushing?
    ensures var n := |s.chunks| - 1; var written := s.w.state.written;
            && Fits(c, s.chunks[..n])
            && written < |s.w.buf|
            && s.wire == Chunks(c, 0, s.chunks[..n]) + s.w.buf[..written]
            && s.wire + s.w.buf[written..] == Chunks(c, 0, s.chunks)
            && s.acked + s.chunks[n] == Flatten(s.chunks)
  {
    hide Chunks, Frame, Seal, Flatten, CountAfter;
    var n := |s.chunks| - 1;
    var written := s.w.state.written;
    assert s.chunks == s.chunks[..n] + [s.chunks[n]];
    ChunksAppend(c, 0, s.chunks[..n], s.chunks[n]);
    FlattenOne(s.chunks[..n], s.chunks[n]);
    Split(s.w.buf, written);
    Assoc(Chunks(c, 0, s.chunks[..n]), s.w.buf[..written], s.w.buf[written..]);
  }

  lemma FlushSound(s: Sent, c: Option<Cipher>, call: WriteCall)
    requires Sound(s, c) && s.w.state.Flushing? && Retries(s, call)
    ensures Sound(AfterWrite(s, c, call), c)
  {
    hide Chunks, Frame, Seal, Flatten, CountAfter, Flush;
    var to := FlushSpec(s.w, call.answers);
    InFlight(s, c);
    var (w, p, sent, _) := WriteOutcome(s.w, c, call.data, call.answers);
    var n := |s.chunks| - 1;
    if p.Written? {
      assert Reported(call.data, p) == s.chunks[n];
    } else {
      var written, reached := s.w.state.written, w.state.written;
      assert s.w.buf[..written] == s.w.buf[0..written] && s.w.buf[..reached] == s.w.buf[0..reached];
      SliceJoin(s.w.buf, 0, written, reached);
      Assoc(Chunks(c, 0, s.chunks[..n]), s.w.buf[..written], sent);
      assert s.acked + [] == s.acked;
    }
  }

  /** Every call keeps the writer sound, whatever the transport answers. */
  lemma WriteKeepsSound(s: Sent, c: Option<Cipher>, call: WriteCall)
    requires Sound(s, c) && Retries(s, call)
    ensures Sound(AfterWrite(s, c, call), c)
  {
    hide Chunks, Frame, Seal, Flatten, CountAfter, Flush, Fits;
    if s.w.state.Building? {
      var p := call.data[..Min(|call.data|, MaxPayload(c))];
      var built := Sent(Build(s.w, c, call.data), s.wire, s.acked, s.chunks + [p]);
      BuildSound(s, c, call.data);
      assert p <= call.data;
      assert built.chunks[|built.chunks| - 1] == p;
      FlushSound(built, c, call);
      assert built.w.state.Flushing?;
    } else {
      FlushSound(s, c, call);
    }
  }

  lemma SliceFront<T>(s: seq<T>, lo: nat, hi: nat, n: nat)
    requires lo + n <= hi <= |s|
    ensures s[lo..hi][..n] == s[lo..lo + n]
  {
  }

  /** A caller that comes back with another buffer gets a report that does not match the wire: the
      bytes reported are those sent if and only if the buffer starts with what was in flight. */
  lemma ReportMatchesIffRetried(s: Sent, c: Option<Cipher>, call: WriteCall)
    requires Sound(s, c) && s.w.state.Flushing?
    requires WriteOutcome(s.w, c, call.data, call.answers).1.Written?
    ensures AfterWrite(s, c, call).acked == Flatten(s.chunks) <==> Retries(s, call)
  {
    hide Chunks, Frame, Seal, Flatten, CountAfter;
    var to := FlushSpec(s.w, call.answers);
    var n := |s.chunks| - 1;
    var last := s.chunks[n];
    assert s.chunks == s.chunks[..n] + [last];
    FlattenOne(s.chunks[..n], last);
    var k := Min(|last|, |call.data|);
    assert AfterWrite(s, c, call).acked == s.acked + call.data[..k];
    if AfterWrite(s, c, call).acked == Flatten(s.chunks) {
      assert call.data[..k] == (s.acked + call.data[..k])[|s.acked|..] == last;
    }
  }

  function Schedule(c: Option<Cipher>, calls: seq<WriteCall>): (s: Sent)
    ensures WriterValid(s.w)
    decreases |calls|
  {
    if calls == [] then Sent(IDLE, [], [], [])
    else
      var n := |calls| - 1;
      AfterWrite(Schedule(c, calls[..n]), c, calls[n])
  }

  predicate Disciplined(c: Option<Cipher>, calls: seq<WriteCall>) {
    forall i :: 0 <= i < |calls| ==> Retries(Schedule(c, calls[..i]), calls[i])
  }

  lemma {:induction false} ScheduleSound(c: Option<Cipher>, calls: seq<WriteCall>)
    requires Disciplined(c, calls)
    ensures Sound(Schedule(c, calls), c)
    decreases |calls|
  {
    hide AfterWrite, Retries;
    if calls == [] {
      ScheduleStart(c);
    } else {
      var n := |calls| - 1;
      forall i | 0 <= i < n
        ensures Retries(Schedule(c, calls[..n][..i]), calls[..n][i])
      {
        assert calls[..n][..i] == calls[..i] && calls[..n][i] == calls[i];
      }
      ScheduleSound(c, calls[..n]);
      WriteKeepsSound(Schedule(c, calls[..n]), c, calls[n]);
    }
  }

  lemma ScheduleStart(c: Option<Cipher>)
    ensures Sound(Sent(IDLE, [], [], []), c)
  {
  }

  // ─── What a reader makes of the wire ────────────────────────────────────────

  /** The reader faces exactly the chunks `todo`: `rest` is what will follow its buffer. */
  predicate Facing(r: Reader, c: Option<Cipher>, todo: seq<seq<byte>>, rest: seq<byte>) {
    && ReaderValid(r) && Fits(c, todo)
    && if r.state.WaitingData? then
         && todo != [] && r.state.size == |todo[0]| + Overhead(c)
         && r.buf + rest == Seal(c, r.count, todo[0]) + Chunks(c, Advance(c, r.count), todo[1..])
       else r.buf + rest == Chunks(c, r.count, todo)
  }

  /** Plaintext opened but not handed out. */
  function Held(r: Reader): seq<byte> {
    if r.state.FlushingData? then r.chunk else []
  }

  function Handed(p: ReadPoll): seq<byte> {
    if p.Bytes? then p.data else []
  }

  lemma LengthStep(c: Option<Cipher>, n: u16, todo: seq<seq<byte>>, buf: seq<byte>, rest: seq<byte>)
    requires Fits(c, todo) && |buf| >= 2 && buf + rest == Chunks(c, n, todo)
    ensures todo != []
    ensures U16From(buf[0], buf[1]) == |todo[0]| + Overhead(c)
    ensures Fits(c, todo[1..]) && buf[2..] + rest == Seal(c, n, todo[0]) + Chunks(c, Advance(c, n), todo[1..])
  {
    hide Seal, U16Bytes;
    assert todo != [];
    FitsFirst(c, todo);
    var len := U16Bytes(|todo[0]| + Overhead(c));
    var tail := Chunks(c, Advance(c, n), todo[1..]);
    Assoc(len, Seal(c, n, todo[0]), tail);
    LengthBytes(|todo[0]| + Overhead(c), buf, rest, Seal(c, n, todo[0]) + tail);
  }

  lemma LengthBytes(len: u16, buf: seq<byte>, rest: seq<byte>, body: seq<byte>)
    requires |buf| >= 2 && buf + rest == U16Bytes(len) + body
    ensures U16From(buf[0], buf[1]) == len && buf[2..] + rest == body
  {
    assert U16Bytes(len)[0] == (U16Bytes(len) + body)[0] == (buf + rest)[0];
    assert U16Bytes(len)[1] == (U16Bytes(len) + body)[1] == (buf + rest)[1];
    U16RoundTrip(len);
    SliceAppend(buf, rest, 2);
    assert (U16Bytes(len) + body)[2..] == body;
  }

  lemma CutFront(buf: seq<byte>, rest: seq<byte>, front: seq<byte>, tail: seq<byte>)
    requires buf + rest == front + tail && |buf| >= |front|
    ensures buf[..|front|] == front && buf[|front|..] + rest == tail
  {
    SliceAppend(buf, rest, |front|);
    assert (front + tail)[..|front|] == front && (front + tail)[|front|..] == tail;
  }

  lemma SealLength(c: Option<Cipher>, n: u16, p: seq<byte>)
    requires Lawful(c)
    ensures |Seal(c, n, p)| == |p| + Overhead(c)
  {
  }

  lemma OpenSealed(r: Reader, c: Option<Cipher>, p: seq<byte>)
    requires Lawful(c) && r.state.WaitingData?
    ensures Open(r, c, Seal(c, r.count, p)) == (Reader(FlushingData(|p|), r.buf, p, Advance(c, r.count)), true)
  {
    SealLength(c, r.count, p);
  }

  /** Filling the buffer moves bytes from the transport and loses none. */
  lemma FillFacing(r: Reader, c: Option<Cipher>, todo: seq<seq<byte>>, script: Script, missing: seq<byte>,
                   count: nat, allowEof: bool)
    requires Facing(r, c, todo, Content(script) + missing)
    ensures var f := Fill(script, r.buf, count, allowEof);
            Facing(r.(buf := f.buf), c, todo, Content(f.script) + missing)
  {
    hide Seal, Chunks, Fits, Fill;
    FillConserves(script, r.buf, count, allowEof);
    var f := Fill(script, r.buf, count, allowEof);
    Assoc(r.buf, Content(script), missing);
    Assoc(f.buf, Content(f.script), missing);
  }

  /** A reader between polls: it never holds on to an opened chunk without data. */
  predicate Settled(r: Reader) {
    r.state.FlushingData? ==> r.chunk != []
  }

  /** A read without bytes although the reader has not seen the end of the wire. */
  predicate FakesEnd(r: Reader, p: ReadPoll) {
    p == Bytes([]) && !r.state.Closed?
  }

  predicate LastEmpty(todo: seq<seq<byte>>, k: nat) {
    0 < k <= |todo| && todo[k - 1] == []
  }

  /** One poll hands out the next bytes of the chunks faced, in order, and never reports a chunk as
      malformed. `k` chunks are opened, one at most, and the counter counts them. A caller that
      offers room gets the end of the stream before the end if and only if the chunk opened is
      empty. */
  predicate ReadsOn(r: Reader, c: Option<Cipher>, todo: seq<seq<byte>>, room: nat, missing: seq<byte>,
                    res: (Reader, ReadPoll, Script), k: nat) {
    var (r', p, script') := res;
    && k <= Min(1, |todo|)
    && Facing(r', c, todo[k..], Content(script') + missing)
    && r'.count == CountAfter(c, r.count, k)
    && Held(r) + Flatten(todo) == Handed(p) + (Held(r') + Flatten(todo[k..]))
    && !p.TooLarge? && !p.BadChunk?
    && (r.state.FlushingData? ==> k == 0 && !r'.state.Closed?)
    && Settled(r')
    && (room > 0 && Settled(r) ==> (FakesEnd(r', p) <==> LastEmpty(todo, k)))
    && (room > 0 && r.state.FlushingData? && r.chunk == [] ==> p == Bytes([]))
  }

  lemma {:induction false} ReadStep(r: Reader, c: Option<Cipher>, todo: seq<seq<byte>>, script: Script,
                                    room: nat, missing: seq<byte>) returns (k: nat)
    requires Lawful(c) && Facing(r, c, todo, Content(script) + missing)
    ensures ReadsOn(r, c, todo, room, missing, ReadOutcome(r, c, script, room), k)
    decreases Rank(r.state)
  {
    hide Seal, Chunks, Fits, Fill, Content;
    k := 0;
    assert todo[0..] == todo;
    match r.state
    case WaitingLength => k := LengthRead(r, c, todo, script, room, missing);
    case WaitingData(_) => k := DataRead(r, c, todo, script, room, missing);
    case FlushingData(size) =>
      var n := Min(room, size);
      Split(r.chunk, n);
      Assoc(r.chunk[..n], r.chunk[n..], Flatten(todo));
      assert n == size ==> r.chunk[n..] == [];
    case Closed =>
  }

  lemma {:induction false} LengthRead(r: Reader, c: Option<Cipher>, todo: seq<seq<byte>>, script: Script,
                                      room: nat, missing: seq<byte>) returns (k: nat)
    requires Lawful(c) && r.state.WaitingLength? && Facing(r, c, todo, Content(script) + missing)
    ensures ReadsOn(r, c, todo, room, missing, ReadOutcome(r, c, script, room), k)
    decreases 2, 0
  {
    hide Seal, Chunks, Fits, Fill, Content;
    k := 0;
    assert todo[0..] == todo && [] + ([] + Flatten(todo)) == [] + Flatten(todo);
    var f := Fill(script, r.buf, 2, true);
    FillFacing(r, c, todo, script, missing, 2, true);
    FillConserves(script, r.buf, 2, true);
    if f.outcome.Filled? {
      LengthStep(c, r.count, todo, f.buf, Content(f.script) + missing);
      var len := U16From(f.buf[0], f.buf[1]);
      assert len <= CHUNK_SIZE by { FitsFirst(c, todo); }
      k := ReadStep(r.(buf := f.buf[2..], state := WaitingData(len)), c, todo, f.script, room, missing);
    }
  }

  lemma FitsFirst(c: Option<Cipher>, todo: seq<seq<byte>>)
    requires Fits(c, todo) && todo != []
    ensures |todo[0]| + Overhead(c) <= CHUNK_SIZE && Fits(c, todo[1..])
  {
  }

  lemma {:induction false} DataRead(r: Reader, c: Option<Cipher>, todo: seq<seq<byte>>, script: Script,
                                    room: nat, missing: seq<byte>) returns (k: nat)
    requires Lawful(c) && r.state.WaitingData? && Facing(r, c, todo, Content(script) + missing)
    ensures ReadsOn(r, c, todo, room, missing, ReadOutcome(r, c, script, room), k)
    decreases 1, 0
  {
    hide Seal, Chunks, Fits, Fill, Content, Open, Flatten, ReadsOn, Lawful, CountAfter;
    k := 0;
    var size := r.state.size;
    var f := Fill(script, r.buf, size, false);
    FillFacing(r, c, todo, script, missing, size, false);
    FillConserves(script, r.buf, size, false);
    if f.outcome.Filled? {
      SealLength(c, r.count, todo[0]);
      FitsFirst(c, todo);
      var tail := Chunks(c, Advance(c, r.count), todo[1..]);
      CutFront(f.buf, Content(f.script) + missing, Seal(c, r.count, todo[0]), tail);
      OpenSealed(r.(buf := f.buf[size..]), c, todo[0]);
      var next := Reader(FlushingData(|todo[0]|), f.buf[size..], todo[0], Advance(c, r.count));
      var j := ReadStep(next, c, todo[1..], f.script, room, missing);
      k := j + 1;
      OpenedReadsOn(r, c, todo, room, missing, next, ReadOutcome(next, c, f.script, room), j);
    } else {
      WaitedReadsOn(r, c, todo, room, missing, ReadOutcome(r, c, script, room));
    }
  }

  lemma WaitedReadsOn(r: Reader, c: Option<Cipher>, todo: seq<seq<byte>>, room: nat, missing: seq<byte>,
                      res: (Reader, ReadPoll, Script))
    requires r.state.WaitingData? && Facing(res.0, c, todo, Content(res.2) + missing)
    requires res.0 == r.(buf := res.0.buf) && (res.1.ReadPending? || res.1.Transport?)
    ensures ReadsOn(r, c, todo, room, missing, res, 0)
  {
    hide Facing;
    assert todo[0..] == todo && [] + ([] + Flatten(todo)) == [] + Flatten(todo);
  }

  lemma OpenedReadsOn(r: Reader, c: Option<Cipher>, todo: seq<seq<byte>>, room: nat, missing: seq<byte>,
                      next: Reader, res: (Reader, ReadPoll, Script), j: nat)
    requires r.state.WaitingData? && todo != []
    requires next.state.FlushingData? && next.chunk == todo[0] && next.count == Advance(c, r.count)
    requires ReadsOn(next, c, todo[1..], room, missing, res, j)
    ensures ReadsOn(r, c, todo, room, missing, res, j + 1)
  {
    hide Facing;
    assert todo[1..][j..] == todo[j + 1..];
    assert [] + Flatten(todo) == todo[0] + Flatten(todo[1..]);
  }

  // ─── Waiting, ending and failing ────────────────────────────────────────────

  /** The next length, or the chunk it announces, is not whole in these bytes. */
  predicate Short(r: Reader, bytes: seq<byte>) {
    match r.state
    case WaitingLength =>
      || |bytes| < 2
      || (U16From(bytes[0], bytes[1]) <= MAX_CHUNK_SIZE && |bytes| < 2 + U16From(bytes[0], bytes[1]))
    case WaitingData(size) => |bytes| < size
    case _ => false
  }

  /** The reader stands between two chunks and holds no byte of the next. */
  predicate Between(r: Reader, bytes: seq<byte>) {
    r.state.WaitingLength? && bytes == []
  }

  predicate AnswersFit(r: Reader, bytes: seq<byte>, stop: Stop, r': Reader, p: ReadPoll) {
    && (p.ReadPending? <==> Short(r, bytes) && stop == Idle)
    && (p.Transport? <==> Short(r, bytes) && (stop == Break || (stop == End && !Between(r, bytes))))
    && (r'.state.Closed? <==> r.state.Closed? || (Between(r, bytes) && stop == End))
    && (p.TooLarge? <==> r.state.WaitingLength? && |bytes| >= 2 && U16From(bytes[0], bytes[1]) > MAX_CHUNK_SIZE)
  }

  /** The chunk at the front of these bytes, when it is whole. */
  function ChunkAt(r: Reader, bytes: seq<byte>): Option<seq<byte>> {
    match r.state
    case WaitingLength =>
      if |bytes| < 2 || U16From(bytes[0], bytes[1]) > MAX_CHUNK_SIZE then None
      else
        var len: nat := U16From(bytes[0], bytes[1]);
        if |bytes| < 2 + len then None else Some(bytes[2..2 + len])
    case WaitingData(size) => if |bytes| < size then None else Some(bytes[..size])
    case _ => None
  }

  /** What the cipher makes of a chunk. */
  function Plain(c: Option<Cipher>, n: u16, sealed: seq<byte>): Option<seq<byte>> {
    if c.None? then Some(sealed) else if |sealed| < OVERHEAD then None else c.value.open(n, sealed)
  }

  /** A whole chunk is handed out as far as there is room, or called bad if and only if it does not
      open. */
  predicate OpensIt(r: Reader, c: Option<Cipher>, bytes: seq<byte>, room: nat, p: ReadPoll) {
    var chunk := ChunkAt(r, bytes);
    && (p.BadChunk? <==> chunk.Some? && Plain(c, r.count, chunk.value).None?)
    && (chunk.Some? && Plain(c, r.count, chunk.value).Some? ==>
          var plain := Plain(c, r.count, chunk.value).value; p == Bytes(plain[..Min(room, |plain|)]))
  }

  lemma DataOpens(r: Reader, c: Option<Cipher>, script: Script, room: nat)
    requires ReaderValid(r) && r.state.WaitingData?
    ensures OpensIt(r, c, r.buf + Ahead(script), room, ReadOutcome(r, c, script, room).1)
  {
    hide Fill, Ahead, StopOf;
    var size := r.state.size;
    FillAnswersIff(script, r.buf, size, false);
    FillConserves(script, r.buf, size, false);
    var f := Fill(script, r.buf, size, false);
    if f.outcome.Filled? {
      assert (r.buf + Ahead(script))[..size] == f.buf[..size];
    }
  }

  /** A reader that has the whole of an acceptable length at hand goes on as one that waits for the
      chunk. */
  lemma AfterLength(r: Reader, c: Option<Cipher>, script: Script, room: nat) returns (next: Reader, left: Script)
    requires ReaderValid(r) && r.state.WaitingLength?
    requires var bytes := r.buf + Ahead(script);
             |bytes| >= 2 && U16From(bytes[0], bytes[1]) <= MAX_CHUNK_SIZE
    ensures var bytes := r.buf + Ahead(script);
            && next.state == WaitingData(U16From(bytes[0], bytes[1])) && next.count == r.count
            && next.buf + Ahead(left) == bytes[2..] && StopOf(left) == StopOf(script)
            && ReaderValid(next) && ReadOutcome(r, c, script, room) == ReadOutcome(next, c, left, room)
  {
    hide Fill, Ahead, StopOf, Open;
    FillAnswersIff(script, r.buf, 2, true);
    FillConserves(script, r.buf, 2, true);
    var f := Fill(script, r.buf, 2, true);
    var bytes := r.buf + Ahead(script);
    left := f.script;
    assert bytes == f.buf + Ahead(left) && bytes[0] == f.buf[0] && bytes[1] == f.buf[1];
    next := r.(buf := f.buf[2..], state := WaitingData(U16From(f.buf[0], f.buf[1])));
    SliceAppend(f.buf, Ahead(left), 2);
  }

  /** Without one it answers at once. */
  lemma BeforeLength(r: Reader, c: Option<Cipher>, script: Script, room: nat)
    requires ReaderValid(r) && r.state.WaitingLength?
    requires var bytes := r.buf + Ahead(script);
             |bytes| >= 2 ==> U16From(bytes[0], bytes[1]) > MAX_CHUNK_SIZE
    ensures var (r', p, _) := ReadOutcome(r, c, script, room);
            var bytes := r.buf + Ahead(script);
            && (p.TooLarge? <==> |bytes| >= 2)
            && (p.ReadPending? <==> |bytes| < 2 && StopOf(script) == Idle)
            && (p.Transport? <==> |bytes| < 2 && (StopOf(script) == Break || (StopOf(script) == End && bytes != [])))
            && !p.BadChunk?
            && (r'.state.Closed? <==> bytes == [] && StopOf(script) == End)
  {
    hide Fill, Ahead, StopOf, Open;
    FillAnswersIff(script, r.buf, 2, true);
    FillConserves(script, r.buf, 2, true);
    var f := Fill(script, r.buf, 2, true);
    var bytes := r.buf + Ahead(script);
    if f.outcome.Filled? {
      assert bytes == f.buf + Ahead(f.script) && bytes[0] == f.buf[0] && bytes[1] == f.buf[1];
    }
  }

  /** For any wire, the writer's or not: a poll with a whole chunk at hand opens it under the next
      counter, hands out as much of it as there is room for, and calls it bad if and only if it is
      shorter than the tag or does not open. */
  lemma WholeChunkIsOpened(r: Reader, c: Option<Cipher>, script: Script, room: nat)
    requires ReaderValid(r)
    ensures OpensIt(r, c, r.buf + Ahead(script), room, ReadOutcome(r, c, script, room).1)
  {
    var bytes := r.buf + Ahead(script);
    if r.state.WaitingData? {
      DataOpens(r, c, script, room);
    } else if r.state.WaitingLength? {
      hide Fill, Ahead, StopOf, Open, Plain, ReadOutcome, ReaderValid;
      if |bytes| >= 2 && U16From(bytes[0], bytes[1]) <= MAX_CHUNK_SIZE {
        var next, left := AfterLength(r, c, script, room);
        SecondPart(bytes, next.state.size);
        DataOpens(next, c, left, room);
      } else {
        BeforeLength(r, c, script, room);
      }
    }
  }

  lemma SecondPart(bytes: seq<byte>, len: nat)
    requires |bytes| >= 2
    ensures |bytes| >= 2 + len ==> bytes[2..2 + len] == bytes[2..][..len]
  {
  }

  lemma {:induction false} DataAnswers(r: Reader, c: Option<Cipher>, script: Script, room: nat)
    requires ReaderValid(r) && r.state.WaitingData?
    ensures var (r', p, _) := ReadOutcome(r, c, script, room);
            AnswersFit(r, r.buf + Ahead(script), StopOf(script), r', p)
  {
    hide Fill, Ahead, StopOf;
    var size := r.state.size;
    FillAnswersIff(script, r.buf, size, false);
    FillConserves(script, r.buf, size, false);
    var f := Fill(script, r.buf, size, false);
    if f.outcome.Filled? {
      var (next, ok) := Open(r.(buf := f.buf[size..]), c, f.buf[..size]);
      assert ok ==> next.state.FlushingData?;
    }
  }

  /** What a poll answers beside bytes is decided by the bytes at hand, those buffered and those the
      transport hands out before it stops, and by why it stops. The poll waits if and only if the
      next length or chunk is not whole and the transport not ready; it reports a transport error if
      and only if, with that not whole, the transport broke, or ended other than between two chunks;
      it closes if and only if it ended there. */
  lemma ReadAnswersIff(r: Reader, c: Option<Cipher>, script: Script, room: nat)
    requires ReaderValid(r)
    ensures var (r', p, _) := ReadOutcome(r, c, script, room);
            AnswersFit(r, r.buf + Ahead(script), StopOf(script), r', p)
  {
    var bytes := r.buf + Ahead(script);
    if r.state.WaitingData? {
      DataAnswers(r, c, script, room);
    } else if r.state.WaitingLength? {
      hide Fill, Ahead, StopOf, Open, ReadOutcome, ReaderValid;
      if |bytes| >= 2 && U16From(bytes[0], bytes[1]) <= MAX_CHUNK_SIZE {
        var next, left := AfterLength(r, c, script, room);
        DataAnswers(next, c, left, room);
      } else {
        BeforeLength(r, c, script, room);
      }
    }
  }

  /** Some poll of the run reports a transport error or takes the wire to have ended. */
  predicate Breaks(r: Reader, c: Option<Cipher>, script: Script, rooms: seq<nat>)
    requires ReaderValid(r)
    decreases |rooms|
  {
    && rooms != []
    && var (r1, p, script1) := ReadOutcome(r, c, script, rooms[0]);
       p.Transport? || r1.state.Closed? || Breaks(r1, c, script1, rooms[1..])
  }

  lemma ReadCalm(r: Reader, c: Option<Cipher>, script: Script, room: nat)
    requires ReaderValid(r) && Calm(script)
    ensures Calm(ReadOutcome(r, c, script, room).2)
    decreases Rank(r.state)
  {
    hide Fill, Open, Calm;
    match r.state
    case WaitingLength =>
      FillCalm(script, r.buf, 2, true);
      FillConserves(script, r.buf, 2, true);
      var f := Fill(script, r.buf, 2, true);
      if f.outcome.Filled? && U16From(f.buf[0], f.buf[1]) <= MAX_CHUNK_SIZE {
        ReadCalm(r.(buf := f.buf[2..], state := WaitingData(U16From(f.buf[0], f.buf[1]))), c, f.script, room);
      }
    case WaitingData(size) =>
      FillCalm(script, r.buf, size, false);
      FillConserves(script, r.buf, size, false);
      var f := Fill(script, r.buf, size, false);
      if f.outcome.Filled? {
        OpenState(r.(buf := f.buf[size..]), c, f.buf[..size]);
      }
    case _ =>
  }

  lemma OpenState(r: Reader, c: Option<Cipher>, sealed: seq<byte>)
    requires r.state.WaitingData?
    ensures Open(r, c, sealed).1 ==> Open(r, c, sealed).0.state.FlushingData?
  {
  }

  /** A reader ahead of its peer waits: on a transport that delivers bytes, in whatever parts and
      with whatever pauses, and neither breaks nor ends, no poll of any run reports an error of the
      transport or the end of the wire. */
  lemma {:induction false} CalmNeverBreaks(r: Reader, c: Option<Cipher>, script: Script, rooms: seq<nat>)
    requires ReaderValid(r) && !r.state.Closed? && Calm(script)
    ensures !Breaks(r, c, script, rooms)
    decreases |rooms|
  {
    hide ReadOutcome, Calm;
    if rooms != [] {
      CalmStop(script);
      ReadAnswersIff(r, c, script, rooms[0]);
      ReadCalm(r, c, script, rooms[0]);
      var (r1, _, script1) := ReadOutcome(r, c, script, rooms[0]);
      CalmNeverBreaks(r1, c, script1, rooms[1..]);
    }
  }

  /** And it gets on: with the next chunk whole, not empty, and room offered, a poll of a reader that
      faces what was written hands out at least a byte. */
  lemma WholeChunkIsRead(r: Reader, c: Option<Cipher>, todo: seq<seq<byte>>, script: Script, room: nat,
                         missing: seq<byte>)
    requires Lawful(c) && Facing(r, c, todo, Content(script) + missing) && Settled(r)
    requires room > 0 && !r.state.Closed? && todo != [] && todo[0] != []
    requires !Short(r, r.buf + Ahead(script))
    ensures var (_, p, _) := ReadOutcome(r, c, script, room); p.Bytes? && p.data != []
  {
    hide Fill, Ahead, StopOf, ReadOutcome, Facing, Content;
    FacingValid(r, c, todo, Content(script) + missing);
    ReadAnswersIff(r, c, script, room);
    var k := ReadStep(r, c, todo, script, room, missing);
  }

  lemma FacingValid(r: Reader, c: Option<Cipher>, todo: seq<seq<byte>>, rest: seq<byte>)
    requires Facing(r, c, todo, rest)
    ensures ReaderValid(r)
  {
  }

  /** A run of reads: the reader, every byte handed out, whether a chunk was called malformed. */
  function RunReads(r: Reader, c: Option<Cipher>, script: Script, rooms: seq<nat>): (Reader, seq<byte>, bool, Script)
    requires ReaderValid(r)
    decreases |rooms|
  {
    if rooms == [] then (r, [], false, script)
    else
      var (r1, p, script1) := ReadOutcome(r, c, script, rooms[0]);
      var (r2, out, bad, script2) := RunReads(r1, c, script1, rooms[1..]);
      (r2, Handed(p) + out, p.TooLarge? || p.BadChunk? || bad, script2)
  }

  /** Some poll of the run is a read without bytes before the end. */
  predicate EndsFalsely(r: Reader, c: Option<Cipher>, script: Script, rooms: seq<nat>)
    requires ReaderValid(r)
    decreases |rooms|
  {
    && rooms != []
    && var (r1, p, script1) := ReadOutcome(r, c, script, rooms[0]);
       FakesEnd(r1, p) || EndsFalsely(r1, c, script1, rooms[1..])
  }

  predicate OffersRoom(rooms: seq<nat>) {
    forall i :: 0 <= i < |rooms| ==> rooms[i] > 0
  }

  predicate SomeEmpty(chunks: seq<seq<byte>>) {
    exists i :: 0 <= i < |chunks| && chunks[i] == []
  }

  lemma SomeEmptySplit(a: seq<seq<byte>>, b: seq<seq<byte>>)
    ensures SomeEmpty(a + b) <==> SomeEmpty(a) || SomeEmpty(b)
  {
    if SomeEmpty(a) {
      var i :| 0 <= i < |a| && a[i] == [];
      assert (a + b)[i] == [];
    }
    if SomeEmpty(b) {
      var i :| 0 <= i < |b| && b[i] == [];
      assert (a + b)[|a| + i] == [];
    }
  }

  lemma {:induction false} RunReadsSound(r: Reader, c: Option<Cipher>, todo: seq<seq<byte>>, script: Script,
                                         rooms: seq<nat>, missing: seq<byte>) returns (k: nat)
    requires ReaderValid(r) && Lawful(c) && Facing(r, c, todo, Content(script) + missing)
    ensures var (r', out, bad, script') := RunReads(r, c, script, rooms);
            && k <= |todo| && !bad
            && Facing(r', c, todo[k..], Content(script') + missing)
            && r'.count == CountAfter(c, r.count, k)
            && Held(r) + Flatten(todo) == out + (Held(r') + Flatten(todo[k..]))
            && (OffersRoom(rooms) && Settled(r) ==> (EndsFalsely(r, c, script, rooms) <==> SomeEmpty(todo[..k])))
    decreases |rooms|
  {
    hide Seal, Chunks, Fits, Content, ReadOutcome, Held, Facing, FakesEnd, SomeEmpty, Settled;
    if rooms == [] {
      k := 0;
      assert !SomeEmpty([]) by { NoneEmpty(); }
      assert todo[0..] == todo && [] + (Held(r) + Flatten(todo)) == Held(r) + Flatten(todo);
    } else {
      var i := ReadStep(r, c, todo, script, rooms[0], missing);
      var (r1, p, script1) := ReadOutcome(r, c, script, rooms[0]);
      var j := RunReadsSound(r1, c, todo[i..], script1, rooms[1..], missing);
      k := i + j;
      assert todo[i..][j..] == todo[k..];
      CountAfterAdd(c, r.count, i, j);
      var (r2, out, _, _) := RunReads(r1, c, script1, rooms[1..]);
      Assoc(Handed(p), out, Held(r2) + Flatten(todo[k..]));
      assert todo[..k] == todo[..i] + todo[i..][..j];
      SomeEmptySplit(todo[..i], todo[i..][..j]);
      assert SomeEmpty(todo[..i]) <==> LastEmpty(todo, i) by { OneEmpty(todo, i); }
    }
  }

  lemma NoneEmpty()
    ensures !SomeEmpty([])
  {
  }

  lemma OneEmpty(todo: seq<seq<byte>>, k: nat)
    requires k <= Min(1, |todo|)
    ensures SomeEmpty(todo[..k]) <==> LastEmpty(todo, k)
  {
    if k == 1 {
      assert todo[..1][0] == todo[0];
    }
  }

  const START := Reader(WaitingLength, [], [], 0)

  /** What is still to be sent of the chunk in flight. */
  function Unsent(s: Sent): seq<byte> {
    if s.w.state.Flushing? && s.w.state.written <= |s.w.buf| then s.w.buf[s.w.state.written..] else []
  }

  /** What a run of reads on the wire of a schedule comes to: it has opened the first `k` chunks and
      faces the others. */
  lemma ReadsFromStart(c: Option<Cipher>, calls: seq<WriteCall>, script: Script, rooms: seq<nat>)
    returns (k: nat, missing: seq<byte>)
    requires Lawful(c) && Disciplined(c, calls)
    requires Content(script) <= Schedule(c, calls).wire
    ensures var s := Schedule(c, calls);
            && Sound(s, c) && k <= |s.chunks|
            && missing == s.wire[|Content(script)|..] + Unsent(s)
            && var (r, out, bad, rest) := RunReads(START, c, script, rooms);
            && !bad && Facing(r, c, s.chunks[k..], Content(rest) + missing)
            && r.count == CountAfter(c, 0, k)
            && Held(START) + Flatten(s.chunks) == out + (Held(r) + Flatten(s.chunks[k..]))
            && (OffersRoom(rooms) ==> (EndsFalsely(START, c, script, rooms) <==> SomeEmpty(s.chunks[..k])))
  {
    hide Chunks, Fits, RunReads, Schedule, Disciplined, Content, Facing, Frame, Lawful, EndsFalsely, SomeEmpty;
    var s := Schedule(c, calls);
    ScheduleSound(c, calls);
    assert s.wire + Unsent(s) == Chunks(c, 0, s.chunks) && Fits(c, s.chunks) by {
      if s.w.state.Flushing? {
        InFlight(s, c);
      } else {
        assert s.wire + [] == s.wire;
      }
    }
    var behind := s.wire[|Content(script)|..];
    Split(s.wire, |Content(script)|);
    Assoc(Content(script), behind, Unsent(s));
    missing := behind + Unsent(s);
    StartFacing(c, s.chunks, Content(script) + missing);
    k := RunReadsSound(START, c, s.chunks, script, rooms, missing);
  }

  /** Everything that was written has been sent, read and handed out. */
  predicate ReadOut(s: Sent, script: Script, r: Reader, rest: Script) {
    && s.w.state.Building? && Content(script) == s.wire && Content(rest) == []
    && r.buf == [] && !r.state.WaitingData? && Held(r) == []
  }

  /** The reader is the inverse of the writer. For every schedule of writes whose caller retries
      properly, and every way the wire arrives, whole or in part, cut up, delayed or broken off, the
      bytes read are a prefix of the bytes reported as written, and no chunk is called malformed. A
      reader that has taken the whole wire of an idle writer and handed out what it opened has read
      exactly the bytes reported, and the two chunk counters agree. */
  lemma BytesArriveInOrder(c: Option<Cipher>, calls: seq<WriteCall>, script: Script, rooms: seq<nat>)
    requires Lawful(c) && Disciplined(c, calls)
    requires Content(script) <= Schedule(c, calls).wire
    ensures var s := Schedule(c, calls);
            var (r, out, bad, rest) := RunReads(START, c, script, rooms);
            && out <= s.acked && !bad
            && (ReadOut(s, script, r, rest) ==> out == s.acked && r.count == s.w.count)
  {
    hide Chunks, Fits, RunReads, Schedule, Disciplined, Content, Facing, Frame, Lawful, Sound, Held,
         EndsFalsely, SomeEmpty, Flatten, OffersRoom, CountAfter;
    var k, missing := ReadsFromStart(c, calls, script, rooms);
    ReadIsPrefix(c, Schedule(c, calls), script, rooms, missing, k);
  }

  lemma StartFacing(c: Option<Cipher>, todo: seq<seq<byte>>, wire: seq<byte>)
    requires Fits(c, todo) && wire == Chunks(c, 0, todo)
    ensures Facing(START, c, todo, wire)
  {
    assert [] + wire == wire;
  }

  /** With bytes still missing, the last chunk is not opened. */
  lemma FacingLeft(r: Reader, c: Option<Cipher>, todo: seq<seq<byte>>, rest: seq<byte>)
    requires Facing(r, c, todo, rest)
    ensures r.buf + rest != [] ==> todo != []
    ensures !r.state.WaitingData? && r.buf + rest == [] ==> todo == []
  {
  }

  lemma ReadIsPrefix(c: Option<Cipher>, s: Sent, script: Script, rooms: seq<nat>, missing: seq<byte>, k: nat)
    requires Sound(s, c) && k <= |s.chunks|
    requires Content(script) <= s.wire && missing == s.wire[|Content(script)|..] + Unsent(s)
    requires var (r, out, bad, rest) := RunReads(START, c, script, rooms);
             && !bad && Facing(r, c, s.chunks[k..], Content(rest) + missing)
             && r.count == CountAfter(c, 0, k)
             && Held(START) + Flatten(s.chunks) == out + (Held(r) + Flatten(s.chunks[k..]))
    ensures var (r, out, bad, rest) := RunReads(START, c, script, rooms);
            && out <= s.acked
            && (ReadOut(s, script, r, rest) ==> out == s.acked && r.count == s.w.count && k == |s.chunks|)
  {
    hide Chunks, Fits, RunReads, Content, Facing, Frame, Flatten, CountAfter;
    var (r, out, _, rest) := RunReads(START, c, script, rooms);
    FacingLeft(r, c, s.chunks[k..], Content(rest) + missing);
    assert [] + Flatten(s.chunks) == Flatten(s.chunks);
    if s.w.state.Building? {
      assert Flatten<byte>([]) == [] by { EmptyFlatten(); }
      assert out + ([] + []) == out;
    } else {
      var n := |s.chunks| - 1;
      InFlight(s, c);
      assert k <= n;
      assert s.chunks[k..] == s.chunks[k..n] + [s.chunks[n]];
      FlattenOne(s.chunks[k..n], s.chunks[n]);
      EndsAlike(s.acked, out, Held(r), Flatten(s.chunks[k..n]), s.chunks[n]);
    }
  }

  lemma EmptyFlatten()
    ensures Flatten<byte>([]) == []
  {
  }

  lemma EndsAlike<T>(acked: seq<T>, out: seq<T>, held: seq<T>, mid: seq<T>, last: seq<T>)
    requires acked + last == out + (held + (mid + last))
    ensures out <= acked
  {
    assert |acked| == |out| + |held| + |mid|;
    assert acked == (acked + last)[..|acked|];
    assert out == (out + (held + (mid + last)))[..|out|];
  }

  /** A call with nothing to write, made while no chunk is in flight. */
  predicate WritesNothing(c: Option<Cipher>, calls: seq<WriteCall>, i: nat) {
    i < |calls| && calls[i].data == [] && Schedule(c, calls[..i]).w.state.Building?
  }

  /** The call added at the end builds at most one chunk, empty when it writes nothing. */
  lemma LastCallChunk(c: Option<Cipher>, calls: seq<WriteCall>)
    requires calls != []
    ensures var n := |calls| - 1;
            SomeEmpty(Schedule(c, calls).chunks) <==>
            SomeEmpty(Schedule(c, calls[..n]).chunks) || WritesNothing(c, calls, n)
  {
    hide WriteOutcome, Reported;
    var n := |calls| - 1;
    var before := Schedule(c, calls[..n]);
    var p := calls[n].data[..Min(|calls[n].data|, MaxPayload(c))];
    if before.w.state.Building? {
      SomeEmptySplit(before.chunks, [p]);
      OneEmpty([p], 1);
      assert [p][..1] == [p];
    }
  }

  /** Empty chunks come from empty writes and from nothing else. */
  lemma {:induction false} EmptyChunkIffEmptyWrite(c: Option<Cipher>, calls: seq<WriteCall>)
    ensures SomeEmpty(Schedule(c, calls).chunks) <==> exists i: nat :: WritesNothing(c, calls, i)
    decreases |calls|
  {
    if calls == [] {
      NoneEmpty();
    } else {
      hide Schedule, SomeEmpty;
      var n := |calls| - 1;
      EmptyChunkIffEmptyWrite(c, calls[..n]);
      LastCallChunk(c, calls);
      forall i: nat | i < n
        ensures WritesNothing(c, calls[..n], i) <==> WritesNothing(c, calls, i)
      {
        assert calls[..n][..i] == calls[..i] && calls[..n][i] == calls[i];
      }
      if i: nat :| WritesNothing(c, calls, i) {
        assert i == n || WritesNothing(c, calls[..n], i);
      }
    }
  }

  /** The reader tells its caller that the stream is over, although it is not, if and only if it has
      opened an empty chunk, for every schedule and every arrival. A caller that never writes
      nothing is never told so, and once everything is read it was told so exactly when some call
      wrote nothing. */
  lemma EndsFalselyIffSomethingEmpty(c: Option<Cipher>, calls: seq<WriteCall>, script: Script, rooms: seq<nat>)
    returns (k: nat)
    requires Lawful(c) && Disciplined(c, calls) && OffersRoom(rooms)
    requires Content(script) <= Schedule(c, calls).wire
    ensures var s := Schedule(c, calls);
            var (r, out, bad, rest) := RunReads(START, c, script, rooms);
            && k <= |s.chunks| && r.count == CountAfter(c, 0, k)
            && Flatten(s.chunks[..k]) == out + Held(r)
            && (EndsFalsely(START, c, script, rooms) <==> SomeEmpty(s.chunks[..k]))
            && (EndsFalsely(START, c, script, rooms) ==> exists i: nat :: WritesNothing(c, calls, i))
            && (ReadOut(s, script, r, rest) ==>
                  (EndsFalsely(START, c, script, rooms) <==> exists i: nat :: WritesNothing(c, calls, i)))
  {
    hide Chunks, Fits, RunReads, Schedule, Disciplined, Content, Facing, Frame, Lawful, Sound,
         EndsFalsely, SomeEmpty, OffersRoom, CountAfter, WritesNothing;
    var missing;
    k, missing := ReadsFromStart(c, calls, script, rooms);
    var s := Schedule(c, calls);
    var (r, out, _, rest) := RunReads(START, c, script, rooms);
    ReadIsPrefix(c, s, script, rooms, missing, k);
    EmptyChunkIffEmptyWrite(c, calls);
    assert s.chunks == s.chunks[..k] + s.chunks[k..];
    SomeEmptySplit(s.chunks[..k], s.chunks[k..]);
    assert ReadOut(s, script, r, rest) ==> s.chunks[..k] == s.chunks;
    HandedOut(s.chunks, k, out, Held(r), Held(START));
  }

  lemma HandedOut(chunks: seq<seq<byte>>, k: nat, out: seq<byte>, held: seq<byte>, none: seq<byte>)
    requires k <= |chunks| && none == []
    requires none + Flatten(chunks) == out + (held + Flatten(chunks[k..]))
    ensures Flatten(chunks[..k]) == out + held
  {
    Split(chunks, k);
    FlattenAppend(chunks[..k], chunks[k..]);
    var tail := Flatten(chunks[k..]);
    Assoc(out, held, tail);
    assert none + Flatten(chunks) == Flatten(chunks);
    var whole := Flatten(chunks[..k]) + tail;
    assert |Flatten(chunks[..k])| == |out + held|;
    assert Flatten(chunks[..k]) == whole[..|out + held|] == ((out + held) + tail)[..|out + held|] == out + held;
  }

  /** An empty write becomes a chunk without data, which its reader takes for the end of the stream
      although more may follow. */
  lemma EmptyWriteLooksLikeTheEnd(c: Option<Cipher>, n: u16, later: seq<byte>, room: nat)
    requires Lawful(c) && |Frame(c, n, []) + later| <= READ_AHEAD
    ensures Build(IDLE.(count := n), c, []).buf == Frame(c, n, [])
    ensures var (r, p, _) := ReadOutcome(START.(count := n), c, [Chunk(Frame(c, n, []) + later)], room);
            p == Bytes([]) && r == Reader(WaitingLength, later, [], Advance(c, n))
  {
    hide Frame, Chunks, Fill, Seal, Lawful, U16Bytes, U16From, Open;
    var none: seq<byte> := [];
    assert none[..0] == [];
    var wire := Frame(c, n, []) + later;
    FrameParts(c, n);
    Assoc(U16Bytes(Overhead(c)), Seal(c, n, []), later);
    FillWhole(wire);
    assert wire + [] == wire;
    LengthBytes(Overhead(c), wire, [], Seal(c, n, []) + later);
    assert wire[2..] + [] == wire[2..];
    EmptyChunkRead(c, n, later, room);
  }

  lemma FillWhole(wire: seq<byte>)
    requires 2 <= |wire| <= READ_AHEAD
    ensures Fill([Chunk(wire)], [], 2, true) == FillResult(Filled, [], wire)
  {
    var script := [Chunk(wire)];
    assert script[1..] == [] && [] + wire == wire;
    assert Fill(script, [], 2, true) == Fill([], wire, 2, true);
  }

  lemma FrameParts(c: Option<Cipher>, n: u16)
    ensures Frame(c, n, []) == U16Bytes(Overhead(c)) + Seal(c, n, []) && |Frame(c, n, [])| >= 2
  {
  }

  lemma EmptyChunkRead(c: Option<Cipher>, n: u16, later: seq<byte>, room: nat)
    requires Lawful(c)
    ensures var r := Reader(WaitingData(Overhead(c)), Seal(c, n, []) + later, [], n);
            ReadOutcome(r, c, [], room) == (Reader(WaitingLength, later, [], Advance(c, n)), Bytes([]), [])
  {
    hide Seal, Lawful;
    SealLength(c, n, []);
    var r := Reader(WaitingData(Overhead(c)), Seal(c, n, []) + later, [], n);
    assert Fill([], r.buf, Overhead(c), false) == FillResult(Filled, [], r.buf);
    assert r.buf[..Overhead(c)] == Seal(c, n, []) && r.buf[Overhead(c)..] == later;
    OpenSealed(r.(buf := later), c, []);
    var none: seq<byte> := [];
    assert none[..0] == [] && none[0..] == [];
  }

  // ─── The stream object ──────────────────────────────────────────────────────

  /** The transport under a writer. */
  class Sink {
    var answers: seq<Answer>
    var taken: seq<byte>

    constructor (answers: seq<Answer>)
      ensures this.answers == answers && taken == []
    {
      this.answers, taken := answers, [];
    }

    /** Takes a prefix of the slice, or nothing. */
    method PollWrite(slice: seq<byte>) returns (a: Answer)
      modifies this
      ensures old(answers) == [] ==> a == NotYet && answers == [] && taken == old(taken)
      ensures old(answers) != [] ==> answers == old(answers)[1..]
      ensures old(answers) != [] && !old(answers)[0].Took? ==> a == old(answers)[0] && taken == old(taken)
      ensures old(answers) != [] && old(answers)[0].Took? ==>
                a == Took(Min(old(answers)[0].n, |slice|)) && taken == old(taken) + slice[..a.n]
    {
      if answers == [] {
        return NotYet;
      }
      a, answers := answers[0], answers[1..];
      if a.Took? {
        a := Took(Min(a.n, |slice|));
        taken := taken + slice[..a.n];
      }
    }
  }

  /** `later` is what is left of a flush that has sent `flushed` so far. */
  ghost predicate Continues(whole: (Writer, WritePoll, seq<byte>, seq<Answer>), flushed: seq<byte>,
                            later: (Writer, WritePoll, seq<byte>, seq<Answer>)) {
    whole == (later.0, later.1, flushed + later.2, later.3)
  }

  /** What one answer of the transport does to a flush. */
  lemma FlushOnce(w: Writer, answers: seq<Answer>)
    requires WriterValid(w) && w.state.Flushing?
    ensures answers == [] ==> Flush(w, answers) == (w, WritePending, [], [])
    ensures answers != [] && answers[0] == NotYet ==> Flush(w, answers) == (w, WritePending, [], answers[1..])
    ensures answers != [] && answers[0] == Refused ==> Flush(w, answers) == (w, WriteFailed, [], answers[1..])
    ensures var Flushing(consume, written, total) := w.state;
            answers != [] && answers[0].Took? ==>
              var k := Min(answers[0].n, total - written);
              && (k == 0 ==> Flush(w, answers) == (w, WriteFailed, [], answers[1..]))
              && (written + k == total && k > 0 ==>
                    Flush(w, answers)
                    == (Writer(Building, [], w.count), Written(consume), w.buf[written..written + k], answers[1..]))
              && (0 < k && written + k < total ==>
                    var next := w.(state := Flushing(consume, written + k, total));
                    Continues(Flush(w, answers), w.buf[written..written + k], Flush(next, answers[1..])))
  {
    assert w.buf[w.state.written..] == w.buf[w.state.written..w.state.total];
  }

  lemma Nothing(a: seq<byte>, b: seq<byte>)
    ensures a + [] == a && [] + b == b
  {
  }

  class VmessServerStream {
    const readCipher: Option<Cipher>
    const writeCipher: Option<Cipher>
    const source: ByteStream
    const sink: Sink
    var readState: ReadState
    var readBuf: seq<byte>
    var chunk: seq<byte>
    var readCount: u16
    var writeState: WriteState
    var writeBuf: seq<byte>
    var writeCount: u16

    constructor (readCipher: Option<Cipher>, writeCipher: Option<Cipher>, source: ByteStream, sink: Sink)
      ensures this.readCipher == readCipher && this.writeCipher == writeCipher
      ensures this.source == source && this.sink == sink
      ensures TheReader() == START && TheWriter() == IDLE
    {
      this.readCipher, this.writeCipher, this.source, this.sink := readCipher, writeCipher, source, sink;
      readState, readBuf, chunk, readCount := WaitingLength, [], [], 0;
      writeState, writeBuf, writeCount := Building, [], 0;
    }

    function TheReader(): Reader
      reads this
    {
      Reader(readState, readBuf, chunk, readCount)
    }

    function TheWriter(): Writer
      reads this
    {
      Writer(writeState, writeBuf, writeCount)
    }

    method BuildData(buf: seq<byte>)
      requires writeState == Building && writeBuf == []
      modifies this`writeState, this`writeBuf, this`writeCount
      ensures TheWriter() == Build(old(TheWriter()), writeCipher, buf)
      ensures writeState.Flushing? && WriterValid(TheWriter())
    {
      var overhead := Overhead(writeCipher);
      var maxPayload := CHUNK_SIZE - overhead;
      var consume := Min(|buf|, maxPayload);
      writeBuf := U16Bytes(consume + overhead);
      var piece := buf[..consume];
      if writeCipher.Some? {
        piece := writeCipher.value.seal(writeCount, piece);
        writeCount := (writeCount + 1) % 0x1_0000;
      }
      writeBuf := writeBuf + piece;
      writeState := Flushing(consume, 0, |writeBuf|);
    }

    method PollWrite(buf: seq<byte>) returns (p: WritePoll)
      requires WriterValid(TheWriter())
      modifies this`writeState, this`writeBuf, this`writeCount, sink
      ensures WriterValid(TheWriter())
      ensures var (w, p', sent, rest) := WriteOutcome(old(TheWriter()), writeCipher, buf, old(sink.answers));
              && TheWriter() == w && p == p'
              && sink.taken == old(sink.taken) + sent && sink.answers == rest
    {
      hide Seal, Frame;
      if writeState == Building {
        BuildData(buf);
      }
      p := FlushData();
    }

    method FlushData() returns (p: WritePoll)
      requires writeState.Flushing? && WriterValid(TheWriter())
      modifies this`writeState, this`writeBuf, sink
      ensures WriterValid(TheWriter())
      ensures var (w, p', sent, rest) := Flush(old(TheWriter()), old(sink.answers));
              && TheWriter() == w && p == p'
              && sink.taken == old(sink.taken) + sent && sink.answers == rest
    {
      hide Flush;
      ghost var whole := Flush(TheWriter(), sink.answers);
      ghost var flushed: seq<byte> := [];
      Nothing(sink.taken, whole.2);
      while true
        invariant writeState.Flushing? && WriterValid(TheWriter())
        invariant sink.taken == old(sink.taken) + flushed
        invariant Continues(whole, flushed, Flush(TheWriter(), sink.answers))
        decreases |sink.answers|
      {
        var Flushing(consume, written, total) := writeState;
        Nothing(flushed, []);
        FlushOnce(TheWriter(), sink.answers);
        var a := sink.PollWrite(writeBuf[written..total]);
        if a == NotYet {
          return WritePending;
        } else if a == Refused || a.n == 0 {
          return WriteFailed;
        }
        ghost var piece := writeBuf[written..written + a.n];
        SliceFront(writeBuf, written, total, a.n);
        Assoc(old(sink.taken), flushed, piece);
        if written + a.n < total {
          writeState := Flushing(consume, written + a.n, total);
          Assoc(flushed, piece, Flush(TheWriter(), sink.answers).2);
          flushed := flushed + piece;
        } else {
          writeBuf := [];
          writeState := Building;
          return Written(consume);
        }
      }
    }

    method PollRead(room: nat) returns (p: ReadPoll)
      requires ReaderValid(TheReader())
      modifies this`readState, this`readBuf, this`chunk, this`readCount, source
      ensures ReaderValid(TheReader())
      ensures (TheReader(), p, source.script) == ReadOutcome(old(TheReader()), readCipher, old(source.script), room)
    {
      hide Fill;
      while true
        invariant ReaderValid(TheReader())
        invariant ReadOutcome(TheReader(), readCipher, source.script, room)
                  == ReadOutcome(old(TheReader()), readCipher, old(source.script), room)
        decreases Rank(readState)
      {
        match readState {
          case WaitingLength =>
            FillConserves(source.script, readBuf, 2, true);
            var outcome;
            outcome, readBuf := PollFill(source, readBuf, 2, true);
            match outcome {
              case Pending => return ReadPending;
              case Failed => return Transport;
              case CleanEof =>
                readState := Closed;
                return Bytes([]);
              case Filled =>
            }
            var len := U16From(readBuf[0], readBuf[1]);
            readBuf := readBuf[2..];
            if len > MAX_CHUNK_SIZE {
              return TooLarge;
            }
            readState := WaitingData(len);
          case WaitingData(size) =>
            FillConserves(source.script, readBuf, size, false);
            var outcome;
            outcome, readBuf := PollFill(source, readBuf, size, false);
            if outcome == Pending {
              return ReadPending;
            } else if outcome != Filled {
              return Transport;
            }
            var ok := OpenChunk(size);
            if !ok {
              return BadChunk;
            }
          case FlushingData(size) =>
            var n := Min(room, size);
            p := Bytes(chunk[..n]);
            chunk := chunk[n..];
            readState := if n < size then FlushingData(size - n) else WaitingLength;
            return;
          case Closed =>
            return Bytes([]);
        }
      }
    }

    /** Cuts a chunk out of the buffer and opens it. */
    method OpenChunk(size: nat) returns (ok: bool)
      requires readState == WaitingData(size) && size <= |readBuf|
      modifies this`readState, this`readBuf, this`chunk, this`readCount
      ensures (TheReader(), ok)
              == Open(old(TheReader()).(buf := old(readBuf)[size..]), readCipher, old(readBuf)[..size])
    {
      var sealed := readBuf[..size];
      readBuf := readBuf[size..];
      if readCipher.None? {
        readState := FlushingData(size);
        chunk := sealed;
        return true;
      }
      if size < OVERHEAD {
        return false;
      }
      var plain := readCipher.value.open(readCount, sealed);
      readCount := (readCount + 1) % 0x1_0000;
      if plain.None? {
        return false;
      }
      chunk := plain.value;
      readState := FlushingData(|chunk|);
      return true;
    }
  }
}
