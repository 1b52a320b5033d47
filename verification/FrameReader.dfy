/** The cancel-safe frame reader (src/proxy/anytls_proto.rs, `FrameReader`). */
module FrameReading {
  import opened Wire
  import opened AnytlsFrames
  import RA = ReadAhead

  /** Where the `read_frame` future is suspended: filling the header, or filling the payload of a
      header it has already decoded. A dropped future starts over at the header. */
  datatype Await = AtHeader | AtPayload(cmd: Command, sid: u32, len: u16)

  datatype Reader = Reader(script: RA.Script, buf: seq<byte>, at: Await)

  datatype Poll = Waiting | Ready(frame: Frame) | Error

  function PollPayload(r: Reader, cmd: Command, sid: u32, len: u16): (Reader, Poll) {
    var filled := RA.Fill(r.script, r.buf, FRAME_HEADER_SIZE + len, false);
    match filled.outcome
    case Pending => (Reader(filled.script, filled.buf, AtPayload(cmd, sid, len)), Waiting)
    case Filled =>
      RA.FillConserves(r.script, r.buf, FRAME_HEADER_SIZE + len, false);
      (Reader(filled.script, filled.buf[FRAME_HEADER_SIZE + len..], AtHeader),
       Ready(Frame(cmd, sid, filled.buf[FRAME_HEADER_SIZE..FRAME_HEADER_SIZE + len])))
    case _ => (Reader(filled.script, filled.buf, AtHeader), Error)
  }

  /** One poll of the `read_frame` future. */
  function PollFrame(r: Reader): (Reader, Poll) {
    match r.at
    case AtPayload(cmd, sid, len) => PollPayload(r, cmd, sid, len)
    case AtHeader =>
      var filled := RA.Fill(r.script, r.buf, FRAME_HEADER_SIZE, false);
      match filled.outcome
      case Pending => (Reader(filled.script, filled.buf, AtHeader), Waiting)
      case Filled =>
        RA.FillConserves(r.script, r.buf, FRAME_HEADER_SIZE, false);
        var buf := filled.buf;
        (match FromCode(buf[0])
         case None => (Reader(filled.script, buf, AtHeader), Error)
         case Some(cmd) =>
           PollPayload(Reader(filled.script, buf, AtHeader), cmd,
                       U32From(buf[1], buf[2], buf[3], buf[4]), U16From(buf[5], buf[6])))
      case _ => (Reader(filled.script, filled.buf, AtHeader), Error)
  }

  /** The decoded header a suspended future holds is the one at the front of the buffer. */
  predicate Consistent(r: Reader) {
    match r.at
    case AtHeader => true
    case AtPayload(cmd, sid, len) =>
      && |r.buf| >= FRAME_HEADER_SIZE
      && FromCode(r.buf[0]) == Some(cmd)
      && sid == U32From(r.buf[1], r.buf[2], r.buf[3], r.buf[4])
      && len == U16From(r.buf[5], r.buf[6])
  }

  class FrameReader {
    const stream: RA.ByteStream
    var buf: seq<byte>
    var at: Await

    constructor (stream: RA.ByteStream)
      ensures this.stream == stream && buf == [] && at == AtHeader
    {
      this.stream := stream;
      buf := [];
      at := AtHeader;
    }

    ghost function State(): Reader
      reads this, stream
    {
      Reader(stream.script, buf, at)
    }

    method PollReadFrame() returns (p: Poll)
      modifies this, stream
      ensures (State(), p) == PollFrame(old(State()))
    {
      if at == AtHeader {
        RA.FillConserves(stream.script, buf, FRAME_HEADER_SIZE, false);
        var header, filled := RA.PollFill(stream, buf, FRAME_HEADER_SIZE, false);
        buf := filled;
        if header == RA.Pending {
          return Waiting;
        }
        if header != RA.Filled {
          return Error;
        }
        var cmd := FromCode(buf[0]);
        if cmd == None {
          return Error;
        }
        at := AtPayload(cmd.value, U32From(buf[1], buf[2], buf[3], buf[4]), U16From(buf[5], buf[6]));
      }
      var end := FRAME_HEADER_SIZE + at.len;
      RA.FillConserves(stream.script, buf, end, false);
      var payload, filled := RA.PollFill(stream, buf, end, false);
      buf := filled;
      if payload == RA.Pending {
        return Waiting;
      }
      if payload != RA.Filled {
        at := AtHeader;
        return Error;
      }
      p := Ready(Frame(at.cmd, at.sid, buf[FRAME_HEADER_SIZE..end]));
      buf := buf[end..];
      at := AtHeader;
    }

    /** The caller drops the future, as `tokio::select!` does when another branch wins. */
    method Cancel()
      modifies this
      ensures State() == old(State()).(at := AtHeader)
    {
      at := AtHeader;
    }
  }

  // ─── Runs ───────────────────────────────────────────────────────────────────

  datatype Event = Arrive(arrival: RA.Arrival) | PollOnce | Cancel

  /** A reader at work: the frames it has produced, and every byte that ever arrived. */
  datatype Session = Session(reader: Reader, emitted: seq<Frame>, arrived: seq<byte>)

  const START := Session(Reader([], [], AtHeader), [], [])

  function Step(s: Session, e: Event): Session {
    match e
    case Arrive(a) =>
      Session(s.reader.(script := s.reader.script + [a]), s.emitted,
              s.arrived + if a.Chunk? then a.data else [])
    case Cancel => s.(reader := s.reader.(at := AtHeader))
    case PollOnce =>
      var (r, p) := PollFrame(s.reader);
      s.(reader := r, emitted := s.emitted + if p.Ready? then [p.frame] else [])
  }

  function Run(events: seq<Event>): Session {
    if events == [] then START else Step(Run(events[..|events| - 1]), events[|events| - 1])
  }

  /** Every byte that arrived is in exactly one place: a frame produced, the buffer, or the
      transport. */
  ghost predicate Accounted(s: Session) {
    && Consistent(s.reader)
    && AllFit(s.emitted)
    && s.arrived == EncodeAll(s.emitted) + s.reader.buf + RA.Content(s.reader.script)
  }

  /** The frame a poll produces is cut from the front of the bytes; without one, none was whole. */
  ghost predicate ProducesParsedFrame(r: Reader, r': Reader, p: Poll) {
    var before := r.buf + RA.Content(r.script);
    && Consistent(r')
    && match p
       case Ready(f) => Fits(f) && before == Encode(f) + r'.buf + RA.Content(r'.script)
       case _ => before == r'.buf + RA.Content(r'.script) && !ParseFrame(r'.buf).Got?
  }

  /** One poll: the bytes it takes out of the buffer are the frame it produces; when it produces
      none, no whole frame was buffered. Where the future was suspended makes no difference. */
  lemma PollIsParse(r: Reader)
    requires Consistent(r)
    ensures ProducesParsedFrame(r, PollFrame(r).0, PollFrame(r).1)
  {
    if r.at == AtHeader {
      RA.FillConserves(r.script, r.buf, FRAME_HEADER_SIZE, false);
      var filled := RA.Fill(r.script, r.buf, FRAME_HEADER_SIZE, false);
      if filled.outcome == RA.Filled && FromCode(filled.buf[0]).Some? {
        var buf := filled.buf;
        PayloadIsParse(Reader(filled.script, buf, AtHeader), FromCode(buf[0]).value,
                       U32From(buf[1], buf[2], buf[3], buf[4]), U16From(buf[5], buf[6]));
      }
    } else {
      PayloadIsParse(r, r.at.cmd, r.at.sid, r.at.len);
    }
  }

  lemma PayloadIsParse(r: Reader, cmd: Command, sid: u32, len: u16)
    requires Consistent(Reader(r.script, r.buf, AtPayload(cmd, sid, len)))
    ensures ProducesParsedFrame(r, PollPayload(r, cmd, sid, len).0, PollPayload(r, cmd, sid, len).1)
  {
    RA.FillConserves(r.script, r.buf, FRAME_HEADER_SIZE + len, false);
    var filled := RA.Fill(r.script, r.buf, FRAME_HEADER_SIZE + len, false);
    assert filled.buf[..FRAME_HEADER_SIZE] == r.buf[..FRAME_HEADER_SIZE];
    if filled.outcome == RA.Filled {
      ParseSound(filled.buf);
    }
  }

  /** The outcome of a parse of the bytes at hand, where `stop` says why there are no more. */
  predicate AnswerIsParse(parse: Parse, stop: RA.Stop, p: Poll) {
    && (p.Ready? <==> parse.Got?)
    && (p.Ready? ==> p.frame == parse.frame)
    && (p.Waiting? <==> parse.More? && stop == RA.Idle)
    && (p.Error? <==> parse.Bad? || (parse.More? && stop != RA.Idle))
  }

  /** What a poll answers is decided by the bytes at hand, those buffered and those the transport
      hands out before it stops: their first frame if there is one; otherwise it waits if and only if
      they are the beginning of one and the transport is not ready, and fails if and only if the
      command is unknown or the transport broke or ended. */
  lemma PollAnswersIff(r: Reader)
    requires Consistent(r)
    ensures AnswerIsParse(ParseFrame(r.buf + RA.Ahead(r.script)), RA.StopOf(r.script), PollFrame(r).1)
  {
    hide RA.Fill, RA.Ahead, RA.StopOf, PollPayload;
    if r.at == AtHeader {
      var bytes := r.buf + RA.Ahead(r.script);
      RA.FillAnswersIff(r.script, r.buf, FRAME_HEADER_SIZE, false);
      RA.FillConserves(r.script, r.buf, FRAME_HEADER_SIZE, false);
      var filled := RA.Fill(r.script, r.buf, FRAME_HEADER_SIZE, false);
      if filled.outcome == RA.Filled {
        var buf := filled.buf;
        assert bytes == buf + RA.Ahead(filled.script) && buf[0] == bytes[0];
        if FromCode(buf[0]).Some? {
          PayloadAnswersIff(Reader(filled.script, buf, AtHeader), FromCode(buf[0]).value,
                            U32From(buf[1], buf[2], buf[3], buf[4]), U16From(buf[5], buf[6]));
        }
      }
    } else {
      PayloadAnswersIff(r, r.at.cmd, r.at.sid, r.at.len);
    }
  }

  lemma PayloadAnswersIff(r: Reader, cmd: Command, sid: u32, len: u16)
    requires Consistent(Reader(r.script, r.buf, AtPayload(cmd, sid, len)))
    ensures AnswerIsParse(ParseFrame(r.buf + RA.Ahead(r.script)), RA.StopOf(r.script), PollPayload(r, cmd, sid, len).1)
  {
    hide RA.Fill, RA.Ahead, RA.StopOf, U32From, U16From;
    var end := FRAME_HEADER_SIZE + len;
    var bytes := r.buf + RA.Ahead(r.script);
    RA.FillAnswersIff(r.script, r.buf, end, false);
    RA.FillConserves(r.script, r.buf, end, false);
    assert bytes[..FRAME_HEADER_SIZE] == r.buf[..FRAME_HEADER_SIZE];
    assert forall i :: 0 <= i < FRAME_HEADER_SIZE ==> bytes[i] == r.buf[i];
    var filled := RA.Fill(r.script, r.buf, end, false);
    if filled.outcome == RA.Filled {
      assert bytes == filled.buf + RA.Ahead(filled.script);
      assert bytes[FRAME_HEADER_SIZE..end] == filled.buf[FRAME_HEADER_SIZE..end];
    }
  }

  lemma StepAccounted(s: Session, e: Event)
    requires Accounted(s)
    ensures Accounted(Step(s, e))
    ensures e == PollOnce ==> s.emitted <= Step(s, e).emitted
  {
    hide PollFrame;
    match e
    case Arrive(a) =>
      RA.ContentAppend(s.reader.script, [a]);
      assert RA.Content([a]) == if a.Chunk? then a.data else [];
    case Cancel =>
    case PollOnce =>
      PollIsParse(s.reader);
      var (r, p) := PollFrame(s.reader);
      if p.Ready? {
        EncodeAllAppend(s.emitted, [p.frame]);
        assert EncodeAll([p.frame]) == Encode(p.frame);
        Shift(EncodeAll(s.emitted), s.reader.buf, RA.Content(s.reader.script),
              Encode(p.frame), r.buf, RA.Content(r.script));
      } else {
        assert s.emitted + [] == s.emitted;
        Shift(EncodeAll(s.emitted), s.reader.buf, RA.Content(s.reader.script),
              [], r.buf, RA.Content(r.script));
      }
  }

  lemma Shift<T>(front: seq<T>, a: seq<T>, b: seq<T>, moved: seq<T>, a': seq<T>, b': seq<T>)
    requires a + b == moved + a' + b'
    ensures front + a + b == front + moved + a' + b'
  {
    Assoc(front, a, b);
    Assoc(front, moved + a', b');
    Assoc(front, moved, a');
  }

  lemma {:induction false} RunAccounted(events: seq<Event>)
    ensures Accounted(Run(events))
  {
    if events != [] {
      RunAccounted(events[..|events| - 1]);
      StepAccounted(Run(events[..|events| - 1]), events[|events| - 1]);
    }
  }

  /** Fragmentation and cancellation are invisible. At every moment the frames produced are a prefix
      of the one-shot parse of everything that arrived; once a poll comes back without a frame and
      the transport is drained, they are all of it and the buffer is exactly the unparsed suffix. */
  lemma FragmentationInvisible(events: seq<Event>)
    ensures var s := Run(events);
            && s.emitted <= ParseAll(s.arrived).0
            && (events != [] && events[|events| - 1] == PollOnce
                && Run(events[..|events| - 1]).emitted == s.emitted
                && RA.Content(s.reader.script) == []
                ==> ParseAll(s.arrived) == (s.emitted, s.reader.buf))
  {
    var s := Run(events);
    var content := RA.Content(s.reader.script);
    RunAccounted(events);
    Assoc(EncodeAll(s.emitted), s.reader.buf, content);
    ParseAllEncode(s.emitted, s.reader.buf + content);
    if events != [] && events[|events| - 1] == PollOnce
       && Run(events[..|events| - 1]).emitted == s.emitted && content == []
    {
      var before := Run(events[..|events| - 1]);
      RunAccounted(events[..|events| - 1]);
      PollIsParse(before.reader);
      assert !PollFrame(before.reader).1.Ready?;
      assert s.reader.buf + content == s.reader.buf;
      assert ParseAll(s.reader.buf) == ([], s.reader.buf);
      assert s.emitted + [] == s.emitted;
    }
  }

  predicate Drained(s: Session) {
    s.reader.buf == [] && RA.Content(s.reader.script) == []
  }

  /** A peer that sends whole frames with `append_frame` gets them through unchanged: whatever has
      been produced is a prefix of what was sent, and a drained reader has produced all of it. */
  lemma SentFramesArrive(events: seq<Event>, sent: seq<Frame>)
    requires AllFit(sent)
    requires Run(events).arrived <= EncodeAll(sent)
    ensures Run(events).emitted <= sent
    ensures Run(events).arrived == EncodeAll(sent) && Drained(Run(events)) ==> Run(events).emitted == sent
  {
    var s := Run(events);
    RunAccounted(events);
    Assoc(EncodeAll(s.emitted), s.reader.buf, RA.Content(s.reader.script));
    PrefixOfEncoding(s.emitted, s.reader.buf + RA.Content(s.reader.script), s.arrived, sent);
  }

  lemma PrefixOfEncoding(fs: seq<Frame>, tail: seq<byte>, arrived: seq<byte>, sent: seq<Frame>)
    requires AllFit(fs) && AllFit(sent)
    requires arrived == EncodeAll(fs) + tail && arrived <= EncodeAll(sent)
    ensures fs <= sent
    ensures arrived == EncodeAll(sent) && tail == [] ==> fs == sent
  {
    hide EncodeAll, ParseAll;
    var more := EncodeAll(sent)[|arrived|..];
    assert EncodeAll(sent) == arrived + more;
    Assoc(EncodeAll(fs), tail, more);
    ParseAllEncode(fs, tail + more);
    ParseWhole(sent);
    if arrived == EncodeAll(sent) && tail == [] {
      assert arrived == EncodeAll(fs);
      ParseWhole(fs);
    }
  }
}
