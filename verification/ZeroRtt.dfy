/** Streams opened before the server answered 0-RTT (src/proxy/outbound/shadowquic.rs,
    `ZeroRttStream`), and the handshake glued to the first write
    (src/proxy/outbound/mod.rs, `LazyHandshakeStream`). */
module ZeroRttReplay {
  import opened Wire

  const ZERO_RTT_REPLAY_LIMIT := 64 * 1024

  /** A connection as its peer sees it: the bytes it took, in order, and whether writing ended. */
  datatype Conn = Conn(got: seq<byte>, shut: bool)

  /** An `AnyStream`. A replay may itself land on a stream still in its early phase. `lost` records
      that a replay failed, after which the stream is left with the rejected connection. */
  datatype Stream =
    | Plain(conn: Conn)
    | Early0(inner: Stream, sent: seq<byte>, shutdown: bool, phase: Phase, lost: bool)

  datatype Phase = Early | Replaying(replay: Replay) | Settled

  /** Where the replay future stands: connecting, in `write_all`, or in the final shutdown or flush. */
  datatype Replay =
    | Connecting(todo: seq<byte>, finish: bool)
    | Writing(to: Stream, todo: seq<byte>, finish: bool)
    | Finishing(to: Stream, finish: bool)

  /** What the environment does, one choice a primitive poll: nothing yet, an error, `n` bytes (or
      the end of a flush or shutdown), the 0-RTT verdict, a new connection. A choice that does not
      suit the poll means nothing yet. */
  datatype Choice = Wait | Fail | Take(n: nat) | Verdict(accepted: bool) | Opened(early: bool)

  type Oracle = seq<Choice>

  datatype Poll = Pending | Ready(n: nat) | Err

  datatype Op = Write(buf: seq<byte>) | Flush | Shutdown | Read

  function Next(o: Oracle): (Choice, Oracle) {
    if o == [] then (Wait, o) else (o[0], o[1..])
  }

  function Fresh(early: bool): Stream {
    if early then Early0(Plain(Conn([], false)), [], false, Early, false) else Plain(Conn([], false))
  }

  function Size(s: Stream): nat {
    match s
    case Plain(_) => 0
    case Early0(inner, _, _, phase, _) => 2 + Size(inner) + if phase.Replaying? then ReplaySize(phase.replay) else 0
  }

  function ReplaySize(r: Replay): nat {
    if r.Connecting? then 1 else 1 + Size(r.to)
  }

  function Stage(r: Replay): nat {
    match r
    case Connecting(_, _) => 2
    case Writing(_, _, _) => 1
    case Finishing(_, _) => 0
  }

  /** A write on a connection takes a prefix of the buffer; after a shutdown it fails. */
  function PollConn(c: Conn, op: Op, o: Oracle): (Conn, Poll, Oracle) {
    var (choice, rest) := Next(o);
    match choice
    case Take(n) =>
      (match op
       case Write(buf) =>
         if c.shut then (c, Err, rest)
         else var k := Min(n, |buf|); (c.(got := c.got + buf[..k]), Ready(k), rest)
       case Shutdown => (c.(shut := true), Ready(0), rest)
       case _ => (c, Ready(0), rest))
    case Fail => (c, Err, rest)
    case _ => (c, Pending, rest)
  }

  /** `resolve`: keep the stream, or start replaying what was sent. */
  function Resolve(z: Stream, accepted: bool): Stream
    requires z.Early0?
  {
    z.(sent := [], phase := if accepted then Settled else Replaying(Connecting(z.sent, z.shutdown)))
  }

  /** Whether a choice was used up, or the stream got no bigger: why polling ends. */
  predicate Progress(before: nat, o: Oracle, after: nat, o': Oracle) {
    |o'| < |o| || (|o'| == |o| && after <= before)
  }

  /** One poll of the replay future; `Some(stream)` when it is done. */
  function PollReplay(r: Replay, o: Oracle): (res: (Replay, Option<Stream>, bool, Oracle))
    ensures var (r', done, failed, o') := res;
            && Progress(ReplaySize(r), o, ReplaySize(r'), o')
            && (done.Some? ==> Progress(ReplaySize(r), o, Size(done.value) + 1, o'))
    decreases |o|, ReplaySize(r), Stage(r)
  {
    match r
    case Connecting(todo, finish) =>
      (match Next(o)
       case (Opened(early), rest) => PollReplay(Writing(Fresh(early), todo, finish), rest)
       case (Fail, rest) => (r, None, true, rest)
       case (_, rest) => (r, None, false, rest))
    case Writing(to, todo, finish) =>
      if todo == [] then PollReplay(Finishing(to, finish), o)
      else
        (match PollOp(to, Write(todo), o)
         case (to', Ready(n), o') =>
           if n == 0 then (Writing(to', todo, finish), None, true, o')
           else PollReplay(Writing(to', todo[n..], finish), o')
         case (to', p, o') => (Writing(to', todo, finish), None, p == Err, o'))
    case Finishing(to, finish) =>
      match PollOp(to, if finish then Shutdown else Flush, o)
      case (to', Ready(_), o') => (Finishing(to', finish), Some(to'), false, o')
      case (to', p, o') => (Finishing(to', finish), None, p == Err, o')
  }

  /** `poll_settled`. A failed replay settles on the rejected connection and reports the error. */
  function PollSettled(z: Stream, o: Oracle): (res: (Stream, Poll, Oracle))
    requires z.Early0?
    ensures res.0.Early0? && Progress(Size(z), o, Size(res.0), res.2)
    ensures res.1.Ready? ==> res.0.phase == Settled
    decreases |o|, Size(z), 3
  {
    match z.phase
    case Settled => (z, Ready(0), o)
    case Early =>
      (match Next(o)
       case (Verdict(accepted), rest) => PollSettled(Resolve(z, accepted), rest)
       case (_, rest) => (z, Pending, rest))
    case Replaying(r) =>
      match PollReplay(r, o)
      case (_, Some(stream), _, o') => (z.(phase := Settled, inner := stream), Ready(0), o')
      case (r', None, true, o') => (z.(phase := Settled, lost := true), Err, o')
      case (r', None, false, o') => (z.(phase := Replaying(r')), Pending, o')
  }

  /** The caller's operation once the early phase is over. */
  function AfterEarly(z: Stream, op: Op, o: Oracle): (res: (Stream, Poll, Oracle))
    requires z.Early0?
    ensures Progress(Size(z), o, Size(res.0), res.2)
    ensures op.Write? && res.1.Ready? ==> |res.2| < |o| && res.1.n <= |op.buf|
    decreases |o|, Size(z), 4
  {
    match PollSettled(z, o)
    case (z', Ready(_), o') =>
      if op.Shutdown? && z'.shutdown then (z', Ready(0), o')
      else var (inner, p, o'') := PollOp(z'.inner, op, o'); (z'.(inner := inner), p, o'')
    case (z', p, o') => (z', p, o')
  }

  /** `poll_write`, `poll_flush`, `poll_shutdown` and `poll_read` of any stream. While early, errors
      of the connection are withheld and writes beyond the replay limit wait. */
  function PollOp(s: Stream, op: Op, o: Oracle): (res: (Stream, Poll, Oracle))
    ensures Progress(Size(s), o, Size(res.0), res.2)
    ensures op.Write? && res.1.Ready? ==> |res.2| < |o| && res.1.n <= |op.buf|
    decreases |o|, Size(s), 5
  {
    match s
    case Plain(c) => var (c', p, o') := PollConn(c, op, o); (Plain(c'), p, o')
    case Early0(inner, sent, shutdown, phase, _) =>
      if phase != Early then AfterEarly(s, op, o)
      else match Next(o)
        case (Verdict(accepted), rest) => AfterEarly(Resolve(s, accepted), op, rest)
        case (_, rest) =>
          if op.Write? && |sent| + |op.buf| > ZERO_RTT_REPLAY_LIMIT then (s, Pending, rest)
          else match PollOp(inner, op, rest)
            case (inner', Ready(n), o') =>
              (s.(inner := inner', sent := if op.Write? then sent + op.buf[..n] else sent,
                  shutdown := shutdown || op.Shutdown?), Ready(n), o')
            case (inner', _, o') => (s.(inner := inner'), Pending, o')
  }

  // ─── What a stream has accepted ─────────────────────────────────────────────

  /** The bytes acknowledged to the writer, in order: those the connection in use has taken, and
      those a replay still has to send. */
  function Log(s: Stream): seq<byte> {
    match s
    case Plain(c) => c.got
    case Early0(inner, sent, _, Early, _) => sent
    case Early0(_, _, _, Replaying(r), _) => ReplayLog(r)
    case Early0(inner, _, _, Settled, _) => Log(inner)
  }

  function ReplayLog(r: Replay): seq<byte> {
    match r
    case Connecting(todo, _) => todo
    case Writing(to, todo, _) => Log(to) + todo
    case Finishing(to, _) => Log(to)
  }

  /** Whether a shutdown was acknowledged. */
  function Shut(s: Stream): bool {
    match s
    case Plain(c) => c.shut
    case Early0(_, _, shutdown, Early, _) => shutdown
    case Early0(_, _, _, Replaying(r), _) => r.finish
    case Early0(inner, _, _, Settled, _) => Shut(inner)
  }

  /** No replay on the way to the connection in use has failed. */
  predicate Intact(s: Stream) {
    match s
    case Plain(_) => true
    case Early0(_, _, _, Early, lost) => !lost
    case Early0(_, _, _, Replaying(r), lost) => !lost && ReplayIntact(r)
    case Early0(inner, _, _, Settled, lost) => !lost && Intact(inner)
  }

  predicate ReplayIntact(r: Replay) {
    r.Connecting? || Intact(r.to)
  }

  /** The record kept while early is exactly what the early connection took, and bounded; a replay
      writes to a stream not yet shut down. */
  predicate Valid(s: Stream) {
    match s
    case Plain(_) => true
    case Early0(inner, sent, shutdown, phase, _) =>
      match phase
      case Early =>
        inner.Plain? && sent == inner.conn.got && |sent| <= ZERO_RTT_REPLAY_LIMIT && shutdown == inner.conn.shut
      case Settled => Valid(inner) && (shutdown ==> Shut(inner))
      case Replaying(r) => ReplayValid(r) && r.finish == shutdown
  }

  predicate ReplayValid(r: Replay) {
    match r
    case Connecting(_, _) => true
    case Writing(to, _, _) => Valid(to) && !Shut(to)
    case Finishing(to, finish) => Valid(to) && (Shut(to) ==> finish)
  }

  // ─── A failed replay is never forgotten ─────────────────────────────────────

  lemma {:induction false} OpIntact(s: Stream, op: Op, o: Oracle)
    ensures Intact(PollOp(s, op, o).0) ==> Intact(s)
    decreases |o|, Size(s), 5
  {
    if s.Early0? {
      if s.phase != Early {
        AfterIntact(s, op, o);
      } else if Next(o).0.Verdict? {
        AfterIntact(Resolve(s, Next(o).0.accepted), op, Next(o).1);
      }
    }
  }

  lemma {:induction false} AfterIntact(z: Stream, op: Op, o: Oracle)
    requires z.Early0?
    ensures Intact(AfterEarly(z, op, o).0) ==> Intact(PollSettled(z, o).0) && Intact(z)
    decreases |o|, Size(z), 4
  {
    SettledIntact(z, o);
    var (z', p, o') := PollSettled(z, o);
    if p.Ready? && !(op.Shutdown? && z'.shutdown) {
      OpIntact(z'.inner, op, o');
    }
  }

  lemma {:induction false} SettledIntact(z: Stream, o: Oracle)
    requires z.Early0?
    ensures Intact(PollSettled(z, o).0) ==> Intact(z)
    decreases |o|, Size(z), 3
  {
    if z.phase == Early && Next(o).0.Verdict? {
      SettledIntact(Resolve(z, Next(o).0.accepted), Next(o).1);
    } else if z.phase.Replaying? {
      ReplayKeepsIntact(z.phase.replay, o);
    }
  }

  lemma {:induction false} ReplayKeepsIntact(r: Replay, o: Oracle)
    ensures var (r', done, _, _) := PollReplay(r, o);
            && (done.None? && ReplayIntact(r') ==> ReplayIntact(r))
            && (done.Some? && Intact(done.value) ==> ReplayIntact(r))
    decreases |o|, ReplaySize(r), Stage(r)
  {
    match r
    case Connecting(_, _) =>
    case Writing(to, todo, finish) =>
      if todo == [] {
        ReplayKeepsIntact(Finishing(to, finish), o);
      } else {
        OpIntact(to, Write(todo), o);
        var (to', p, o') := PollOp(to, Write(todo), o);
        if p.Ready? && p.n > 0 {
          ReplayKeepsIntact(Writing(to', todo[p.n..], finish), o');
        }
      }
    case Finishing(to, finish) =>
      OpIntact(to, if finish then Shutdown else Flush, o);
  }

  // ─── Every poll appends exactly what it acknowledges ────────────────────────

  function Acked(op: Op, p: Poll): seq<byte> {
    if op.Write? && p.Ready? then op.buf[..Min(p.n, |op.buf|)] else []
  }

  /** What one poll does to the acknowledged bytes and the shutdown. */
  predicate Effect(s: Stream, op: Op, s': Stream, p: Poll) {
    && Valid(s')
    && Log(s') == Log(s) + Acked(op, p)
    && (Shut(s') <==> Shut(s) || (op.Shutdown? && p.Ready?))
    && (op.Write? && p.Ready? ==> !Shut(s))
  }

  lemma ConnEffect(c: Conn, op: Op, o: Oracle)
    ensures Effect(Plain(c), op, Plain(PollConn(c, op, o).0), PollConn(c, op, o).1)
  {
    assert c.got + [] == c.got;
  }

  lemma {:induction false} OpEffect(s: Stream, op: Op, o: Oracle)
    requires Valid(s) && Intact(PollOp(s, op, o).0)
    ensures Effect(s, op, PollOp(s, op, o).0, PollOp(s, op, o).1)
    decreases |o|, Size(s), 5
  {
    match s
    case Plain(c) => ConnEffect(c, op, o);
    case Early0(_, _, _, phase, _) =>
      if phase != Early {
        AfterEffect(s, op, o);
      } else if Next(o).0.Verdict? {
        var z := Resolve(s, Next(o).0.accepted);
        ResolveEffect(s, Next(o).0.accepted);
        assert Intact(AfterEarly(z, op, Next(o).1).0);
        AfterEffect(z, op, Next(o).1);
      } else {
        WithheldEffect(s, op, o);
      }
  }

  /** While no verdict is known, what the connection took is recorded and its errors are withheld. */
  lemma WithheldEffect(z: Stream, op: Op, o: Oracle)
    requires z.Early0? && z.phase == Early && Valid(z) && !Next(o).0.Verdict?
    ensures Effect(z, op, PollOp(z, op, o).0, PollOp(z, op, o).1)
  {
    hide AfterEarly, PollSettled, PollReplay;
    ConnEffect(z.inner.conn, op, Next(o).1);
    assert z.sent + [] == z.sent;
  }

  lemma ResolveEffect(z: Stream, accepted: bool)
    requires z.Early0? && z.phase == Early && Valid(z)
    ensures var z' := Resolve(z, accepted);
            Valid(z') && Log(z') == Log(z) && Shut(z') == Shut(z) && z'.shutdown == z.shutdown
  {
  }

  lemma {:induction false} AfterEffect(z: Stream, op: Op, o: Oracle)
    requires z.Early0? && Valid(z) && z.phase != Early && Intact(AfterEarly(z, op, o).0)
    ensures Effect(z, op, AfterEarly(z, op, o).0, AfterEarly(z, op, o).1)
    decreases |o|, Size(z), 4
  {
    hide PollOp, PollSettled;
    AfterIntact(z, op, o);
    SettledEffect(z, o);
    var (z', p, o') := PollSettled(z, o);
    assert Log(z) + [] == Log(z);
    if p.Ready? && !(op.Shutdown? && z'.shutdown) {
      OpEffect(z'.inner, op, o');
    }
  }

  lemma {:induction false} SettledEffect(z: Stream, o: Oracle)
    requires z.Early0? && Valid(z) && z.phase != Early && Intact(PollSettled(z, o).0)
    ensures var (z', p, _) := PollSettled(z, o);
            && Valid(z') && Log(z') == Log(z) && Shut(z') == Shut(z) && z'.shutdown == z.shutdown
            && !p.Err?
    decreases |o|, Size(z), 3
  {
    if z.phase.Replaying? {
      ReplayEffect(z.phase.replay, o);
    }
  }

  lemma {:induction false} ReplayEffect(r: Replay, o: Oracle)
    requires ReplayValid(r)
    ensures var (r', done, failed, _) := PollReplay(r, o);
            && (done.None? && !failed && ReplayIntact(r') ==>
                  ReplayValid(r') && ReplayLog(r') == ReplayLog(r) && r'.finish == r.finish)
            && (done.Some? && Intact(done.value) ==>
                  Valid(done.value) && Log(done.value) == ReplayLog(r) && Shut(done.value) == r.finish)
    decreases |o|, ReplaySize(r), Stage(r)
  {
    hide PollOp;
    match r
    case Connecting(todo, finish) =>
      if Next(o).0.Opened? {
        var to := Fresh(Next(o).0.early);
        assert [] + todo == todo;
        ReplayEffect(Writing(to, todo, finish), Next(o).1);
      }
    case Writing(to, todo, finish) =>
      if todo == [] {
        assert Log(to) + todo == Log(to);
        ReplayEffect(Finishing(to, finish), o);
      } else {
        WritingEffect(to, todo, finish, o);
      }
    case Finishing(to, finish) =>
      var op := if finish then Shutdown else Flush;
      if Intact(PollOp(to, op, o).0) {
        OpEffect(to, op, o);
        assert Log(to) + [] == Log(to);
      }
  }

  lemma {:induction false} WritingEffect(to: Stream, todo: seq<byte>, finish: bool, o: Oracle)
    requires todo != [] && Valid(to) && !Shut(to)
    ensures var (r', done, failed, _) := PollReplay(Writing(to, todo, finish), o);
            && (done.None? && !failed && ReplayIntact(r') ==>
                  ReplayValid(r') && ReplayLog(r') == Log(to) + todo && r'.finish == finish)
            && (done.Some? && Intact(done.value) ==>
                  Valid(done.value) && Log(done.value) == Log(to) + todo && Shut(done.value) == finish)
    decreases |o|, ReplaySize(Writing(to, todo, finish)), Stage(Writing(to, todo, finish)), 0
  {
    hide PollOp;
    var (to', p, o') := PollOp(to, Write(todo), o);
    if Intact(to') {
      OpEffect(to, Write(todo), o);
      assert Log(to) + [] == Log(to);
      if p.Ready? && p.n > 0 {
        assert todo == todo[..p.n] + todo[p.n..];
        Assoc(Log(to), todo[..p.n], todo[p.n..]);
        ReplayEffect(Writing(to', todo[p.n..], finish), o');
      }
    } else if p.Ready? && p.n > 0 {
      ReplayKeepsIntact(Writing(to', todo[p.n..], finish), o');
    }
  }

  // ─── A replay never fails silently ──────────────────────────────────────────

  /** A poll of a stream without a failed replay either answers with an error or leaves none. */
  lemma {:induction false} LossIsReported(s: Stream, op: Op, o: Oracle)
    requires Valid(s) && Intact(s) && !PollOp(s, op, o).1.Err?
    ensures Intact(PollOp(s, op, o).0)
    decreases |o|, Size(s), 5
  {
    if s.Early0? {
      if s.phase != Early {
        AfterReported(s, op, o);
      } else if Next(o).0.Verdict? {
        ResolveEffect(s, Next(o).0.accepted);
        AfterReported(Resolve(s, Next(o).0.accepted), op, Next(o).1);
      }
    }
  }

  lemma {:induction false} AfterReported(z: Stream, op: Op, o: Oracle)
    requires z.Early0? && z.phase != Early && Valid(z) && Intact(z) && !AfterEarly(z, op, o).1.Err?
    ensures Intact(AfterEarly(z, op, o).0)
    decreases |o|, Size(z), 4
  {
    hide PollOp, PollSettled;
    SettledErrsIffLost(z, o);
    var (z', p, o') := PollSettled(z, o);
    if p.Ready? && !(op.Shutdown? && z'.shutdown) {
      SettledEffect(z, o);
      LossIsReported(z'.inner, op, o');
    }
  }

  /** For `poll_settled` the error is exact: it answers one if and only if a replay has just failed. */
  lemma {:induction false} SettledErrsIffLost(z: Stream, o: Oracle)
    requires z.Early0? && z.phase != Early && Valid(z) && Intact(z)
    ensures PollSettled(z, o).1.Err? <==> !Intact(PollSettled(z, o).0)
    decreases |o|, Size(z), 3
  {
    if z.phase.Replaying? {
      ReplayReported(z.phase.replay, o);
    }
  }

  lemma {:induction false} ReplayReported(r: Replay, o: Oracle)
    requires ReplayValid(r) && ReplayIntact(r)
    ensures var (r', done, failed, _) := PollReplay(r, o);
            && (done.Some? ==> Intact(done.value))
            && (done.None? && !failed ==> ReplayIntact(r'))
    decreases |o|, ReplaySize(r), Stage(r)
  {
    hide PollOp;
    match r
    case Connecting(todo, finish) =>
      if Next(o).0.Opened? {
        ReplayReported(Writing(Fresh(Next(o).0.early), todo, finish), Next(o).1);
      }
    case Writing(to, todo, finish) =>
      if todo == [] {
        ReplayReported(Finishing(to, finish), o);
      } else {
        var (to', p, o') := PollOp(to, Write(todo), o);
        if !p.Err? {
          LossIsReported(to, Write(todo), o);
          OpEffect(to, Write(todo), o);
          if p.Ready? && p.n > 0 {
            ReplayReported(Writing(to', todo[p.n..], finish), o');
          }
        }
      }
    case Finishing(to, finish) =>
      var op := if finish then Shutdown else Flush;
      if !PollOp(to, op, o).1.Err? {
        LossIsReported(to, op, o);
      }
  }

  // ─── LazyHandshakeStream ────────────────────────────────────────────────────

  /** A stream whose handshake goes out with the first write. */
  datatype Lazy = Lazy(stream: Stream, handshake: Option<seq<byte>>)

  /** `poll_write_vectored`: a connection takes from both slices; `ZeroRttStream` has the default,
      which writes the first slice that is not empty. */
  function PollVectored(s: Stream, a: seq<byte>, b: seq<byte>, o: Oracle): (Stream, Poll, Oracle) {
    PollOp(s, Write(if s.Plain? then a + b else if a != [] then a else b), o)
  }

  function PollLazy(l: Lazy, op: Op, o: Oracle): (Lazy, Poll, Oracle) {
    if op.Write? && l.handshake.Some? then LazyWrite(l.stream, l.handshake.value, op.buf, o)
    else var (s, p, o') := PollOp(l.stream, op, o); (l.(stream := s), p, o')
  }

  function LazyWrite(stream: Stream, h: seq<byte>, buf: seq<byte>, o: Oracle): (Lazy, Poll, Oracle) {
    match PollVectored(stream, h, buf, o)
    case (s, Ready(n), o') =>
      if n == 0 then (Lazy(s, Some(h)), Ready(0), o')
      else if n >= |h| then
        if n == |h| && buf != [] then
          var (s', p, o'') := PollOp(s, Write(buf), o');
          (Lazy(s', None), p, o'')
        else (Lazy(s, None), Ready(n - |h|), o')
      else (Lazy(s, Some(h[n..])), Pending, o')
    case (s, p, o') => (Lazy(s, Some(h)), p, o')
  }

  function HeldBack(l: Lazy): seq<byte> {
    if l.handshake.Some? then l.handshake.value else []
  }

  /** Every byte of the handshake and of the acknowledged writes is accepted or still held back. */
  predicate Whole(l: Lazy, handshake: seq<byte>, acked: seq<byte>) {
    match l.handshake
    case None => Log(l.stream) == handshake + acked
    case Some(h) => acked == [] && Log(l.stream) + h == handshake
  }

  lemma LazyIntact(l: Lazy, op: Op, o: Oracle)
    ensures Intact(PollLazy(l, op, o).0.stream) ==> Intact(l.stream)
  {
    hide PollOp, Intact;
    OpIntact(l.stream, op, o);
    if op.Write? && l.handshake.Some? {
      var h := l.handshake.value;
      OpIntact(l.stream, Write(if l.stream.Plain? then h + op.buf else if h != [] then h else op.buf), o);
      var (s, _, o') := PollVectored(l.stream, h, op.buf, o);
      OpIntact(s, Write(op.buf), o');
    }
  }

  lemma LazyLossIsReported(l: Lazy, op: Op, o: Oracle)
    requires Valid(l.stream) && Intact(l.stream) && !PollLazy(l, op, o).1.Err?
    ensures Intact(PollLazy(l, op, o).0.stream)
  {
    hide PollOp, Intact, Valid, Log, Shut;
    if op.Write? && l.handshake.Some? {
      var h := l.handshake.value;
      var slice := if l.stream.Plain? then h + op.buf else if h != [] then h else op.buf;
      var (s, p, o') := PollVectored(l.stream, h, op.buf, o);
      assert !p.Err?;
      LossIsReported(l.stream, Write(slice), o);
      OpEffect(l.stream, Write(slice), o);
      if p.Ready? && p.n == |h| > 0 && op.buf != [] {
        LossIsReported(s, Write(op.buf), o');
      }
    } else {
      LossIsReported(l.stream, op, o);
    }
  }

  /** A write that takes `n` bytes of the handshake and the buffer together. */
  lemma HandshakeEffect(stream: Stream, h: seq<byte>, buf: seq<byte>, o: Oracle)
    requires Valid(stream) && Intact(PollVectored(stream, h, buf, o).0)
    ensures var (s, p, _) := PollVectored(stream, h, buf, o);
            && Valid(s) && Shut(s) == Shut(stream)
            && (p.Ready? ==> p.n <= |h| + |buf| && Log(s) == Log(stream) + (h + buf)[..p.n])
            && (!p.Ready? ==> Log(s) == Log(stream))
            && (p.Ready? && h != [] && !stream.Plain? ==> p.n <= |h|)
  {
    hide PollOp, Intact, Valid, Log, Shut;
    var slice := if stream.Plain? then h + buf else if h != [] then h else buf;
    OpEffect(stream, Write(slice), o);
    var (s, p, _) := PollOp(stream, Write(slice), o);
    if p.Ready? {
      assert slice[..p.n] == (h + buf)[..p.n];
    } else {
      assert Log(stream) + [] == Log(stream);
    }
  }

  lemma LazyWriteEffect(l: Lazy, buf: seq<byte>, o: Oracle, handshake: seq<byte>)
    requires Valid(l.stream) && l.handshake.Some? && Whole(l, handshake, [])
    requires Intact(PollLazy(l, Write(buf), o).0.stream)
    ensures var (l', p, _) := PollLazy(l, Write(buf), o);
            && Valid(l'.stream) && Whole(l', handshake, Acked(Write(buf), p))
            && Shut(l'.stream) == Shut(l.stream)
  {
    hide PollOp, Intact, Valid, Log, Shut, PollVectored;
    var h := l.handshake.value;
    var (s, p, o') := PollVectored(l.stream, h, buf, o);
    OpIntact(s, Write(buf), o');
    HandshakeEffect(l.stream, h, buf, o);
    if p.Ready? && p.n > 0 {
      if p.n > |h| {
        assert (h + buf)[..p.n] == h + buf[..p.n - |h|];
        Assoc(Log(l.stream), h, buf[..p.n - |h|]);
      } else {
        assert (h + buf)[..p.n] == h[..p.n];
        Assoc(Log(l.stream), h[..p.n], h[p.n..]);
        Split(h, p.n);
        assert p.n == |h| ==> h[..p.n] == h;
        assert Log(s) + [] == Log(s) && handshake + [] == handshake;
        if p.n == |h| && buf != [] {
          OpEffect(s, Write(buf), o');
        }
      }
    }
  }

  lemma LazyEffect(l: Lazy, op: Op, o: Oracle, handshake: seq<byte>, acked: seq<byte>)
    requires Valid(l.stream) && Whole(l, handshake, acked) && Intact(PollLazy(l, op, o).0.stream)
    ensures var (l', p, _) := PollLazy(l, op, o);
            && Valid(l'.stream) && Whole(l', handshake, acked + Acked(op, p))
            && (Shut(l'.stream) <==> Shut(l.stream) || (op.Shutdown? && p.Ready?))
  {
    hide PollOp, Intact, Valid, Log, Shut, LazyWrite;
    if op.Write? && l.handshake.Some? {
      LazyWriteEffect(l, op.buf, o, handshake);
      assert [] + Acked(op, PollLazy(l, op, o).1) == Acked(op, PollLazy(l, op, o).1);
    } else {
      OpEffect(l.stream, op, o);
      var p := PollOp(l.stream, op, o).1;
      Assoc(handshake, acked, Acked(op, p));
      assert acked + [] == acked && Log(l.stream) + [] == Log(l.stream);
    }
  }

  // ─── Whole schedules ────────────────────────────────────────────────────────

  datatype Step = Step(op: Op, choices: Oracle)

  /** A run of polls: the final stream, the bytes acknowledged, and whether a shutdown was. */
  function Run(l: Lazy, steps: seq<Step>): (Lazy, seq<byte>, bool)
    decreases |steps|
  {
    if steps == [] then (l, [], false)
    else
      var (l1, p, _) := PollLazy(l, steps[0].op, steps[0].choices);
      var (l2, acked, shut) := Run(l1, steps[1..]);
      (l2, Acked(steps[0].op, p) + acked, shut || (steps[0].op.Shutdown? && p.Ready?))
  }

  lemma {:induction false} RunIntact(l: Lazy, steps: seq<Step>)
    ensures Intact(Run(l, steps).0.stream) ==> Intact(l.stream)
    decreases |steps|
  {
    hide PollLazy, Intact;
    if steps != [] {
      LazyIntact(l, steps[0].op, steps[0].choices);
      RunIntact(PollLazy(l, steps[0].op, steps[0].choices).0, steps[1..]);
    }
  }

  lemma {:induction false} RunEffect(l: Lazy, steps: seq<Step>, handshake: seq<byte>, before: seq<byte>)
    requires Valid(l.stream) && Whole(l, handshake, before) && Intact(Run(l, steps).0.stream)
    ensures var (l', acked, shut) := Run(l, steps);
            && Valid(l'.stream) && Whole(l', handshake, before + acked)
            && (Shut(l'.stream) <==> Shut(l.stream) || shut)
    decreases |steps|
  {
    hide PollLazy, Intact, Valid, Whole, Shut;
    if steps == [] {
      assert before + [] == before;
    } else {
      var (l1, p, _) := PollLazy(l, steps[0].op, steps[0].choices);
      RunIntact(l1, steps[1..]);
      LazyEffect(l, steps[0].op, steps[0].choices, handshake, before);
      RunEffect(l1, steps[1..], handshake, before + Acked(steps[0].op, p));
      Assoc(before, Acked(steps[0].op, p), Run(l1, steps[1..]).1);
    }
  }

  /** The connection at the end of the chain, once no level is early or replaying. */
  function Accepting(s: Stream): Option<Conn> {
    match s
    case Plain(c) => Some(c)
    case Early0(inner, _, _, Settled, _) => Accepting(inner)
    case _ => None
  }

  lemma {:induction false} AcceptingTook(s: Stream)
    requires Accepting(s).Some?
    ensures Accepting(s) == Some(Conn(Log(s), Shut(s)))
  {
    if s.Early0? {
      AcceptingTook(s.inner);
    }
  }

  lemma FreshIsValid(early: bool)
    ensures Valid(Fresh(early)) && Log(Fresh(early)) == [] && !Shut(Fresh(early))
  {
  }

  /** Exactly once and in order: after any schedule of polls, verdicts, partial writes and nested
      replays that succeed, the connection that finally accepts has taken the handshake and then the
      acknowledged bytes, short only of the handshake bytes no write has pushed out yet, and is shut
      down exactly when a shutdown was acknowledged. It has everything if and only if no handshake
      bytes are left. */
  lemma DeliveredExactlyOnce(early: bool, handshake: seq<byte>, steps: seq<Step>)
    requires Intact(Run(Lazy(Fresh(early), Some(handshake)), steps).0.stream)
    requires Accepting(Run(Lazy(Fresh(early), Some(handshake)), steps).0.stream).Some?
    ensures var (l, acked, shut) := Run(Lazy(Fresh(early), Some(handshake)), steps);
            var conn := Accepting(l.stream).value;
            && conn.shut == shut
            && conn.got <= handshake + acked
            && (l.handshake.None? ==> conn.got == handshake + acked)
            && (l.handshake.Some? ==> acked == [] && conn.got + l.handshake.value == handshake)
            && (conn.got == handshake + acked <==> l.handshake == None || l.handshake == Some([]))
  {
    hide PollLazy, Run, Intact, Valid;
    var start := Lazy(Fresh(early), Some(handshake));
    var (l, acked, shut) := Run(start, steps);
    assert [] + handshake == handshake && [] + acked == acked;
    FreshIsValid(early);
    RunEffect(start, steps, handshake, []);
    AcceptingTook(l.stream);
    assert handshake + [] == handshake;
  }

  /** No poll of the schedule answers with an error. */
  predicate NoError(l: Lazy, steps: seq<Step>)
    decreases |steps|
  {
    steps == [] ||
    var (l1, p, _) := PollLazy(l, steps[0].op, steps[0].choices);
    !p.Err? && NoError(l1, steps[1..])
  }

  lemma {:induction false} NoErrorIntact(l: Lazy, steps: seq<Step>, handshake: seq<byte>, before: seq<byte>)
    requires Valid(l.stream) && Intact(l.stream) && Whole(l, handshake, before) && NoError(l, steps)
    ensures Intact(Run(l, steps).0.stream)
    decreases |steps|
  {
    hide PollLazy, Intact, Valid, Whole, Shut;
    if steps != [] {
      var (l1, p, _) := PollLazy(l, steps[0].op, steps[0].choices);
      LazyLossIsReported(l, steps[0].op, steps[0].choices);
      LazyEffect(l, steps[0].op, steps[0].choices, handshake, before);
      NoErrorIntact(l1, steps[1..], handshake, before + Acked(steps[0].op, p));
    }
  }

  /** So a caller that has seen no error has lost nothing: in every schedule no poll of which answers
      with one, the connection that finally accepts has the handshake and the acknowledged bytes as
      above, and all of them once a byte is acknowledged. */
  lemma WithoutErrorAllIsDelivered(early: bool, handshake: seq<byte>, steps: seq<Step>)
    requires NoError(Lazy(Fresh(early), Some(handshake)), steps)
    requires Accepting(Run(Lazy(Fresh(early), Some(handshake)), steps).0.stream).Some?
    ensures var (l, acked, shut) := Run(Lazy(Fresh(early), Some(handshake)), steps);
            var conn := Accepting(l.stream).value;
            && Intact(l.stream)
            && conn.shut == shut
            && (l.handshake.None? ==> conn.got == handshake + acked)
            && (l.handshake.Some? ==> acked == [] && conn.got + l.handshake.value == handshake)
            && (acked != [] ==> conn == Conn(handshake + acked, shut))
  {
    hide PollLazy, Run, Valid, NoError;
    var start := Lazy(Fresh(early), Some(handshake));
    assert [] + handshake == handshake;
    FreshIsValid(early);
    NoErrorIntact(start, steps, handshake, []);
    DeliveredExactlyOnce(early, handshake, steps);
  }

  /** A failed replay is such an error, and it does lose: a write is acknowledged, the server rejects
      0-RTT, no new connection opens, and the stream settles on the rejected connection, the only one
      that ever took the bytes. */
  lemma FailedReplayLosesTheRecord(buf: seq<byte>)
    requires 0 < |buf| <= ZERO_RTT_REPLAY_LIMIT
    ensures var write := Step(Write(buf), [Wait, Take(|buf|)]);
            var rejected := Step(Flush, [Verdict(false), Fail]);
            var start := Lazy(Fresh(true), Some([]));
            var (l, acked, _) := Run(start, [write, rejected]);
            && acked == buf && !NoError(start, [write, rejected])
            && l == Lazy(Early0(Plain(Conn(buf, false)), [], false, Settled, true), None)
            && !Intact(l.stream)
  {
    hide PollReplay, AfterEarly;
    var write := Step(Write(buf), [Wait, Take(|buf|)]);
    var rejected := Step(Flush, [Verdict(false), Fail]);
    var start := Lazy(Fresh(true), Some([]));
    var written := Lazy(Early0(Plain(Conn(buf, false)), buf, false, Early, false), None);
    var lost := Lazy(Early0(Plain(Conn(buf, false)), [], false, Settled, true), None);
    EarlyWriteTaken(buf);
    assert PollLazy(start, Write(buf), write.choices) == (written, Ready(|buf|), []);
    RejectedWithoutConnection(written.stream, buf);
    assert PollLazy(written, Flush, rejected.choices) == (lost, Err, []);
    assert [write, rejected][1..] == [rejected] && [rejected][1..] == [];
    assert Run(lost, []) == (lost, [], false);
    assert Acked(Flush, Err) + [] == [];
    assert Run(written, [rejected]) == (lost, [], false);
    assert buf[..|buf|] == buf && buf + [] == buf;
  }

  lemma EarlyWriteTaken(buf: seq<byte>)
    requires 0 < |buf| <= ZERO_RTT_REPLAY_LIMIT
    ensures PollOp(Fresh(true), Write(buf), [Wait, Take(|buf|)])
         == (Early0(Plain(Conn(buf, false)), buf, false, Early, false), Ready(|buf|), [])
  {
    hide PollReplay, AfterEarly;
    assert [Wait, Take(|buf|)][1..] == [Take(|buf|)] && [Take(|buf|)][1..] == [];
    assert buf[..|buf|] == buf && [] + buf == buf;
    var taken := PollOp(Plain(Conn([], false)), Write(buf), [Take(|buf|)]);
    assert taken == (Plain(Conn(buf, false)), Ready(|buf|), []);
  }

  lemma RejectedWithoutConnection(z: Stream, buf: seq<byte>)
    requires z == Early0(Plain(Conn(buf, false)), buf, false, Early, false)
    ensures PollOp(z, Flush, [Verdict(false), Fail])
         == (z.(sent := [], phase := Settled, lost := true), Err, [])
  {
    assert [Verdict(false), Fail][1..] == [Fail] && [Fail][1..] == [];
    var r := Connecting(buf, false);
    assert PollReplay(r, [Fail]) == (r, None, true, []);
    var resolved := Resolve(z, false);
    assert PollSettled(resolved, [Fail]) == (resolved.(phase := Settled, lost := true), Err, []);
  }

  /** While early, the record kept for a replay is everything acknowledged so far, and at most 64 KiB. */
  lemma RecordIsComplete(early: bool, handshake: seq<byte>, steps: seq<Step>)
    requires var s := Run(Lazy(Fresh(early), Some(handshake)), steps).0.stream;
             s.Early0? && s.phase == Early && Intact(s)
    ensures var (l, acked, shut) := Run(Lazy(Fresh(early), Some(handshake)), steps);
            && |l.stream.sent| <= ZERO_RTT_REPLAY_LIMIT
            && l.stream.shutdown == shut
            && l.stream.sent + HeldBack(l) == handshake + acked
  {
    hide PollLazy, Run;
    var start := Lazy(Fresh(early), Some(handshake));
    assert [] + handshake == handshake && [] + Run(start, steps).1 == Run(start, steps).1;
    RunEffect(start, steps, handshake, []);
    assert handshake + [] == handshake;
    assert Log(Run(start, steps).0.stream) + [] == Log(Run(start, steps).0.stream);
  }

  // ─── Replays get through ────────────────────────────────────────────────────

  /** A connection that takes at least one byte whenever it is asked. */
  predicate Generous(o: Oracle) {
    forall i :: 0 <= i < |o| ==> o[i].Take? && o[i].n > 0
  }

  /** Whatever parts a generous connection takes the bytes in, writing and finishing complete in one
      poll that has an answer for each byte and one for the end; `left` are the answers not used. */
  lemma {:induction false} WritingCompletes(got: seq<byte>, todo: seq<byte>, finish: bool, o: Oracle)
    returns (left: Oracle)
    requires Generous(o) && |o| > |todo|
    ensures var (_, done, failed, rest) := PollReplay(Writing(Plain(Conn(got, false)), todo, finish), o);
            !failed && done == Some(Plain(Conn(got + todo, finish))) && rest == left
    ensures Generous(left) && |left| >= |o| - |todo| - 1
    decreases |todo|
  {
    hide AfterEarly, PollSettled;
    var to := Plain(Conn(got, false));
    if todo == [] {
      assert got + todo == got;
      left := o[1..];
      FinishingCompletes(got, finish, o);
      assert PollReplay(Writing(to, todo, finish), o) == PollReplay(Finishing(to, finish), o);
    } else {
      var k := Min(o[0].n, |todo|);
      var next := Plain(Conn(got + todo[..k], false));
      TakesPart(got, todo, o);
      left := WritingCompletes(got + todo[..k], todo[k..], finish, o[1..]);
      Assoc(got, todo[..k], todo[k..]);
      Split(todo, k);
      assert PollReplay(Writing(to, todo, finish), o) == PollReplay(Writing(next, todo[k..], finish), o[1..]);
    }
  }

  lemma TakesPart(got: seq<byte>, todo: seq<byte>, o: Oracle)
    requires Generous(o) && o != [] && todo != []
    ensures var k := Min(o[0].n, |todo|);
            k > 0 && PollOp(Plain(Conn(got, false)), Write(todo), o)
                     == (Plain(Conn(got + todo[..k], false)), Ready(k), o[1..])
  {
  }

  lemma FinishingCompletes(got: seq<byte>, finish: bool, o: Oracle)
    requires Generous(o) && o != []
    ensures var (_, done, failed, rest) := PollReplay(Finishing(Plain(Conn(got, false)), finish), o);
            !failed && done == Some(Plain(Conn(got, finish))) && rest == o[1..]
  {
    hide AfterEarly, PollSettled;
  }

  /** A rejected stream does get through: once a connection opens that takes its bytes in whatever parts,
      the replay ends on a stream that has taken the whole record, and the shutdown if there was one. */
  lemma ReplayCompletes(record: seq<byte>, finish: bool, o: Oracle) returns (left: Oracle)
    requires Generous(o) && |o| > |record|
    ensures var (_, done, failed, rest) := PollReplay(Connecting(record, finish), [Opened(false)] + o);
            !failed && done == Some(Plain(Conn(record, finish))) && rest == left
    ensures Generous(left) && |left| >= |o| - |record| - 1
  {
    hide AfterEarly, PollSettled, PollOp;
    assert ([Opened(false)] + o)[1..] == o;
    assert [] + record == record;
    left := WritingCompletes([], record, finish, o);
    assert PollReplay(Connecting(record, finish), [Opened(false)] + o)
        == PollReplay(Writing(Fresh(false), record, finish), o);
  }

  // ─── After the verdict polls get through ────────────────────────────────────

  /** Some level of the chain has recorded a shutdown as done. */
  predicate ShutDone(s: Stream) {
    s.Early0? && (s.shutdown || (s.phase == Settled && ShutDone(s.inner)))
  }

  /** Once no level is early or replaying, a poll is a poll of the connection at the end of the
      chain, at any nesting: it answers what that answers, uses up what that uses up, and leaves that
      connection as the poll does. Only a shutdown already acknowledged is not passed on. */
  lemma {:induction false} SettledIsConn(s: Stream, op: Op, o: Oracle)
    requires Accepting(s).Some? && !(op.Shutdown? && ShutDone(s))
    ensures var (s', p, o') := PollOp(s, op, o);
            var (c, q, rest) := PollConn(Accepting(s).value, op, o);
            p == q && o' == rest && Accepting(s') == Some(c) && ShutDone(s') == ShutDone(s)
    decreases s
  {
    if s.Early0? {
      hide PollReplay;
      assert PollSettled(s, o) == (s, Ready(0), o);
      SettledIsConn(s.inner, op, o);
      var (inner, p, o') := PollOp(s.inner, op, o);
      assert AfterEarly(s, op, o) == (s.(inner := inner), p, o');
    }
  }

  lemma {:induction false} ShutdownIsNotRepeated(s: Stream, o: Oracle)
    requires Accepting(s).Some? && ShutDone(s)
    ensures PollOp(s, Shutdown, o) == (s, Ready(0), o)
    decreases s
  {
    hide PollReplay;
    assert PollSettled(s, o) == (s, Ready(0), o);
    if !s.shutdown {
      ShutdownIsNotRepeated(s.inner, o);
    }
  }

  /** The same for the poll that brings the verdict, when it accepts. */
  lemma AcceptedIsConn(s: Stream, op: Op, o: Oracle)
    requires s.Early0? && s.phase == Early && Valid(s) && !(op.Shutdown? && s.shutdown)
    ensures var (s', p, o') := PollOp(s, op, [Verdict(true)] + o);
            var (c, q, rest) := PollConn(s.inner.conn, op, o);
            p == q && o' == rest && Accepting(s') == Some(c)
  {
    hide PollReplay, AfterEarly;
    assert ([Verdict(true)] + o)[1..] == o;
    var z := Resolve(s, true);
    assert PollOp(s, op, [Verdict(true)] + o) == AfterEarly(z, op, o);
    SettledIsConn(z, op, o);
    assert PollOp(z, op, o) == AfterEarly(z, op, o);
  }

  /** Before the verdict the connection's own answer is passed on, but an error is withheld; and a
      write that would outgrow the record waits. */
  lemma EarlyIsConn(s: Stream, op: Op, o: Oracle)
    requires s.Early0? && s.phase == Early && Valid(s) && o != [] && !o[0].Verdict?
    ensures var (s', p, _) := PollOp(s, op, o);
            var fits := op.Write? ==> |s.sent| + |op.buf| <= ZERO_RTT_REPLAY_LIMIT;
            var q := PollConn(s.inner.conn, op, o[1..]).1;
            p == (if !fits || q.Err? then Pending else q) && s'.Early0? && s'.phase == Early
  {
    hide AfterEarly, PollSettled, PollReplay;
  }

  lemma GenerousTakes(c: Conn, buf: seq<byte>, o: Oracle)
    requires Generous(o) && o != [] && buf != [] && !c.shut
    ensures var (c', p, rest) := PollConn(c, Write(buf), o);
            p == Ready(Min(o[0].n, |buf|)) && 0 < p.n <= |buf| && rest == o[1..] && !c'.shut && Generous(rest)
  {
  }

  /** A write on a settled stream that is not shut down gets through. */
  lemma SettledWriteTakes(s: Stream, buf: seq<byte>, o: Oracle)
    requires Accepting(s).Some? && !Accepting(s).value.shut && Generous(o) && o != [] && buf != []
    ensures var (s', p, rest) := PollOp(s, Write(buf), o);
            && p.Ready? && 0 < p.n <= |buf|
            && Accepting(s').Some? && !Accepting(s').value.shut
            && rest == o[1..] && Generous(rest)
  {
    hide PollOp, PollConn;
    SettledIsConn(s, Write(buf), o);
    GenerousTakes(Accepting(s).value, buf, o);
  }

  /** So does one under the lazy handshake, or it gets on with the handshake. */
  lemma LazyWriteTakes(l: Lazy, buf: seq<byte>, o: Oracle)
    requires Accepting(l.stream).Some? && !Accepting(l.stream).value.shut
    requires Generous(o) && |o| >= 2 && buf != []
    ensures var (l', p, _) := PollLazy(l, Write(buf), o);
            && Accepting(l'.stream).Some? && !Accepting(l'.stream).value.shut
            && ((p.Ready? && 0 < p.n <= |buf|) || (p == Pending && |HeldBack(l')| < |HeldBack(l)|))
  {
    hide PollOp;
    if l.handshake.None? {
      SettledWriteTakes(l.stream, buf, o);
    } else {
      var h := l.handshake.value;
      var slice := if l.stream.Plain? then h + buf else if h != [] then h else buf;
      SettledWriteTakes(l.stream, slice, o);
      var (s, p, rest) := PollOp(l.stream, Write(slice), o);
      SettledWriteTakes(s, buf, rest);
    }
  }

  /** Over schedules: once the verdict is settled and as long as the stream is not shut down,
      writing something often enough, once for each byte of the handshake still held back and once
      more, on connections that take something each time, gets a byte acknowledged. */
  lemma {:induction false} WritesGetThrough(l: Lazy, steps: seq<Step>)
    requires Accepting(l.stream).Some? && !Accepting(l.stream).value.shut && |steps| > |HeldBack(l)|
    requires forall i :: 0 <= i < |steps| ==>
               && steps[i].op.Write? && steps[i].op.buf != []
               && Generous(steps[i].choices) && |steps[i].choices| >= 2
    ensures Run(l, steps).1 != []
    decreases |steps|
  {
    hide PollLazy;
    LazyWriteTakes(l, steps[0].op.buf, steps[0].choices);
    var (l1, p, _) := PollLazy(l, steps[0].op, steps[0].choices);
    if p.Ready? {
      assert |Acked(steps[0].op, p)| > 0;
    } else {
      WritesGetThrough(l1, steps[1..]);
    }
  }

  /** A rejected stream gets through as well: one poll that brings the rejection, a new connection and
      enough answers replays the record and acknowledges part of the write. */
  lemma RejectedWriteGetsThrough(s: Stream, buf: seq<byte>, o: Oracle)
    requires s.Early0? && s.phase == Early && Valid(s) && !s.shutdown && buf != []
    requires Generous(o) && |o| > |s.sent| + 1
    ensures var (s', p, _) := PollOp(s, Write(buf), [Verdict(false), Opened(false)] + o);
            p.Ready? && 0 < p.n <= |buf| && Accepting(s') == Some(Conn(s.sent + buf[..p.n], false))
  {
    hide PollReplay, AfterEarly;
    var all := [Verdict(false), Opened(false)] + o;
    assert all[1..] == [Opened(false)] + o;
    var z := Resolve(s, false);
    assert PollOp(s, Write(buf), all) == AfterEarly(z, Write(buf), [Opened(false)] + o);
    var left := ReplayCompletes(s.sent, false, o);
    var settled := z.(phase := Settled, inner := Plain(Conn(s.sent, false)));
    assert PollSettled(z, [Opened(false)] + o) == (settled, Ready(0), left);
    AfterSettled(z, settled, Write(buf), [Opened(false)] + o, left);
    assert Accepting(settled) == Accepting(settled.inner) == Some(Conn(s.sent, false));
    SettledIsConn(settled, Write(buf), left);
    GenerousTakes(Conn(s.sent, false), buf, left);
  }

  lemma AfterSettled(z: Stream, settled: Stream, op: Op, o: Oracle, left: Oracle)
    requires z.Early0? && settled.Early0? && settled.phase == Settled && op.Write?
    requires PollSettled(z, o) == (settled, Ready(0), left)
    ensures AfterEarly(z, op, o) == PollOp(settled, op, left)
  {
    hide PollReplay;
    assert PollSettled(settled, left) == (settled, Ready(0), left);
    assert PollOp(settled, op, left) == AfterEarly(settled, op, left);
  }

  // ─── Without a write nothing is sent ────────────────────────────────────────

  /** No connection of the stream has taken a byte, and no replay has one to send. */
  predicate Silent(s: Stream) {
    match s
    case Plain(c) => c.got == []
    case Early0(inner, sent, _, phase, _) =>
      Silent(inner) && sent == [] && (phase.Replaying? ==> ReplaySilent(phase.replay))
  }

  predicate ReplaySilent(r: Replay) {
    (!r.Finishing? ==> r.todo == []) && (!r.Connecting? ==> Silent(r.to))
  }

  lemma {:induction false} OpSilent(s: Stream, op: Op, o: Oracle)
    requires Silent(s) && !op.Write?
    ensures Silent(PollOp(s, op, o).0)
    decreases |o|, Size(s), 5
  {
    if s.Early0? {
      if s.phase != Early {
        AfterSilent(s, op, o);
      } else if Next(o).0.Verdict? {
        AfterSilent(Resolve(s, Next(o).0.accepted), op, Next(o).1);
      } else {
        OpSilent(s.inner, op, Next(o).1);
      }
    }
  }

  lemma {:induction false} AfterSilent(z: Stream, op: Op, o: Oracle)
    requires z.Early0? && Silent(z) && !op.Write?
    ensures Silent(AfterEarly(z, op, o).0)
    decreases |o|, Size(z), 4
  {
    SettledSilent(z, o);
    var (z', p, o') := PollSettled(z, o);
    if p.Ready? && !(op.Shutdown? && z'.shutdown) {
      OpSilent(z'.inner, op, o');
    }
  }

  lemma {:induction false} SettledSilent(z: Stream, o: Oracle)
    requires z.Early0? && Silent(z)
    ensures Silent(PollSettled(z, o).0)
    decreases |o|, Size(z), 3
  {
    if z.phase == Early && Next(o).0.Verdict? {
      SettledSilent(Resolve(z, Next(o).0.accepted), Next(o).1);
    } else if z.phase.Replaying? {
      ReplayStaysSilent(z.phase.replay, o);
    }
  }

  lemma {:induction false} ReplayStaysSilent(r: Replay, o: Oracle)
    requires ReplaySilent(r)
    ensures var (r', done, _, _) := PollReplay(r, o);
            ReplaySilent(r') && (done.Some? ==> Silent(done.value))
    decreases |o|, ReplaySize(r), Stage(r)
  {
    match r
    case Connecting(todo, finish) =>
      if Next(o).0.Opened? {
        ReplayStaysSilent(Writing(Fresh(Next(o).0.early), todo, finish), Next(o).1);
      }
    case Writing(to, todo, finish) => ReplayStaysSilent(Finishing(to, finish), o);
    case Finishing(to, finish) => OpSilent(to, if finish then Shutdown else Flush, o);
  }

  predicate NoWrite(steps: seq<Step>) {
    forall i :: 0 <= i < |steps| ==> !steps[i].op.Write?
  }

  lemma {:induction false} RunSilent(l: Lazy, steps: seq<Step>)
    requires NoWrite(steps) && Silent(l.stream)
    ensures var (l', acked, _) := Run(l, steps); Silent(l'.stream) && l'.handshake == l.handshake && acked == []
    decreases |steps|
  {
    hide PollOp, Silent;
    if steps != [] {
      assert !steps[0].op.Write?;
      OpSilent(l.stream, steps[0].op, steps[0].choices);
      assert NoWrite(steps[1..]) by {
        assert forall i :: 0 <= i < |steps| - 1 ==> steps[1..][i] == steps[i + 1];
      }
      RunSilent(PollLazy(l, steps[0].op, steps[0].choices).0, steps[1..]);
    }
  }

  lemma {:induction false} SilentAccepting(s: Stream)
    requires Silent(s) && Accepting(s).Some?
    ensures Accepting(s).value.got == []
  {
    if s.Early0? {
      SilentAccepting(s.inner);
    }
  }

  /** In every schedule without a write, whatever flushes, shutdowns, reads, verdicts and replays it
      holds, the handshake is still held back and the accepting connection has taken nothing. */
  lemma WithoutWriteNothingIsSent(early: bool, handshake: seq<byte>, steps: seq<Step>)
    requires NoWrite(steps)
    ensures var (l, acked, _) := Run(Lazy(Fresh(early), Some(handshake)), steps);
            && l.handshake == Some(handshake) && acked == []
            && (Accepting(l.stream).Some? ==> Accepting(l.stream).value.got == [])
  {
    hide Run;
    RunSilent(Lazy(Fresh(early), Some(handshake)), steps);
    var l := Run(Lazy(Fresh(early), Some(handshake)), steps).0;
    if Accepting(l.stream).Some? {
      SilentAccepting(l.stream);
    }
  }

  /** And in every schedule with an acknowledged byte everything arrives. */
  lemma AcknowledgedByteBringsTheHandshake(early: bool, handshake: seq<byte>, steps: seq<Step>)
    requires var (l, acked, _) := Run(Lazy(Fresh(early), Some(handshake)), steps);
             Intact(l.stream) && Accepting(l.stream).Some? && acked != []
    ensures var (l, acked, shut) := Run(Lazy(Fresh(early), Some(handshake)), steps);
            Accepting(l.stream) == Some(Conn(handshake + acked, shut))
  {
    hide Run;
    DeliveredExactlyOnce(early, handshake, steps);
  }

  // ─── The objects ────────────────────────────────────────────────────────────

  class ZeroRttStream {
    var inner: Stream
    var sent: seq<byte>
    var shutdown: bool
    var phase: Phase
    ghost var lost: bool

    constructor (stream: Stream)
      ensures Value() == Early0(stream, [], false, Early, false)
    {
      inner, sent, shutdown, phase, lost := stream, [], false, Early, false;
    }

    ghost function Value(): Stream
      reads this
    {
      Early0(inner, sent, shutdown, phase, lost)
    }

    method ResolveWith(accepted: bool)
      requires phase == Early
      modifies this
      ensures Value() == Resolve(old(Value()), accepted)
    {
      var record := sent;
      sent := [];
      if accepted {
        phase := Settled;
        return;
      }
      phase := Replaying(Connecting(record, shutdown));
    }

    method Settle(o: Oracle) returns (p: Poll, rest: Oracle)
      modifies this
      ensures (Value(), p, rest) == PollSettled(old(Value()), o)
    {
      rest := o;
      while true
        invariant PollSettled(Value(), rest) == PollSettled(old(Value()), o)
        decreases |rest|
      {
        match phase {
          case Settled =>
            return Ready(0), rest;
          case Early =>
            var (choice, after) := Next(rest);
            rest := after;
            if !choice.Verdict? {
              return Pending, rest;
            }
            ResolveWith(choice.accepted);
          case Replaying(replay) =>
            var (r, done, failed, after) := PollReplay(replay, rest);
            rest := after;
            if done.None? && !failed {
              phase := Replaying(r);
              return Pending, rest;
            }
            phase := Settled;
            if done.None? {
              lost := true;
              return Err, rest;
            }
            inner := done.value;
            return Ready(0), rest;
        }
      }
    }

    /** The end of the early phase: settle, then hand the operation to the stream in use. */
    method Late(op: Op, o: Oracle) returns (p: Poll, rest: Oracle)
      modifies this
      ensures (Value(), p, rest) == AfterEarly(old(Value()), op, o)
    {
      p, rest := Settle(o);
      if p.Ready? {
        if op.Shutdown? && shutdown {
          return Ready(0), rest;
        }
        var (inner', p', rest') := PollOp(inner, op, rest);
        inner, p, rest := inner', p', rest';
      }
    }

    method PollEarly(o: Oracle) returns (over: bool, rest: Oracle)
      modifies this
      ensures old(phase) != Early ==> over && rest == o && Value() == old(Value())
      ensures old(phase) == Early ==> rest == Next(o).1 && (over <==> Next(o).0.Verdict?)
      ensures old(phase) == Early ==>
                Value() == if over then Resolve(old(Value()), Next(o).0.accepted) else old(Value())
    {
      if phase != Early {
        return true, o;
      }
      var (choice, after) := Next(o);
      over, rest := choice.Verdict?, after;
      if over {
        ResolveWith(choice.accepted);
      }
    }

    method PollWrite(buf: seq<byte>, o: Oracle) returns (p: Poll, rest: Oracle)
      modifies this
      ensures (Value(), p, rest) == PollOp(old(Value()), Write(buf), o)
    {
      hide PollSettled, PollReplay;
      var over;
      over, rest := PollEarly(o);
      if over {
        p, rest := Late(Write(buf), rest);
      } else if |sent| + |buf| > ZERO_RTT_REPLAY_LIMIT {
        p := Pending;
      } else {
        var (inner', p', rest') := PollOp(inner, Write(buf), rest);
        inner, rest := inner', rest';
        if p'.Ready? {
          sent := sent + buf[..p'.n];
          p := p';
        } else {
          p := Pending;
        }
      }
    }

    method PollFlush(o: Oracle) returns (p: Poll, rest: Oracle)
      modifies this
      ensures (Value(), p, rest) == PollOp(old(Value()), Flush, o)
    {
      hide PollSettled, PollReplay;
      var over;
      over, rest := PollEarly(o);
      if over {
        p, rest := Late(Flush, rest);
      } else {
        var (inner', p', rest') := PollOp(inner, Flush, rest);
        inner, p, rest := inner', if p'.Err? then Pending else p', rest';
      }
    }

    method PollRead(o: Oracle) returns (p: Poll, rest: Oracle)
      modifies this
      ensures (Value(), p, rest) == PollOp(old(Value()), Read, o)
    {
      hide PollSettled, PollReplay;
      var over;
      over, rest := PollEarly(o);
      if over {
        p, rest := Late(Read, rest);
      } else {
        var (inner', p', rest') := PollOp(inner, Read, rest);
        inner, p, rest := inner', if p'.Err? then Pending else p', rest';
      }
    }

    method PollShutdown(o: Oracle) returns (p: Poll, rest: Oracle)
      modifies this
      ensures (Value(), p, rest) == PollOp(old(Value()), Shutdown, o)
    {
      hide PollSettled, PollReplay;
      var over;
      over, rest := PollEarly(o);
      if over {
        p, rest := Late(Shutdown, rest);
      } else {
        var (inner', p', rest') := PollOp(inner, Shutdown, rest);
        inner, rest := inner', rest';
        if p'.Ready? {
          shutdown := true;
          p := p';
        } else {
          p := Pending;
        }
      }
    }
  }

  class LazyHandshakeStream {
    var stream: Stream
    var handshake: Option<seq<byte>>

    constructor (stream: Stream, handshake: seq<byte>)
      ensures Value() == Lazy(stream, Some(handshake))
    {
      this.stream, this.handshake := stream, Some(handshake);
    }

    function Value(): Lazy
      reads this
    {
      Lazy(stream, handshake)
    }

    method PollWrite(buf: seq<byte>, o: Oracle) returns (p: Poll, rest: Oracle)
      modifies this
      ensures (Value(), p, rest) == PollLazy(old(Value()), Write(buf), o)
    {
      hide PollOp;
      if handshake.None? {
        var (stream', p', rest') := PollOp(stream, Write(buf), o);
        stream := stream';
        return p', rest';
      }
      var data := handshake.value;
      var (stream', p', rest') := PollVectored(stream, data, buf, o);
      stream := stream';
      if !p'.Ready? {
        assert Value() == Lazy(stream', Some(data));
        return p', rest';
      }
      if p'.n == 0 {
        return Ready(0), rest';
      }
      if p'.n >= |data| {
        handshake := None;
        if p'.n == |data| && buf != [] {
          var (stream'', p'', rest'') := PollOp(stream, Write(buf), rest');
          stream := stream'';
          return p'', rest'';
        }
        return Ready(p'.n - |data|), rest';
      }
      handshake := Some(data[p'.n..]);
      return Pending, rest';
    }

    /** Reading, flushing and shutting down go straight to the stream. */
    method PollThrough(op: Op, o: Oracle) returns (p: Poll, rest: Oracle)
      requires !op.Write?
      modifies this`stream
      ensures (Value(), p, rest) == PollLazy(old(Value()), op, o)
    {
      hide PollOp;
      var (stream', p', rest') := PollOp(stream, op, o);
      stream := stream';
      return p', rest';
    }
  }
}
