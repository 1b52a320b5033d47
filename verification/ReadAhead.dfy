/** Read-ahead buffering (src/utils/read_ahead.rs): the loop under every framed reader. */
module ReadAhead {
  import opened Wire

  const READ_AHEAD := 16 * 1024

  /** What the transport answers to one poll. A chunk without bytes is the end of the stream. */
  datatype Arrival = NotReady | Chunk(data: seq<byte>) | Broken

  /** The polls still to come, in order; when it runs out the transport is not ready. */
  type Script = seq<Arrival>

  /** One `poll_read` offering `room` free bytes; a longer chunk is handed out in parts. */
  function Read(script: Script, room: nat): (Arrival, Script)
    requires room > 0
  {
    if script == [] then (NotReady, script)
    else match script[0]
      case Chunk(data) =>
        if |data| <= room then (Chunk(data), script[1..])
        else (Chunk(data[..room]), [Chunk(data[room..])] + script[1..])
      case a => (a, script[1..])
  }

  /** All bytes a script will ever yield. */
  function Content(script: Script): seq<byte> {
    if script == [] then []
    else (if script[0].Chunk? then script[0].data else []) + Content(script[1..])
  }

  datatype Outcome = Pending | Filled | CleanEof | Failed

  datatype FillResult = FillResult(outcome: Outcome, script: Script, buf: seq<byte>)

  /** `poll_fill`: keep reading until `buf` holds `count` bytes. */
  function Fill(script: Script, buf: seq<byte>, count: nat, allowEof: bool): FillResult
    decreases if |buf| < count then count - |buf| else 0
  {
    if |buf| >= count then FillResult(Filled, script, buf)
    else
      var (a, rest) := Read(script, Max(READ_AHEAD, count - |buf|));
      match a
      case NotReady => FillResult(Pending, rest, buf)
      case Broken => FillResult(Failed, rest, buf)
      case Chunk(data) =>
        if data == [] then FillResult(if allowEof && buf == [] then CleanEof else Failed, rest, buf)
        else Fill(rest, buf + data, count, allowEof)
  }

  lemma {:induction false} ContentAppend(a: Script, b: Script)
    ensures Content(a + b) == Content(a) + Content(b)
  {
    if a == [] {
      assert a + b == b;
    } else {
      assert (a + b)[1..] == a[1..] + b;
      ContentAppend(a[1..], b);
      Assoc(if a[0].Chunk? then a[0].data else [], Content(a[1..]), Content(b));
    }
  }

  lemma ReadConserves(script: Script, room: nat)
    requires room > 0
    ensures var (a, rest) := Read(script, room);
            (if a.Chunk? then a.data else []) + Content(rest) == Content(script)
  {
    if script != [] && script[0].Chunk? && |script[0].data| > room {
      var data := script[0].data;
      var rest := [Chunk(data[room..])] + script[1..];
      assert rest[1..] == script[1..];
      assert Content(rest) == data[room..] + Content(script[1..]);
      Split(data, room);
      Assoc(data[..room], data[room..], Content(script[1..]));
    }
  }

  /** A read that stops early, whether pending, failed or cancelled afterwards, loses no byte:
      what left the transport is in the buffer, in order. */
  lemma {:induction false} FillConserves(script: Script, buf: seq<byte>, count: nat, allowEof: bool)
    ensures var r := Fill(script, buf, count, allowEof);
            && buf <= r.buf
            && r.buf + Content(r.script) == buf + Content(script)
            && (r.outcome == Filled <==> |r.buf| >= count)
            && (r.outcome == CleanEof ==> r.buf == [] && allowEof)
    decreases if |buf| < count then count - |buf| else 0
  {
    if |buf| < count {
      var room := Max(READ_AHEAD, count - |buf|);
      var (a, rest) := Read(script, room);
      ReadConserves(script, room);
      if a.Chunk? && a.data != [] {
        Assoc(buf, a.data, Content(rest));
        FillConserves(rest, buf + a.data, count, allowEof);
      }
    }
  }

  // ─── Waiting, ending and failing ────────────────────────────────────────────

  /** Why a transport stops handing out bytes. */
  datatype Stop = Idle | End | Break

  /** The bytes a transport hands out before it first stops, however they are cut up. */
  function Ahead(script: Script): seq<byte> {
    if script == [] || !script[0].Chunk? || script[0].data == [] then [] else script[0].data + Ahead(script[1..])
  }

  function StopOf(script: Script): Stop {
    if script == [] then Idle
    else match script[0]
      case NotReady => Idle
      case Broken => Break
      case Chunk(data) => if data == [] then End else StopOf(script[1..])
  }

  lemma ReadAheadOf(script: Script, room: nat)
    requires room > 0
    ensures var (a, rest) := Read(script, room);
            && (Ahead(script) == [] <==> !(a.Chunk? && a.data != []))
            && (a.Chunk? && a.data != [] ==>
                  Ahead(script) == a.data + Ahead(rest) && StopOf(script) == StopOf(rest))
            && (Ahead(script) == [] ==>
                  match StopOf(script) case Idle => a == NotReady case Break => a == Broken case End => a == Chunk([]))
  {
    if script != [] && script[0].Chunk? && |script[0].data| > room {
      var data := script[0].data;
      var rest := [Chunk(data[room..])] + script[1..];
      assert rest[1..] == script[1..];
      Split(data, room);
      Assoc(data[..room], data[room..], Ahead(script[1..]));
    }
  }

  /** What a fill answers is decided by the transport alone. It succeeds if and only if enough bytes
      come before the transport first stops; otherwise it has taken all of them, and waits if and
      only if the transport is not ready, ends cleanly if and only if the transport ended where it
      may, before any byte, and fails if and only if it broke or ended anywhere else. */
  lemma {:induction false} FillAnswersIff(script: Script, buf: seq<byte>, count: nat, allowEof: bool)
    ensures var r := Fill(script, buf, count, allowEof);
            var enough := |buf + Ahead(script)| >= count;
            var clean := allowEof && buf == [] && Ahead(script) == [];
            && (r.outcome == Filled <==> enough)
            && (r.outcome == Pending <==> !enough && StopOf(script) == Idle)
            && (r.outcome == CleanEof <==> !enough && StopOf(script) == End && clean)
            && (r.outcome == Failed <==> !enough && (StopOf(script) == Break || (StopOf(script) == End && !clean)))
            && (!enough ==> r.buf == buf + Ahead(script))
            && (enough ==> r.buf + Ahead(r.script) == buf + Ahead(script) && StopOf(r.script) == StopOf(script))
    decreases if |buf| < count then count - |buf| else 0
  {
    hide Read, Ahead, StopOf;
    if |buf| < count {
      var room := Max(READ_AHEAD, count - |buf|);
      var (a, rest) := Read(script, room);
      ReadAheadOf(script, room);
      if a.Chunk? && a.data != [] {
        Assoc(buf, a.data, Ahead(rest));
        FillAnswersIff(rest, buf + a.data, count, allowEof);
      } else {
        assert buf + [] == buf;
      }
    }
  }

  /** A transport that only ever delivers bytes or is not ready. */
  predicate Calm(script: Script) {
    forall i :: 0 <= i < |script| ==> script[i] == NotReady || (script[i].Chunk? && script[i].data != [])
  }

  lemma {:induction false} CalmStop(script: Script)
    requires Calm(script)
    ensures StopOf(script) == Idle
  {
    if script != [] && script[0].Chunk? {
      CalmStop(script[1..]);
    }
  }

  lemma {:induction false} FillCalm(script: Script, buf: seq<byte>, count: nat, allowEof: bool)
    requires Calm(script)
    ensures Calm(Fill(script, buf, count, allowEof).script)
    decreases if |buf| < count then count - |buf| else 0
  {
    if |buf| < count {
      var (a, rest) := Read(script, Max(READ_AHEAD, count - |buf|));
      assert Calm(rest);
      if a.Chunk? && a.data != [] {
        FillCalm(rest, buf + a.data, count, allowEof);
      }
    }
  }

  /** The transport under a reader. */
  class ByteStream {
    var script: Script

    constructor (script: Script)
      ensures this.script == script
    {
      this.script := script;
    }

    method PollRead(room: nat) returns (a: Arrival)
      requires room > 0
      modifies this
      ensures (a, script) == Read(old(script), room)
    {
      if script == [] {
        return NotReady;
      }
      a := script[0];
      if a.Chunk? && |a.data| > room {
        script := [Chunk(a.data[room..])] + script[1..];
        a := Chunk(a.data[..room]);
      } else {
        script := script[1..];
      }
    }
  }

  method PollFill(stream: ByteStream, buf: seq<byte>, count: nat, allowEof: bool)
    returns (outcome: Outcome, out: seq<byte>)
    modifies stream
    ensures FillResult(outcome, stream.script, out) == Fill(old(stream.script), buf, count, allowEof)
  {
    out := buf;
    while |out| < count
      invariant Fill(stream.script, out, count, allowEof) == Fill(old(stream.script), buf, count, allowEof)
      decreases count - |out|
    {
      var a := stream.PollRead(Max(READ_AHEAD, count - |out|));
      match a {
        case NotReady => return Pending, out;
        case Broken => return Failed, out;
        case Chunk(data) =>
          if data == [] {
            return if allowEof && out == [] then CleanEof else Failed, out;
          }
          out := out + data;
      }
    }
    outcome := Filled;
  }
}
