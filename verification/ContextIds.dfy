/** UDP context ids (src/proxy/shadowquic_udp.rs, `get_send_context_id`): one counter for all the
    sessions of a connection, never recycled, and the check that leaves room for new sessions
    (src/proxy/outbound/shadowquic.rs, `open_udp_bistream_with_capacity`). */
module ContextIds {
  import opened Wire
  import opened TargetAddress

  const WRAP := 0x1_0000_0000
  const UDP_CONTEXT_ID_RECONNECT_MARGIN := 256
  const CAPACITY_LIMIT := 0xFFFF - UDP_CONTEXT_ID_RECONNECT_MARGIN

  /** One cell of one session's `sender_map`. */
  datatype Key = Key(session: nat, target: TargetAddr)

  /** `counter` is `next_context_id`; `fetched` are the cells being initialised, with the number they
      drew; `senders` are the cells that hold an id. `draws` counts the draws so far and `ticket` says
      which draw a cell got. */
  datatype State = State(counter: u32, fetched: map<Key, u32>, senders: map<Key, u16>,
                         draws: nat, ticket: map<Key, nat>)

  const START := State(1, map[], map[], 0, map[])

  /** A cell is initialised by one caller at a time: it draws a number, and then fails, because the
      number is no `u16` or the control stream broke, or keeps its id for good. */
  datatype Event = Fetch(key: Key) | Finish(key: Key, created: bool)

  predicate Can(s: State, e: Event) {
    match e
    case Fetch(key) => key !in s.fetched && key !in s.senders
    case Finish(key, _) => key in s.fetched
  }

  function Step(s: State, e: Event): State
    requires Can(s, e)
  {
    match e
    case Fetch(key) =>
      s.(counter := (s.counter + 1) % WRAP, fetched := s.fetched[key := s.counter],
         draws := s.draws + 1, ticket := s.ticket[key := s.draws + 1])
    case Finish(key, created) =>
      var id := s.fetched[key];
      s.(fetched := s.fetched - {key}, senders := if created && id <= 0xFFFF then s.senders[key := id] else s.senders)
  }

  predicate Runs(s: State, es: seq<Event>)
    decreases |es|
  {
    es == [] || (Can(s, es[0]) && Runs(Step(s, es[0]), es[1..]))
  }

  function After(s: State, es: seq<Event>): State
    requires Runs(s, es)
    decreases |es|
  {
    if es == [] then s else After(Step(s, es[0]), es[1..])
  }

  function Draws(es: seq<Event>): nat {
    if es == [] then 0 else (if es[0].Fetch? then 1 else 0) + Draws(es[1..])
  }

  /** The number a cell drew, being initialised or done. */
  function Number(s: State, key: Key): u32
    requires key in s.fetched || key in s.senders
  {
    if key in s.fetched then s.fetched[key] else s.senders[key]
  }

  predicate Ticketed(s: State, key: Key) {
    key in s.fetched || key in s.senders
  }

  ghost predicate Inv(s: State) {
    && s.counter == (s.draws + 1) % WRAP
    && (forall key :: key in s.fetched ==> key !in s.senders)
    && (forall key :: Ticketed(s, key) ==> key in s.ticket && Number(s, key) == s.ticket[key] % WRAP)
    && (forall key :: key in s.ticket ==> 1 <= s.ticket[key] <= s.draws)
    && (forall j, k :: j in s.ticket && k in s.ticket && j != k ==> s.ticket[j] != s.ticket[k])
  }

  lemma StepKeepsInv(s: State, e: Event)
    requires Inv(s) && Can(s, e)
    ensures Inv(Step(s, e))
  {
    var s' := Step(s, e);
    assert s'.counter == (s'.draws + 1) % WRAP by {
      if e.Fetch? {
        AddOneMod(s.draws + 1);
      }
    }
    forall key | Ticketed(s', key)
      ensures key in s'.ticket && Number(s', key) == s'.ticket[key] % WRAP
    {
      if key != e.key {
        assert Ticketed(s, key);
      } else if e.Finish? {
        assert Ticketed(s, key);
      }
    }
  }

  lemma AddOneMod(n: nat)
    ensures (n % WRAP + 1) % WRAP == (n + 1) % WRAP
  {
  }

  lemma {:induction false} RunKeepsInv(s: State, es: seq<Event>)
    requires Inv(s) && Runs(s, es)
    ensures Inv(After(s, es))
    ensures After(s, es).draws == s.draws + Draws(es)
    decreases |es|
  {
    hide Inv, Can;
    if es != [] {
      StepKeepsInv(s, es[0]);
      RunKeepsInv(Step(s, es[0]), es[1..]);
    }
  }

  /** In every run over all sessions of a connection, two cells share an id exactly when their draws
      are a whole number of counter wraps apart. Up to the first wrap the ids are pairwise
      distinct. */
  lemma IdsAreDistinct(es: seq<Event>, j: Key, k: Key)
    requires Runs(START, es) && j != k && j in After(START, es).senders && k in After(START, es).senders
    ensures var s := After(START, es);
            && j in s.ticket && k in s.ticket
            && (s.senders[j] == s.senders[k] <==> s.ticket[j] % WRAP == s.ticket[k] % WRAP)
            && (Draws(es) <= WRAP ==> s.senders[j] != s.senders[k])
  {
    hide After;
    RunKeepsInv(START, es);
    var s := After(START, es);
    assert Ticketed(s, j) && Ticketed(s, k);
    if s.draws <= WRAP {
      SmallMod(s.ticket[j], s.ticket[k]);
    }
  }

  lemma SmallMod(a: nat, b: nat)
    requires 1 <= a <= WRAP && 1 <= b <= WRAP && a != b
    ensures a % WRAP != b % WRAP
  {
  }

  /** The id of every single cell is the number of its draw, as far as the counter can tell. It lies
      in 1..65535 unless the draw is a multiple of the wrap, which gives the id 0; before the first
      wrap no draw is. */
  lemma IdsAreInRange(es: seq<Event>, key: Key)
    requires Runs(START, es) && key in After(START, es).senders
    ensures var s := After(START, es);
            && key in s.ticket && 1 <= s.ticket[key] <= Draws(es)
            && s.senders[key] == s.ticket[key] % WRAP
            && (1 <= s.senders[key] <= 0xFFFF <==> s.ticket[key] % WRAP != 0)
            && (Draws(es) < WRAP ==> s.senders[key] == s.ticket[key])
  {
    hide After;
    RunKeepsInv(START, es);
    var s := After(START, es);
    assert Ticketed(s, key);
    if s.draws < WRAP {
      NoWrap(s.ticket[key]);
    }
  }

  lemma NoWrap(a: nat)
    requires a < WRAP
    ensures a % WRAP == a
  {
  }

  /** What becomes of a cell that drew a number: it holds that number from then on if and only if the
      number is a `u16` and the control stream took it; otherwise it is empty and may draw again. No
      other cell changes. */
  lemma CellFilledIff(s: State, key: Key, created: bool)
    requires Inv(s) && Can(s, Finish(key, created))
    ensures var s' := Step(s, Finish(key, created));
            var n := s.fetched[key];
            && (key in s'.senders <==> created && n <= 0xFFFF) && (key in s'.senders ==> s'.senders[key] == n)
            && key !in s'.fetched && (key !in s'.senders ==> Can(s', Fetch(key)))
            && (forall k :: k != key ==> (k in s'.senders <==> k in s.senders) && (k in s'.fetched <==> k in s.fetched))
            && (forall k :: k != key && k in s.senders ==> s'.senders[k] == s.senders[k])
  {
  }

  /** A cell that holds an id keeps it. */
  lemma {:induction false} IdsAreStable(s: State, es: seq<Event>, key: Key)
    requires Runs(s, es) && key in s.senders && key !in s.fetched
    ensures key in After(s, es).senders && After(s, es).senders[key] == s.senders[key]
    decreases |es|
  {
    if es != [] {
      IdsAreStable(Step(s, es[0]), es[1..], key);
    }
  }

  /** How many more draws give an id that fits. */
  function Room(counter: u32): nat {
    if counter <= 0xFFFF then 0x1_0000 - counter else 0
  }

  /** Draws that stay within the room all give ids that fit; the first one beyond it does not. */
  lemma {:induction false} DrawsWithinRoomFit(s: State, es: seq<Event>)
    requires Runs(s, es) && Draws(es) <= Room(s.counter)
    requires forall key :: key in s.fetched ==> s.fetched[key] <= 0xFFFF
    ensures forall key :: key in After(s, es).fetched ==> After(s, es).fetched[key] <= 0xFFFF
    ensures After(s, es).counter == s.counter + Draws(es)
    decreases |es|
  {
    if es != [] {
      DrawsWithinRoomFit(Step(s, es[0]), es[1..]);
    }
  }

  lemma RoomIsExact(s: State, es: seq<Event>, key: Key)
    requires Runs(s, es) && Draws(es) == Room(s.counter) && s.counter <= 0xFFFF
    requires forall k :: k in s.fetched ==> s.fetched[k] <= 0xFFFF
    requires Can(After(s, es), Fetch(key))
    ensures Step(After(s, es), Fetch(key)).fetched[key] == 0x1_0000
    ensures var s' := Step(After(s, es), Fetch(key));
            forall created :: Step(s', Finish(key, created)).senders == s'.senders
  {
    DrawsWithinRoomFit(s, es);
  }

  /** `open_udp_bistream_with_capacity`: of two connections in turn, the first with enough room.
      `used[i]` is the counter read on the i-th. */
  method OpenWithCapacity(used: seq<u32>) returns (chosen: Option<nat>)
    requires |used| == 2
    ensures chosen.Some? ==> chosen.value < 2 && Room(used[chosen.value]) >= UDP_CONTEXT_ID_RECONNECT_MARGIN + 2
    ensures chosen.Some? ==> forall i :: 0 <= i < chosen.value ==> used[i] >= CAPACITY_LIMIT
    ensures chosen.None? <==> forall i :: 0 <= i < 2 ==> used[i] >= CAPACITY_LIMIT
  {
    for i := 0 to 2
      invariant forall j :: 0 <= j < i ==> used[j] >= CAPACITY_LIMIT
    {
      if used[i] < CAPACITY_LIMIT {
        return Some(i);
      }
    }
    return None;
  }

  /** A connection that passes the check has more than 256 successful draws left at that moment,
      whoever makes them. */
  lemma CheckedConnectionHasRoom(s: State, es: seq<Event>)
    requires Runs(s, es) && s.counter < CAPACITY_LIMIT && Draws(es) <= UDP_CONTEXT_ID_RECONNECT_MARGIN + 2
    requires forall key :: key in s.fetched ==> s.fetched[key] <= 0xFFFF
    ensures forall key :: key in After(s, es).fetched ==> After(s, es).fetched[key] <= 0xFFFF
  {
    DrawsWithinRoomFit(s, es);
  }

  // ─── The objects ────────────────────────────────────────────────────────────

  class Counter {
    var value: u32

    constructor ()
      ensures value == 1
    {
      value := 1;
    }

    method FetchAdd() returns (n: u32)
      modifies this
      ensures n == old(value) && value == (old(value) + 1) % WRAP
    {
      n := value;
      value := (value + 1) % WRAP;
    }
  }

  class UdpPacket {
    const nextContextId: Counter
    var senderMap: map<TargetAddr, u16>

    constructor (nextContextId: Counter)
      ensures this.nextContextId == nextContextId && senderMap == map[]
    {
      this.nextContextId, senderMap := nextContextId, map[];
    }

    /** An id once made is given again without a draw; a failed attempt uses a number up. */
    method GetSendContextId(target: TargetAddr, created: bool) returns (id: Option<u16>)
      modifies this, nextContextId
      ensures target in old(senderMap) ==>
                && id == Some(old(senderMap)[target]) && senderMap == old(senderMap)
                && nextContextId.value == old(nextContextId.value)
      ensures target !in old(senderMap) ==>
                var n := old(nextContextId.value);
                && nextContextId.value == (n + 1) % WRAP
                && (id.Some? <==> n <= 0xFFFF && created)
                && (id.Some? ==> id.value == n && senderMap == old(senderMap)[target := n])
                && (id.None? ==> senderMap == old(senderMap))
    {
      if target in senderMap {
        return Some(senderMap[target]);
      }
      var n := nextContextId.FetchAdd();
      if n > 0xFFFF || !created {
        return None;
      }
      senderMap := senderMap[target := n];
      return Some(n);
    }
  }
}
