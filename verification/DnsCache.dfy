/** The response cache of one DNS server (src/dns/cache.rs): a bounded map in memory in front of a
    table on disk, against one map whose entries expire. */
module DnsCaching {
  import opened Wire

  const MEMORY_ENTRIES := 2048
  const EXPIRY_LEN := 8
  const U64_LIMIT := 0x1_0000_0000_0000_0000

  type Key = string

  datatype Entry = Entry(response: seq<byte>, expiry: u64)

  datatype Cache = Cache(memory: map<Key, Entry>, disk: map<Key, seq<byte>>)

  const EMPTY := Cache(map[], map[])

  // ─── The bytes on disk ──────────────────────────────────────────────────────

  function Encode(e: Entry): seq<byte> {
    U64Bytes(e.expiry) + e.response
  }

  /** A row of eight bytes or fewer holds no response. */
  function Decode(raw: seq<byte>): Option<Entry> {
    if |raw| <= EXPIRY_LEN then None else Some(Entry(raw[EXPIRY_LEN..], U64From(raw[..EXPIRY_LEN])))
  }

  /** A stored response comes back if and only if it is not empty. */
  lemma RowRoundTrip(e: Entry)
    ensures Decode(Encode(e)) == if e.response == [] then None else Some(e)
  {
    hide U64Bytes, U64From;
    U64RoundTrip(e.expiry);
    var raw := Encode(e);
    assert raw[..EXPIRY_LEN] == U64Bytes(e.expiry) && raw[EXPIRY_LEN..] == e.response;
  }

  // ─── The operations ─────────────────────────────────────────────────────────

  function Fresh(memory: map<Key, Entry>, now: nat): map<Key, Entry> {
    map k | k in memory && memory[k].expiry > now :: memory[k]
  }

  function Remember(memory: map<Key, Entry>, key: Key, e: Entry, now: nat): map<Key, Entry> {
    var room :=
      if |memory| >= MEMORY_ENTRIES && key !in memory then
        var kept := Fresh(memory, now);
        if |kept| >= MEMORY_ENTRIES then map[] else kept
      else memory;
    room[key := e]
  }

  /** `ok` says whether the table could be read; failed deletes are ignored like the source does. */
  function Get(c: Cache, key: Key, now: nat, ok: bool): (Cache, Option<Entry>) {
    if key in c.memory && c.memory[key].expiry > now then (c, Some(c.memory[key]))
    else
      var memory := c.memory - {key};
      if !ok || key !in c.disk then (c.(memory := memory), None)
      else match Decode(c.disk[key])
        case None => (Cache(memory, c.disk - {key}), None)
        case Some(e) =>
          if e.expiry > now then (c.(memory := Remember(memory, key, e, now)), Some(e))
          else (Cache(memory, c.disk - {key}), None)
  }

  function Set(c: Cache, key: Key, response: seq<byte>, expiry: u64, now: nat, ok: bool): Cache {
    var e := Entry(response, expiry);
    Cache(Remember(c.memory, key, e, now), if ok then c.disk[key := Encode(e)] else c.disk)
  }

  function Remove(c: Cache, key: Key, ok: bool): Cache {
    Cache(c.memory - {key}, if ok then c.disk - {key} else c.disk)
  }

  /** A new process only has the table. */
  function Restart(c: Cache): Cache {
    c.(memory := map[])
  }

  // ─── One expiring map ───────────────────────────────────────────────────────

  datatype Op = GetOp(key: Key) | SetOp(key: Key, response: seq<byte>, ttl: u32) | RemoveOp(key: Key) | RestartOp

  datatype Call = Call(op: Op, now: nat)

  type Simple = map<Key, Entry>

  function SimpleGet(m: Simple, key: Key, now: nat): Option<Entry> {
    if key in m && m[key].expiry > now then Some(m[key]) else None
  }

  predicate Legal(call: Call) {
    call.op.SetOp? ==> call.now + call.op.ttl < U64_LIMIT
  }

  function SimpleStep(m: Simple, call: Call): (Simple, Option<Entry>)
    requires Legal(call)
  {
    match call.op
    case GetOp(key) => (m, SimpleGet(m, key, call.now))
    case SetOp(key, response, ttl) => (m[key := Entry(response, call.now + ttl)], None)
    case RemoveOp(key) => (m - {key}, None)
    case RestartOp => (m, None)
  }

  function Step(c: Cache, call: Call): (Cache, Option<Entry>)
    requires Legal(call)
  {
    match call.op
    case GetOp(key) => Get(c, key, call.now, true)
    case SetOp(key, response, ttl) => (Set(c, key, response, call.now + ttl, call.now, true), None)
    case RemoveOp(key) => (Remove(c, key, true), None)
    case RestartOp => (Restart(c), None)
  }

  /** The row of an entry in memory says the same. */
  predicate HasRow(disk: map<Key, seq<byte>>, key: Key, e: Entry) {
    key in disk && Decode(disk[key]) == Some(e)
  }

  /** Memory holds what is on disk, and no more entries than it may. */
  ghost predicate Agrees(c: Cache) {
    && (forall k :: k in c.memory ==> HasRow(c.disk, k, c.memory[k]))
    && |c.memory| <= MEMORY_ENTRIES
  }

  /** What the table alone would answer. */
  function Live(disk: map<Key, seq<byte>>, key: Key, now: nat): Option<Entry> {
    if key in disk && Decode(disk[key]).Some? && Decode(disk[key]).value.expiry > now then Decode(disk[key]) else None
  }

  /** From `now` on, the table holds the same responses as the simple map. */
  ghost predicate Refines(c: Cache, m: Simple, now: nat) {
    forall k :: Live(c.disk, k, now) == SimpleGet(m, k, now)
  }

  lemma RefinesLater(c: Cache, m: Simple, now: nat, later: nat)
    requires Refines(c, m, now) && now <= later
    ensures Refines(c, m, later)
  {
    forall k
      ensures Live(c.disk, k, later) == SimpleGet(m, k, later)
    {
      assert Live(c.disk, k, now) == SimpleGet(m, k, now);
    }
  }

  lemma InsertSize(m: map<Key, Entry>, key: Key, e: Entry)
    ensures |m[key := e]| == if key in m then |m| else |m| + 1
  {
    assert m[key := e].Keys == m.Keys + {key};
    assert |m[key := e]| == |m[key := e].Keys| && |m| == |m.Keys|;
  }

  lemma DropSmaller(memory: map<Key, Entry>, key: Key)
    ensures |memory - {key}| <= |memory|
  {
    var less := memory - {key};
    assert less.Keys == memory.Keys - {key};
    assert |less| == |less.Keys| && |memory| == |memory.Keys|;
  }

  /** Remembering adds the one entry, perhaps drops others, and keeps to the bound. */
  lemma RememberAgrees(memory: map<Key, Entry>, disk: map<Key, seq<byte>>, key: Key, e: Entry, now: nat)
    requires |memory| <= MEMORY_ENTRIES && HasRow(disk, key, e)
    requires forall k :: k in memory && k != key ==> HasRow(disk, k, memory[k])
    ensures Agrees(Cache(Remember(memory, key, e, now), disk))
    ensures key in Remember(memory, key, e, now)
  {
    hide HasRow;
    var kept := Fresh(memory, now);
    InsertSize(memory, key, e);
    InsertSize(kept, key, e);
    InsertSize(map[], key, e);
  }

  /** Only a full memory forgets, and only stale entries unless all of them are fresh. */
  lemma RememberForgetsOnlyWhenFull(memory: map<Key, Entry>, key: Key, e: Entry, now: nat)
    requires |memory| <= MEMORY_ENTRIES
    ensures |memory| < MEMORY_ENTRIES || key in memory ==> Remember(memory, key, e, now) == memory[key := e]
    ensures (exists k :: k in memory && memory[k].expiry <= now) ==>
              forall k :: k in memory && k != key && memory[k].expiry > now ==>
                k in Remember(memory, key, e, now) && Remember(memory, key, e, now)[k] == memory[k]
  {
    var kept := Fresh(memory, now);
    if k :| k in memory && memory[k].expiry <= now {
      assert kept.Keys <= memory.Keys - {k};
      Subset(kept.Keys, memory.Keys - {k});
      assert |kept| == |kept.Keys| && |memory| == |memory.Keys|;
    }
  }

  lemma GetRefines(c: Cache, m: Simple, key: Key, now: nat)
    requires Agrees(c) && Refines(c, m, now)
    ensures var (c', answer) := Get(c, key, now, true);
            Agrees(c') && Refines(c', m, now) && answer == SimpleGet(m, key, now)
  {
    hide Decode, Remember;
    assert Live(c.disk, key, now) == SimpleGet(m, key, now);
    if key in c.memory && c.memory[key].expiry > now {
      assert HasRow(c.disk, key, c.memory[key]);
    } else {
      var memory := c.memory - {key};
      DropSmaller(c.memory, key);
      if Live(c.disk, key, now).Some? {
        RememberAgrees(memory, c.disk, key, Live(c.disk, key, now).value, now);
      } else if key in c.disk {
        DroppedRow(c, m, key, now);
      } else {
        assert Agrees(c.(memory := memory));
      }
    }
  }

  lemma WithoutKeyAgrees(c: Cache, key: Key)
    requires Agrees(c)
    ensures Agrees(Cache(c.memory - {key}, c.disk - {key}))
  {
    hide Decode;
    var c' := Cache(c.memory - {key}, c.disk - {key});
    DropSmaller(c.memory, key);
    forall k | k in c'.memory
      ensures HasRow(c'.disk, k, c'.memory[k])
    {
      assert HasRow(c.disk, k, c.memory[k]);
    }
  }

  lemma DroppedRow(c: Cache, m: Simple, key: Key, now: nat)
    requires Agrees(c) && Refines(c, m, now) && Live(c.disk, key, now).None?
    ensures Agrees(Cache(c.memory - {key}, c.disk - {key})) && Refines(Cache(c.memory - {key}, c.disk - {key}), m, now)
  {
    hide Decode, Agrees;
    var c' := Cache(c.memory - {key}, c.disk - {key});
    WithoutKeyAgrees(c, key);
    forall k
      ensures Live(c'.disk, k, now) == SimpleGet(m, k, now)
    {
      assert Live(c.disk, k, now) == SimpleGet(m, k, now);
    }
  }

  lemma SetRefines(c: Cache, m: Simple, key: Key, response: seq<byte>, expiry: u64, now: nat)
    requires Agrees(c) && Refines(c, m, now) && response != []
    ensures var c' := Set(c, key, response, expiry, now, true);
            Agrees(c') && Refines(c', m[key := Entry(response, expiry)], now)
  {
    hide Encode, Decode, Remember;
    var e := Entry(response, expiry);
    RowRoundTrip(e);
    var c' := Set(c, key, response, expiry, now, true);
    forall k | k in c.memory && k != key
      ensures HasRow(c'.disk, k, c.memory[k])
    {
      assert HasRow(c.disk, k, c.memory[k]);
    }
    RememberAgrees(c.memory, c'.disk, key, e, now);
    forall k
      ensures Live(c'.disk, k, now) == SimpleGet(m[key := e], k, now)
    {
      assert Live(c.disk, k, now) == SimpleGet(m, k, now);
    }
  }

  lemma RemoveRefines(c: Cache, m: Simple, key: Key, now: nat)
    requires Agrees(c) && Refines(c, m, now)
    ensures Agrees(Remove(c, key, true)) && Refines(Remove(c, key, true), m - {key}, now)
  {
    hide Decode, Agrees;
    var c' := Remove(c, key, true);
    WithoutKeyAgrees(c, key);
    forall k
      ensures Live(c'.disk, k, now) == SimpleGet(m - {key}, k, now)
    {
      assert Live(c.disk, k, now) == SimpleGet(m, k, now);
    }
  }

  /** One operation on memory and disk does to the cache what it does to the simple map, and answers
      the same. */
  lemma StepRefines(c: Cache, m: Simple, call: Call, before: nat)
    requires Agrees(c) && Refines(c, m, before) && before <= call.now && Legal(call)
    requires call.op.SetOp? ==> call.op.response != []
    ensures var (c', answer) := Step(c, call); var (m', answer') := SimpleStep(m, call);
            Agrees(c') && Refines(c', m', call.now) && answer == answer'
  {
    hide Encode, Decode, Get, Set, Refines, Remove;
    RefinesLater(c, m, before, call.now);
    match call.op
    case GetOp(key) => GetRefines(c, m, key, call.now);
    case SetOp(key, response, ttl) => SetRefines(c, m, key, response, call.now + ttl, call.now);
    case RemoveOp(key) => RemoveRefines(c, m, key, call.now);
    case RestartOp => RestartRefines(c, m, call.now);
  }

  lemma RestartRefines(c: Cache, m: Simple, now: nat)
    requires Agrees(c) && Refines(c, m, now)
    ensures Agrees(Restart(c)) && Refines(Restart(c), m, now)
  {
  }

  /** A run on a clock that never goes back, with no empty response stored. */
  predicate Orderly(calls: seq<Call>, start: nat)
    decreases |calls|
  {
    calls == [] ||
    (start <= calls[0].now && Legal(calls[0]) && (calls[0].op.SetOp? ==> calls[0].op.response != [])
     && Orderly(calls[1..], calls[0].now))
  }

  function Answers(c: Cache, calls: seq<Call>, start: nat): (seq<Option<Entry>>, Cache)
    requires Orderly(calls, start)
    decreases |calls|
  {
    if calls == [] then ([], c)
    else
      var (c', answer) := Step(c, calls[0]);
      var (answers, last) := Answers(c', calls[1..], calls[0].now);
      ([answer] + answers, last)
  }

  function SimpleAnswers(m: Simple, calls: seq<Call>, start: nat): seq<Option<Entry>>
    requires Orderly(calls, start)
    decreases |calls|
  {
    if calls == [] then []
    else
      var (m', answer) := SimpleStep(m, calls[0]);
      [answer] + SimpleAnswers(m', calls[1..], calls[0].now)
  }

  lemma {:induction false} RunRefines(c: Cache, m: Simple, calls: seq<Call>, start: nat)
    requires Agrees(c) && Refines(c, m, start) && Orderly(calls, start)
    ensures Answers(c, calls, start).0 == SimpleAnswers(m, calls, start)
    ensures Agrees(Answers(c, calls, start).1)
    decreases |calls|
  {
    hide Step, SimpleStep, Agrees, Refines;
    if calls != [] {
      StepRefines(c, m, calls[0], start);
      RunRefines(Step(c, calls[0]).0, SimpleStep(m, calls[0]).0, calls[1..], calls[0].now);
    }
  }

  /** Memory and disk together answer every get as one expiring map would, across any sequence of
      gets, sets, removals and restarts; memory equals disk and stays within its bound throughout. */
  lemma CacheIsOneMap(calls: seq<Call>, start: nat)
    requires Orderly(calls, start)
    ensures Answers(EMPTY, calls, start).0 == SimpleAnswers(map[], calls, start)
    ensures Agrees(Answers(EMPTY, calls, start).1)
  {
    RunRefines(EMPTY, map[], calls, start);
  }

  function SimpleAfter(m: Simple, calls: seq<Call>, start: nat): Simple
    requires Orderly(calls, start)
    decreases |calls|
  {
    if calls == [] then m else SimpleAfter(SimpleStep(m, calls[0]).0, calls[1..], calls[0].now)
  }

  /** The i-th answer is what the simple map, as left by the calls before, gives at that moment. */
  lemma {:induction false} AnswerAt(m: Simple, calls: seq<Call>, start: nat, i: nat)
    requires Orderly(calls, start) && i < |calls| && calls[i].op.GetOp?
    ensures |SimpleAnswers(m, calls, start)| == |calls|
    ensures Orderly(calls[..i], start)
    ensures SimpleAnswers(m, calls, start)[i]
            == SimpleGet(SimpleAfter(m, calls[..i], start), calls[i].op.key, calls[i].now)
    decreases |calls|
  {
    AnswerCount(m, calls, start);
    if i > 0 {
      var m' := SimpleStep(m, calls[0]).0;
      AnswerAt(m', calls[1..], calls[0].now, i - 1);
      assert calls[..i][1..] == calls[1..][..i - 1];
    }
  }

  lemma {:induction false} AnswerCount(m: Simple, calls: seq<Call>, start: nat)
    requires Orderly(calls, start)
    ensures |SimpleAnswers(m, calls, start)| == |calls|
    decreases |calls|
  {
    if calls != [] {
      AnswerCount(SimpleStep(m, calls[0]).0, calls[1..], calls[0].now);
    }
  }

  /** The entry a set of this call makes. */
  predicate Made(call: Call, key: Key, e: Entry) {
    call.op.SetOp? && call.op.key == key && e.response == call.op.response && e.expiry == call.now + call.op.ttl
  }

  predicate Touches(op: Op, key: Key) {
    (op.SetOp? || op.RemoveOp?) && op.key == key
  }

  /** Every entry was made by a set with nothing after it that touches its key. */
  lemma {:induction false} EntryHasOrigin(m: Simple, calls: seq<Call>, start: nat, key: Key) returns (j: nat)
    requires Orderly(calls, start) && key !in m && key in SimpleAfter(m, calls, start)
    ensures j < |calls| && Made(calls[j], key, SimpleAfter(m, calls, start)[key])
    ensures forall k :: j < k < |calls| ==> !Touches(calls[k].op, key)
    decreases |calls|
  {
    assert calls != [];
    var m' := SimpleStep(m, calls[0]).0;
    var later := calls[1..];
    if key !in m' {
      j := EntryHasOrigin(m', later, calls[0].now, key);
      j := j + 1;
      assert forall k :: j < k < |calls| ==> calls[k] == later[k - 1];
    } else if exists i :: 0 <= i < |later| && Touches(later[i].op, key) {
      j := EntryIsRemade(m', later, calls[0].now, key);
      j := j + 1;
      assert forall k :: j < k < |calls| ==> calls[k] == later[k - 1];
    } else {
      EntryIsKept(m', later, calls[0].now, key);
      j := 0;
      assert forall k :: 0 < k < |calls| ==> calls[k] == later[k - 1];
    }
  }

  lemma {:induction false} EntryIsKept(m: Simple, calls: seq<Call>, start: nat, key: Key)
    requires Orderly(calls, start) && key in m
    requires forall i :: 0 <= i < |calls| ==> !Touches(calls[i].op, key)
    ensures key in SimpleAfter(m, calls, start) && SimpleAfter(m, calls, start)[key] == m[key]
    decreases |calls|
  {
    if calls != [] {
      assert !Touches(calls[0].op, key);
      EntryIsKept(SimpleStep(m, calls[0]).0, calls[1..], calls[0].now, key);
    }
  }

  lemma {:induction false} EntryIsRemade(m: Simple, calls: seq<Call>, start: nat, key: Key) returns (j: nat)
    requires Orderly(calls, start) && key in SimpleAfter(m, calls, start)
    requires exists i :: 0 <= i < |calls| && Touches(calls[i].op, key)
    ensures j < |calls| && Made(calls[j], key, SimpleAfter(m, calls, start)[key])
    ensures forall k :: j < k < |calls| ==> !Touches(calls[k].op, key)
    decreases |calls|
  {
    var m' := SimpleStep(m, calls[0]).0;
    var later := calls[1..];
    var i :| 0 <= i < |calls| && Touches(calls[i].op, key);
    assert i > 0 ==> later[i - 1] == calls[i];
    if exists k :: 0 <= k < |later| && Touches(later[k].op, key) {
      j := EntryIsRemade(m', later, calls[0].now, key);
      j := j + 1;
      assert forall k :: j < k < |calls| ==> calls[k] == later[k - 1];
    } else {
      j := 0;
      assert forall k :: 0 < k < |calls| ==> calls[k] == later[k - 1];
      if calls[0].op.RemoveOp? {
        j := EntryHasOrigin(m', later, calls[0].now, key);
        assert false;
      }
      EntryIsKept(m', later, calls[0].now, key);
    }
  }

  /** What a get on memory and disk returns is the response of the last set of its key before it,
      with that set's expiry, still ahead: nothing older, nothing removed, nothing expired. */
  lemma GetReturnsLastSet(calls: seq<Call>, start: nat, i: nat) returns (j: nat)
    requires Orderly(calls, start) && i < |calls| && calls[i].op.GetOp?
    requires |Answers(EMPTY, calls, start).0| == |calls| && Answers(EMPTY, calls, start).0[i].Some?
    ensures var e := Answers(EMPTY, calls, start).0[i].value;
            && j < i && Made(calls[j], calls[i].op.key, e) && e.expiry > calls[i].now
            && forall k :: j < k < i ==> !Touches(calls[k].op, calls[i].op.key)
  {
    hide Made;
    CacheIsOneMap(calls, start);
    AnswerAt(map[], calls, start, i);
    j := EntryHasOrigin(map[], calls[..i], start, calls[i].op.key);
    assert calls[..i][j] == calls[j];
    assert forall k :: j < k < i ==> calls[..i][k] == calls[k];
  }

  /** What a get answers after a set of the same key and a restart, for every cache, write outcome and
      reading of the clock: the new entry if its row was written and is not empty, and exactly what it
      would have answered without the set if the row was not written. */
  lemma AfterRestart(c: Cache, key: Key, response: seq<byte>, expiry: u64, now: nat, ok: bool, later: nat)
    ensures Get(Restart(Set(c, key, response, expiry, now, ok)), key, later, true).1
         == if !ok then Get(Restart(c), key, later, true).1
            else if response != [] && expiry > later then Some(Entry(response, expiry))
            else None
  {
    hide Encode, Decode;
    RowRoundTrip(Entry(response, expiry));
  }

  /** So the entry set is still answered after a restart, while it is fresh, if and only if its row was
      written and is not empty, or the row already there says the same. */
  lemma SetSurvivesRestartIff(c: Cache, key: Key, response: seq<byte>, expiry: u64, now: nat, ok: bool, later: nat)
    requires expiry > later
    ensures Get(Restart(Set(c, key, response, expiry, now, ok)), key, later, true).1 == Some(Entry(response, expiry))
            <==> (ok && response != []) || (!ok && HasRow(c.disk, key, Entry(response, expiry)))
  {
    hide Encode, Decode;
    AfterRestart(c, key, response, expiry, now, ok, later);
  }

  /** Until the restart even an empty response, or one that could not be written, is answered. */
  lemma SetIsAnsweredBeforeRestart(c: Cache, key: Key, response: seq<byte>, expiry: u64, now: nat, ok: bool, later: nat)
    requires expiry > later
    ensures Get(Set(c, key, response, expiry, now, ok), key, later, true).1 == Some(Entry(response, expiry))
  {
    hide Encode, Decode;
  }

  /** In particular a failed write brings an earlier response back. */
  lemma FailedWriteRevives(c: Cache, key: Key, earlier: Entry, response: seq<byte>, expiry: u64, now: nat)
    requires HasRow(c.disk, key, earlier) && expiry > now && earlier.expiry > now
    ensures var c' := Set(c, key, response, expiry, now, false);
            && Get(c', key, now, true).1 == Some(Entry(response, expiry))
            && Get(Restart(c'), key, now, true).1 == Some(earlier)
  {
    hide Encode, Decode;
    AfterRestart(c, key, response, expiry, now, false, now);
  }

  // ─── The object ─────────────────────────────────────────────────────────────

  class DnsCache {
    var memory: map<Key, Entry>
    var disk: map<Key, seq<byte>>

    constructor (disk: map<Key, seq<byte>>)
      ensures Value() == Cache(map[], disk)
    {
      memory, this.disk := map[], disk;
    }

    function Value(): Cache
      reads this
    {
      Cache(memory, disk)
    }

    method RememberEntry(key: Key, response: seq<byte>, expiry: u64, now: nat)
      modifies this`memory
      ensures memory == Remember(old(memory), key, Entry(response, expiry), now)
    {
      if |memory| >= MEMORY_ENTRIES && key !in memory {
        memory := map k | k in memory && memory[k].expiry > now :: memory[k];
        assert memory == Fresh(old(memory), now);
        if |memory| >= MEMORY_ENTRIES {
          memory := map[];
        }
      }
      memory := memory[key := Entry(response, expiry)];
    }

    method Lookup(key: Key, now: nat, ok: bool) returns (answer: Option<Entry>)
      modifies this
      ensures (Value(), answer) == Get(old(Value()), key, now, ok)
    {
      if key in memory && memory[key].expiry > now {
        return Some(memory[key]);
      }
      memory := memory - {key};
      if !ok || key !in disk {
        return None;
      }
      var raw := disk[key];
      if |raw| > EXPIRY_LEN {
        var expiry := U64From(raw[..EXPIRY_LEN]);
        if expiry > now {
          var response := raw[EXPIRY_LEN..];
          RememberEntry(key, response, expiry, now);
          return Some(Entry(response, expiry));
        }
      }
      disk := disk - {key};
      return None;
    }

    method Store(key: Key, response: seq<byte>, ttl: u32, now: nat, ok: bool)
      requires now + ttl < U64_LIMIT
      modifies this
      ensures Value() == Set(old(Value()), key, response, now + ttl, now, ok)
    {
      var expiry := now + ttl;
      RememberEntry(key, response, expiry, now);
      var raw := U64Bytes(expiry) + response;
      if ok {
        disk := disk[key := raw];
      }
    }

    method Forget(key: Key, ok: bool)
      modifies this
      ensures Value() == Remove(old(Value()), key, ok)
    {
      memory := memory - {key};
      if ok {
        disk := disk - {key};
      }
    }
  }
}
