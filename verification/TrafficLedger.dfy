/** Bytes per destination (src/proxy/observe.rs, `remove_connection`, `take_dst_traffic`,
    `flush_dst_traffic`, `drain_dst_traffic`; src/cache/redb_store.rs, `merge_entries`,
    `drain_entries`): a map in memory, a table, and the batches moved between them. */
module TrafficLedger {
  import opened Wire

  const U64_MAX := 0xFFFF_FFFF_FFFF_FFFF

  type Domain = string
  type ConnectionId = nat

  datatype Entry = Entry(upload: nat, download: nat, lastActive: nat, ip: string, outbound: string)

  type Ledger = map<Domain, Entry>

  datatype Way = Up | Down

  function Bytes(e: Entry, w: Way): nat {
    if w == Up then e.upload else e.download
  }

  function Held(m: Ledger, d: Domain, w: Way): nat {
    if d in m then Bytes(m[d], w) else 0
  }

  /** `saturating_add`. */
  function SatAdd(a: nat, b: nat): nat {
    Min(a + b, U64_MAX)
  }

  /** `DstTrafficEntry::absorb`. */
  function Absorb(e: Entry, newer: Entry): Entry {
    Entry(SatAdd(e.upload, newer.upload), SatAdd(e.download, newer.download), Max(e.lastActive, newer.lastActive),
          if newer.ip != "" then newer.ip else e.ip, if newer.outbound != "" then newer.outbound else e.outbound)
  }

  function MergeOne(m: Ledger, d: Domain, e: Entry): Ledger {
    m[d := if d in m then Absorb(m[d], e) else e]
  }

  /** The update in `remove_connection`, which takes the time as it is. */
  function CountOne(m: Ledger, d: Domain, e: Entry): Ledger {
    m[d := if d in m then Absorb(m[d], e).(lastActive := e.lastActive) else e]
  }

  function MergeAll(m: Ledger, items: seq<(Domain, Entry)>): Ledger
    decreases |items|
  {
    if items == [] then m else MergeAll(MergeOne(m, items[0].0, items[0].1), items[1..])
  }

  // ─── The events ─────────────────────────────────────────────────────────────

  datatype Traffic = Traffic(domain: Domain, entry: Entry)

  /** Who holds `dst_traffic_flush`: a flush collecting its batch, or a drain with what it merged so
      far. `keys` is the part of its snapshot of the map's keys not taken yet. */
  datatype Holder =
    | Free
    | Flushing(keys: set<Domain>, batch: Ledger)
    | Draining(keys: set<Domain>, merged: Ledger)

  /** `closing` are the connections removed and not counted yet. `counted`, `drained` and `lost` keep
      the history: every connection counted, every drain returned, every batch a failed merge lost. */
  datatype State = State(
    open: map<ConnectionId, Traffic>,
    closing: map<ConnectionId, Traffic>,
    live: Ledger,
    cache: Ledger,
    holder: Holder,
    counted: seq<(ConnectionId, Traffic)>,
    drained: seq<Ledger>,
    lost: seq<Ledger>)

  const START := State(map[], map[], map[], map[], Free, [], [], [])

  datatype Event =
    | Open(id: ConnectionId, traffic: Traffic)
    | Close(id: ConnectionId)
    | Count(id: ConnectionId)
    | BeginFlush
    | BeginDrain(ok: bool)
    | Snapshot
    | Take(domain: Domain)
    | EndFlush(ok: bool)
    | EndDrain

  predicate Knows(s: State, id: ConnectionId) {
    id in s.open || id in s.closing || exists i :: 0 <= i < |s.counted| && s.counted[i].0 == id
  }

  ghost predicate Can(s: State, e: Event) {
    match e
    case Open(id, t) => !Knows(s, id) && t.entry.upload <= U64_MAX && t.entry.download <= U64_MAX
    case Close(id) => id in s.open
    case Count(id) => id in s.closing
    case BeginFlush => s.holder.Free?
    case BeginDrain(_) => s.holder.Free?
    case Snapshot => !s.holder.Free? && s.holder.keys == {}
    case Take(d) => !s.holder.Free? && d in s.holder.keys
    case EndFlush(_) => s.holder.Flushing? && s.holder.keys == {}
    case EndDrain => s.holder.Draining? && s.holder.keys == {}
  }

  /** A connection is removed once; without traffic it is not counted. A drain first empties the table,
      if it can read it, then takes the map's entries one key at a time, like a flush; a flush merges
      its batch in one transaction. */
  ghost function Step(s: State, e: Event): State
    requires Can(s, e)
  {
    match e
    case Open(id, t) => s.(open := s.open[id := t])
    case Close(id) =>
      var t := s.open[id];
      if t.entry.upload == 0 && t.entry.download == 0 then s.(open := s.open - {id})
      else s.(open := s.open - {id}, closing := s.closing[id := t])
    case Count(id) =>
      var t := s.closing[id];
      s.(closing := s.closing - {id}, live := CountOne(s.live, t.domain, t.entry), counted := s.counted + [(id, t)])
    case BeginFlush => s.(holder := Flushing({}, map[]))
    case BeginDrain(ok) =>
      s.(holder := Draining({}, if ok then s.cache else map[]), cache := if ok then map[] else s.cache)
    case Snapshot => s.(holder := s.holder.(keys := s.live.Keys))
    case Take(d) => TakeKey(s, d)
    case EndFlush(ok) =>
      if ok then s.(holder := Free, cache := MergeLedger(s.cache, s.holder.batch))
      else s.(holder := Free, lost := s.lost + [s.holder.batch])
    case EndDrain => s.(holder := Free, drained := s.drained + [s.holder.merged])
  }

  ghost function TakeKey(s: State, d: Domain): State
    requires !s.holder.Free? && d in s.holder.keys
  {
    var left := s.holder.(keys := s.holder.keys - {d});
    if d !in s.live then s.(holder := left)
    else
      s.(live := s.live - {d},
         holder := if left.Flushing? then left.(batch := MergeOne(left.batch, d, s.live[d]))
                   else left.(merged := MergeOne(left.merged, d, s.live[d])))
  }

  /** A whole batch, each domain once. */
  ghost function MergeLedger(m: Ledger, batch: Ledger): Ledger {
    map d | d in m.Keys + batch.Keys ::
      if d !in batch then m[d] else if d in m then Absorb(m[d], batch[d]) else batch[d]
  }

  // ─── Conservation ───────────────────────────────────────────────────────────

  function CountedBytes(counted: seq<(ConnectionId, Traffic)>, d: Domain, w: Way): nat {
    if counted == [] then 0
    else
      var last := counted[|counted| - 1].1;
      CountedBytes(counted[..|counted| - 1], d, w) + if last.domain == d then Bytes(last.entry, w) else 0
  }

  function TotalOf(ledgers: seq<Ledger>, d: Domain, w: Way): nat {
    if ledgers == [] then 0 else TotalOf(ledgers[..|ledgers| - 1], d, w) + Held(ledgers[|ledgers| - 1], d, w)
  }

  function Moving(h: Holder, d: Domain, w: Way): nat {
    match h
    case Free => 0
    case Flushing(_, batch) => Held(batch, d, w)
    case Draining(_, merged) => Held(merged, d, w)
  }

  /** Everything of one domain that is somewhere. */
  function Somewhere(s: State, d: Domain, w: Way): nat {
    TotalOf(s.drained, d, w) + TotalOf(s.lost, d, w) + Held(s.live, d, w) + Held(s.cache, d, w) + Moving(s.holder, d, w)
  }

  ghost predicate Conserved(s: State) {
    forall d, w :: Balanced(s, d, w)
  }

  predicate Balanced(s: State, d: Domain, w: Way) {
    CountedBytes(s.counted, d, w) <= U64_MAX ==> Somewhere(s, d, w) == CountedBytes(s.counted, d, w)
  }

  ghost predicate CountedOnce(s: State) {
    && (forall i, j :: 0 <= i < j < |s.counted| ==> s.counted[i].0 != s.counted[j].0)
    && (forall i :: 0 <= i < |s.counted| ==> s.counted[i].0 !in s.closing && s.counted[i].0 !in s.open)
    && (forall id :: id in s.closing ==> id !in s.open)
  }

  lemma CountedAppend(counted: seq<(ConnectionId, Traffic)>, id: ConnectionId, t: Traffic, d: Domain, w: Way)
    ensures CountedBytes(counted + [(id, t)], d, w)
         == CountedBytes(counted, d, w) + if t.domain == d then Bytes(t.entry, w) else 0
  {
    assert (counted + [(id, t)])[..|counted|] == counted;
  }

  lemma TotalAppend(ledgers: seq<Ledger>, m: Ledger, d: Domain, w: Way)
    ensures TotalOf(ledgers + [m], d, w) == TotalOf(ledgers, d, w) + Held(m, d, w)
  {
    assert (ledgers + [m])[..|ledgers|] == ledgers;
  }

  /** An entry merged adds its bytes to its domain, short of saturation. */
  lemma MergeAdds(m: Ledger, key: Domain, e: Entry, d: Domain, w: Way)
    requires Held(m, d, w) + (if d == key then Bytes(e, w) else 0) <= U64_MAX
    ensures Held(MergeOne(m, key, e), d, w) == Held(m, d, w) + if d == key then Bytes(e, w) else 0
    ensures Held(CountOne(m, key, e), d, w) == Held(m, d, w) + if d == key then Bytes(e, w) else 0
  {
  }

  lemma MergeLedgerAdds(m: Ledger, batch: Ledger, d: Domain, w: Way)
    requires Held(m, d, w) + Held(batch, d, w) <= U64_MAX
    ensures Held(MergeLedger(m, batch), d, w) == Held(m, d, w) + Held(batch, d, w)
  {
  }

  lemma RemovedHeld(m: Ledger, key: Domain, d: Domain, w: Way)
    ensures Held(m - {key}, d, w) == if d == key then 0 else Held(m, d, w)
  {
  }

  lemma CountConserves(s: State, id: ConnectionId, d: Domain, w: Way)
    requires id in s.closing && Balanced(s, d, w)
    ensures Balanced(Step(s, Count(id)), d, w)
  {
    hide Held, TotalOf, CountedBytes, CountOne, Bytes, Moving;
    var t := s.closing[id];
    CountedAppend(s.counted, id, t, d, w);
    if CountedBytes(s.counted + [(id, t)], d, w) <= U64_MAX {
      MergeAdds(s.live, t.domain, t.entry, d, w);
    }
  }

  lemma TakeConserves(s: State, key: Domain, d: Domain, w: Way)
    requires !s.holder.Free? && key in s.holder.keys && Balanced(s, d, w)
    ensures Balanced(TakeKey(s, key), d, w)
  {
    hide TotalOf, CountedBytes, MergeOne;
    RemovedHeld(s.live, key, d, w);
    if key in s.live && CountedBytes(s.counted, d, w) <= U64_MAX {
      var held := if s.holder.Flushing? then s.holder.batch else s.holder.merged;
      MergeAdds(held, key, s.live[key], d, w);
    }
  }

  lemma EndFlushConserves(s: State, ok: bool, d: Domain, w: Way)
    requires s.holder.Flushing? && s.holder.keys == {} && Balanced(s, d, w)
    ensures Balanced(Step(s, EndFlush(ok)), d, w)
  {
    hide Held, TotalOf, CountedBytes, MergeLedger;
    TotalAppend(s.lost, s.holder.batch, d, w);
    if CountedBytes(s.counted, d, w) <= U64_MAX {
      MergeLedgerAdds(s.cache, s.holder.batch, d, w);
    }
  }

  lemma EndDrainConserves(s: State, d: Domain, w: Way)
    requires s.holder.Draining? && s.holder.keys == {} && Balanced(s, d, w)
    ensures Balanced(Step(s, EndDrain), d, w)
  {
    hide Held, TotalOf, CountedBytes;
    TotalAppend(s.drained, s.holder.merged, d, w);
  }

  lemma OtherConserves(s: State, e: Event, d: Domain, w: Way)
    requires Can(s, e) && !e.Count? && !e.Take? && !e.EndFlush? && !e.EndDrain? && Balanced(s, d, w)
    ensures Balanced(Step(s, e), d, w)
  {
    hide TotalOf, CountedBytes, MergeLedger, TakeKey, CountOne, Knows;
  }

  lemma StepConserves(s: State, e: Event)
    requires Conserved(s) && Can(s, e)
    ensures Conserved(Step(s, e))
  {
    hide Balanced, TakeKey, MergeLedger, CountOne, Knows;
    forall d, w
      ensures Balanced(Step(s, e), d, w)
    {
      match e
      case Count(id) => CountConserves(s, id, d, w);
      case Take(key) => TakeConserves(s, key, d, w);
      case EndFlush(ok) => EndFlushConserves(s, ok, d, w);
      case EndDrain => EndDrainConserves(s, d, w);
      case _ => OtherConserves(s, e, d, w);
    }
  }

  lemma StepCountsOnce(s: State, e: Event)
    requires CountedOnce(s) && Can(s, e)
    ensures CountedOnce(Step(s, e))
  {
    hide MergeLedger, CountOne, MergeOne;
  }

  ghost predicate Runs(s: State, es: seq<Event>)
    decreases |es|
  {
    es == [] || (Can(s, es[0]) && Runs(Step(s, es[0]), es[1..]))
  }

  ghost function After(s: State, es: seq<Event>): State
    requires Runs(s, es)
    decreases |es|
  {
    if es == [] then s else After(Step(s, es[0]), es[1..])
  }

  lemma {:induction false} RunConserves(s: State, es: seq<Event>)
    requires Conserved(s) && CountedOnce(s) && Runs(s, es)
    ensures Conserved(After(s, es)) && CountedOnce(After(s, es))
    decreases |es|
  {
    hide Conserved, CountedOnce, Can, Step;
    if es != [] {
      StepConserves(s, es[0]);
      StepCountsOnce(s, es[0]);
      RunConserves(Step(s, es[0]), es[1..]);
    }
  }

  predicate NoLoss(es: seq<Event>) {
    forall i :: 0 <= i < |es| ==> es[i] != EndFlush(false)
  }

  lemma {:induction false} NothingLost(s: State, es: seq<Event>)
    requires Runs(s, es) && NoLoss(es)
    ensures After(s, es).lost == s.lost
    decreases |es|
  {
    hide Can, MergeLedger, TakeKey;
    if es != [] {
      assert NoLoss(es[1..]) by {
        assert forall i :: 0 <= i < |es| - 1 ==> es[1..][i] == es[i + 1];
      }
      assert es[0] != EndFlush(false);
      LossIsFailedMerge(s, es[0]);
      NothingLost(Step(s, es[0]), es[1..]);
    }
  }

  lemma LossIsFailedMerge(s: State, e: Event)
    requires Can(s, e) && e != EndFlush(false)
    ensures Step(s, e).lost == s.lost
  {
  }

  /** In any interleaving of closing connections, flushes and drains, the bytes of a domain over all
      connections counted, each counted once, are the bytes drained plus those in the map, in the
      table, and in the batch being moved, as long as their sum fits the counters. Only a failed merge
      loses any, and loses its batch. */
  lemma LedgerBalances(es: seq<Event>, d: Domain, w: Way)
    requires Runs(START, es) && CountedBytes(After(START, es).counted, d, w) <= U64_MAX
    ensures var s := After(START, es);
            && CountedBytes(s.counted, d, w)
               == TotalOf(s.drained, d, w) + TotalOf(s.lost, d, w)
                  + Held(s.live, d, w) + Held(s.cache, d, w) + Moving(s.holder, d, w)
            && (forall i, j :: 0 <= i < j < |s.counted| ==> s.counted[i].0 != s.counted[j].0)
            && (NoLoss(es) ==> TotalOf(s.lost, d, w) == 0)
  {
    hide After, CountedBytes, Runs, Held, Moving;
    StartBalanced();
    RunConserves(START, es);
    assert Balanced(After(START, es), d, w);
    if NoLoss(es) {
      NothingLost(START, es);
    }
  }

  lemma StartBalanced()
    ensures Conserved(START) && CountedOnce(START)
  {
  }

  // ─── Every closed connection is counted ─────────────────────────────────────

  /** The connection, closed with this traffic, is counted or about to be. */
  predicate Accounted(s: State, id: ConnectionId, t: Traffic) {
    || (id in s.closing && s.closing[id] == t)
    || (exists k :: 0 <= k < |s.counted| && s.counted[k] == (id, t))
  }

  lemma StepAccounted(s: State, e: Event, id: ConnectionId, t: Traffic)
    requires CountedOnce(s) && Can(s, e) && Accounted(s, id, t)
    ensures Accounted(Step(s, e), id, t)
  {
    hide CountOne, MergeLedger, TakeKey, Knows;
    var s' := Step(s, e);
    CountedGrows(s, e);
    if k :| 0 <= k < |s.counted| && s.counted[k] == (id, t) {
      assert s'.counted[k] == (id, t);
    } else if e == Count(id) {
      assert s'.counted[|s.counted|] == (id, t);
    }
  }

  lemma CountedGrows(s: State, e: Event)
    requires CountedOnce(s) && Can(s, e)
    ensures s.counted <= Step(s, e).counted
    ensures forall id :: id in s.closing && e != Count(id) ==>
              id in Step(s, e).closing && Step(s, e).closing[id] == s.closing[id]
  {
    hide CountOne, MergeLedger, MergeOne;
  }

  lemma {:induction false} RunAccounted(s: State, es: seq<Event>, id: ConnectionId, t: Traffic)
    requires CountedOnce(s) && Runs(s, es) && Accounted(s, id, t)
    ensures Accounted(After(s, es), id, t)
    decreases |es|
  {
    hide Can, Step, Accounted, CountedOnce;
    if es != [] {
      StepCountsOnce(s, es[0]);
      StepAccounted(s, es[0], id, t);
      RunAccounted(Step(s, es[0]), es[1..], id, t);
    }
  }

  /** In every interleaving a connection closed with traffic is counted with it, or is about to be,
      whatever happens later; one closed without traffic is just forgotten. */
  lemma ClosedIsCounted(before: seq<Event>, id: ConnectionId, later: seq<Event>)
    requires Runs(START, before) && Can(After(START, before), Close(id))
    requires Runs(Step(After(START, before), Close(id)), later)
    ensures var s := After(START, before);
            var t := s.open[id];
            && (t.entry.upload > 0 || t.entry.download > 0 ==>
                  Accounted(After(Step(s, Close(id)), later), id, t))
            && (t.entry.upload == 0 && t.entry.download == 0 ==>
                  Step(s, Close(id)) == s.(open := s.open - {id}))
  {
    hide Accounted, CountedOnce, Conserved, After;
    var s := After(START, before);
    var t := s.open[id];
    StartBalanced();
    RunConserves(START, before);
    if t.entry.upload > 0 || t.entry.download > 0 {
      ClosingAccounted(s, id);
      StepCountsOnce(s, Close(id));
      RunAccounted(Step(s, Close(id)), later, id, t);
    }
  }

  /** The connection, opened with this traffic, is still open, or closed and accounted for; without
      traffic it may be forgotten. */
  predicate Known(s: State, id: ConnectionId, t: Traffic) {
    || (id in s.open && s.open[id] == t)
    || Accounted(s, id, t)
    || (t.entry.upload == 0 && t.entry.download == 0)
  }

  lemma StepKnown(s: State, e: Event, id: ConnectionId, t: Traffic)
    requires CountedOnce(s) && Can(s, e) && (Known(s, id, t) || e == Open(id, t))
    ensures Known(Step(s, e), id, t)
  {
    if Accounted(s, id, t) {
      StepAccounted(s, e, id, t);
    } else if e == Close(id) && (t.entry.upload > 0 || t.entry.download > 0) {
      ClosingAccounted(s, id);
    } else {
      hide CountOne, MergeLedger, TakeKey, Accounted;
      assert e.Open? && id in s.open ==> e.id != id by { OpensAreNew(s, e); }
    }
  }

  lemma OpensAreNew(s: State, e: Event)
    requires Can(s, e)
    ensures e.Open? ==> e.id !in s.open
  {
  }

  /** In every interleaving nothing a connection has moved is forgotten: it is still open with it, on
      the way to being counted, or counted. */
  lemma {:induction false} OpenedIsAccounted(s: State, es: seq<Event>, id: ConnectionId, t: Traffic)
    requires CountedOnce(s) && Runs(s, es) && (Known(s, id, t) || Open(id, t) in es)
    ensures Known(After(s, es), id, t)
    decreases |es|
  {
    hide Can, Step, Known, CountedOnce;
    if es != [] {
      StepCountsOnce(s, es[0]);
      if Known(s, id, t) || es[0] == Open(id, t) {
        StepKnown(s, es[0], id, t);
      } else {
        assert Open(id, t) in es[1..];
      }
      OpenedIsAccounted(Step(s, es[0]), es[1..], id, t);
    }
  }

  lemma ClosingAccounted(s: State, id: ConnectionId)
    requires Can(s, Close(id)) && (s.open[id].entry.upload > 0 || s.open[id].entry.download > 0)
    ensures Accounted(Step(s, Close(id)), id, s.open[id])
  {
  }

  // ─── A flush or drain alone moves everything ────────────────────────────────

  lemma RunCons(s: State, e: Event, es: seq<Event>)
    requires Can(s, e) && Runs(Step(s, e), es)
    ensures Runs(s, [e] + es) && After(s, [e] + es) == After(Step(s, e), es)
  {
    hide Can, Step;
    assert ([e] + es)[1..] == es;
  }

  /** What the holder of the lock has collected. */
  function Collected(h: Holder): Ledger
    requires !h.Free?
  {
    if h.Flushing? then h.batch else h.merged
  }

  ghost predicate Gathers(s: State, s': State) {
    && !s.holder.Free? && s'.live == map[] && s'.cache == s.cache && s'.counted == s.counted
    && s'.drained == s.drained && s'.lost == s.lost
    && !s'.holder.Free? && s'.holder.keys == {} && (s'.holder.Flushing? <==> s.holder.Flushing?)
    && (forall d, w :: Held(Collected(s.holder), d, w) + Held(s.live, d, w) <= U64_MAX ==>
          Held(Collected(s'.holder), d, w) == Held(Collected(s.holder), d, w) + Held(s.live, d, w))
  }

  /** Taking every key of the snapshot leaves the map empty and everything collected. */
  lemma {:induction false} TakeAll(s: State) returns (es: seq<Event>)
    requires !s.holder.Free? && s.holder.keys == s.live.Keys
    ensures Runs(s, es) && Gathers(s, After(s, es))
    decreases s.holder.keys
  {
    if s.holder.keys == {} {
      es := [];
      assert s.live == map[];
    } else {
      var d :| d in s.holder.keys;
      var s1 := Step(s, Take(d));
      assert s1.live.Keys == s1.holder.keys;
      var rest := TakeAll(s1);
      es := [Take(d)] + rest;
      RunCons(s, Take(d), rest);
      TookOne(s, d, After(s1, rest));
    }
  }

  lemma TookOne(s: State, key: Domain, last: State)
    requires !s.holder.Free? && s.holder.keys == s.live.Keys && key in s.holder.keys
    requires Gathers(TakeKey(s, key), last)
    ensures Gathers(s, last)
  {
    hide MergeOne, Held;
    var s1 := TakeKey(s, key);
    forall d, w | Held(Collected(s.holder), d, w) + Held(s.live, d, w) <= U64_MAX
      ensures Held(Collected(last.holder), d, w) == Held(Collected(s.holder), d, w) + Held(s.live, d, w)
    {
      RemovedHeld(s.live, key, d, w);
      HeldOne(s.live, key, d, w);
      MergeAdds(Collected(s.holder), key, s.live[key], d, w);
    }
  }

  lemma HeldOne(m: Ledger, key: Domain, d: Domain, w: Way)
    requires key in m
    ensures Held(m, d, w) == (if d == key then Bytes(m[key], w) else 0) + Held(m - {key}, d, w)
  {
  }

  /** A drain that meets nobody returns every byte there is, of the table and of the map, and leaves
      none. */
  lemma DrainReturnsAll(s: State) returns (es: seq<Event>)
    requires s.holder.Free?
    ensures Runs(s, es)
    ensures var last := After(s, es);
            && last.live == map[] && last.cache == map[] && last.holder.Free? && last.counted == s.counted
            && last.lost == s.lost && |last.drained| == |s.drained| + 1
            && last.drained[..|s.drained|] == s.drained
            && (forall d, w :: Held(s.cache, d, w) + Held(s.live, d, w) <= U64_MAX ==>
                  Held(last.drained[|s.drained|], d, w) == Held(s.cache, d, w) + Held(s.live, d, w))
  {
    hide Held, TakeKey, MergeLedger, Gathers;
    var s1 := Step(s, BeginDrain(true));
    var s2 := Step(s1, Snapshot);
    var takes := TakeAll(s2);
    var s3 := After(s2, takes);
    Gathered(s2, s3);
    var last := Step(s3, EndDrain);
    RunSnocs(s2, takes, EndDrain);
    RunCons(s1, Snapshot, takes + [EndDrain]);
    RunCons(s, BeginDrain(true), [Snapshot] + (takes + [EndDrain]));
    es := [BeginDrain(true)] + ([Snapshot] + (takes + [EndDrain]));
    assert After(s, es) == last;
  }

  /** A flush that meets nobody moves every byte of the map into the table. */
  lemma FlushMovesAll(s: State) returns (es: seq<Event>)
    requires s.holder.Free?
    ensures Runs(s, es)
    ensures var last := After(s, es);
            && last.live == map[] && last.holder.Free? && last.counted == s.counted
            && last.lost == s.lost && last.drained == s.drained
            && (forall d, w :: Held(s.cache, d, w) + Held(s.live, d, w) <= U64_MAX ==>
                  Held(last.cache, d, w) == Held(s.cache, d, w) + Held(s.live, d, w))
  {
    hide Held, TakeKey, MergeLedger, Gathers;
    var s1 := Step(s, BeginFlush);
    var s2 := Step(s1, Snapshot);
    var takes := TakeAll(s2);
    var s3 := After(s2, takes);
    Gathered(s2, s3);
    var last := Step(s3, EndFlush(true));
    RunSnocs(s2, takes, EndFlush(true));
    RunCons(s1, Snapshot, takes + [EndFlush(true)]);
    RunCons(s, BeginFlush, [Snapshot] + (takes + [EndFlush(true)]));
    es := [BeginFlush] + ([Snapshot] + (takes + [EndFlush(true)]));
    assert After(s, es) == last;
    forall d, w | Held(s.cache, d, w) + Held(s.live, d, w) <= U64_MAX
      ensures Held(last.cache, d, w) == Held(s.cache, d, w) + Held(s.live, d, w)
    {
      NothingHeld(d, w);
      assert Held(s3.holder.batch, d, w) == Held(s.live, d, w);
      MergeLedgerAdds(s.cache, s3.holder.batch, d, w);
    }
  }

  lemma NothingHeld(d: Domain, w: Way)
    ensures Held(map[], d, w) == 0
  {
  }

  lemma Gathered(s: State, s': State)
    requires Gathers(s, s')
    ensures !s.holder.Free? && s'.live == map[] && s'.cache == s.cache && s'.counted == s.counted
    ensures s'.drained == s.drained && s'.lost == s.lost
    ensures !s'.holder.Free? && s'.holder.keys == {} && (s'.holder.Flushing? <==> s.holder.Flushing?)
    ensures forall d, w :: Held(Collected(s.holder), d, w) + Held(s.live, d, w) <= U64_MAX ==>
              Held(Collected(s'.holder), d, w) == Held(Collected(s.holder), d, w) + Held(s.live, d, w)
  {
  }

  lemma {:induction false} RunSnocs(s: State, es: seq<Event>, e: Event)
    requires Runs(s, es) && Can(After(s, es), e)
    ensures Runs(s, es + [e]) && After(s, es + [e]) == Step(After(s, es), e)
    decreases |es|
  {
    hide Can, Step;
    if es == [] {
      assert es + [e] == [e] && [e][1..] == [];
    } else {
      assert (es + [e])[0] == es[0] && (es + [e])[1..] == es[1..] + [e];
      RunSnocs(Step(s, es[0]), es[1..], e);
    }
  }

  // ─── The table's loops ──────────────────────────────────────────────────────

  function SumItems(items: seq<(Domain, Entry)>, d: Domain, w: Way): nat {
    if items == [] then 0 else (if items[0].0 == d then Bytes(items[0].1, w) else 0) + SumItems(items[1..], d, w)
  }

  /** Merging adds exactly the batch's bytes, domain by domain, however often a domain occurs. */
  lemma {:induction false} MergeAllAdds(m: Ledger, items: seq<(Domain, Entry)>, d: Domain, w: Way)
    requires Held(m, d, w) + SumItems(items, d, w) <= U64_MAX
    ensures Held(MergeAll(m, items), d, w) == Held(m, d, w) + SumItems(items, d, w)
    decreases |items|
  {
    hide Held, MergeOne, Bytes;
    if items != [] {
      MergeAdds(m, items[0].0, items[0].1, d, w);
      MergeAllAdds(MergeOne(m, items[0].0, items[0].1), items[1..], d, w);
    }
  }

  /** The items are the batch, each domain once, in whatever order. */
  ghost predicate Lists(items: seq<(Domain, Entry)>, batch: Ledger) {
    && (forall i :: 0 <= i < |items| ==> items[i].0 in batch && batch[items[i].0] == items[i].1)
    && (forall i, j :: 0 <= i < j < |items| ==> items[i].0 != items[j].0)
    && (forall d :: d in batch ==> exists i :: 0 <= i < |items| && items[i].0 == d)
  }

  lemma ListsRest(items: seq<(Domain, Entry)>, batch: Ledger)
    requires Lists(items, batch) && items != []
    ensures Lists(items[1..], batch - {items[0].0})
  {
    var rest := batch - {items[0].0};
    forall d | d in rest
      ensures exists i :: 0 <= i < |items[1..]| && items[1..][i].0 == d
    {
      var i :| 0 <= i < |items| && items[i].0 == d;
      assert items[1..][i - 1].0 == d;
    }
  }

  lemma MergeLedgerRest(m: Ledger, batch: Ledger, d: Domain)
    requires d in batch
    ensures MergeLedger(MergeOne(m, d, batch[d]), batch - {d}) == MergeLedger(m, batch)
  {
    hide Absorb;
    var one, whole := MergeLedger(MergeOne(m, d, batch[d]), batch - {d}), MergeLedger(m, batch);
    assert one.Keys == whole.Keys;
    forall k | k in whole
      ensures one[k] == whole[k]
    {
    }
  }

  /** Merging the items of a batch one by one, in any order, is what a flush does in one step. */
  lemma {:induction false} MergeAllIsMergeLedger(m: Ledger, items: seq<(Domain, Entry)>, batch: Ledger)
    requires Lists(items, batch)
    ensures MergeAll(m, items) == MergeLedger(m, batch)
    decreases |items|
  {
    if items == [] {
      assert MergeLedger(m, batch) == m;
    } else {
      hide MergeOne, MergeLedger, Lists;
      var (d, e) := items[0];
      ListsFirst(items, batch);
      ListsRest(items, batch);
      MergeAllIsMergeLedger(MergeOne(m, d, e), items[1..], batch - {d});
      MergeLedgerRest(m, batch, d);
    }
  }

  lemma ListsFirst(items: seq<(Domain, Entry)>, batch: Ledger)
    requires Lists(items, batch) && items != []
    ensures items[0].0 in batch && batch[items[0].0] == items[0].1
  {
  }

  /** Absorbing in turn is absorbing what the newer one absorbed, saturation included. */
  lemma AbsorbAssoc(a: Entry, b: Entry, c: Entry)
    ensures Absorb(Absorb(a, b), c) == Absorb(a, Absorb(b, c))
  {
  }

  lemma MergeOneInto(m: Ledger, batch: Ledger, d: Domain, e: Entry)
    ensures MergeOne(MergeLedger(m, batch), d, e) == MergeLedger(m, MergeOne(batch, d, e))
  {
    hide Absorb;
    if d in m && d in batch {
      AbsorbAssoc(m[d], batch[d], e);
    }
    var one, whole := MergeOne(MergeLedger(m, batch), d, e), MergeLedger(m, MergeOne(batch, d, e));
    assert one.Keys == whole.Keys;
    forall k | k in whole
      ensures one[k] == whole[k]
    {
    }
  }

  lemma {:induction false} MergeAllInto(m: Ledger, batch: Ledger, items: seq<(Domain, Entry)>)
    ensures MergeAll(MergeLedger(m, batch), items) == MergeLedger(m, MergeAll(batch, items))
    decreases |items|
  {
    hide MergeOne, MergeLedger;
    if items != [] {
      MergeOneInto(m, batch, items[0].0, items[0].1);
      MergeAllInto(m, MergeOne(batch, items[0].0, items[0].1), items[1..]);
    }
  }

  /** Nor does it matter whether a domain occurs twice: items merged into a batch first, as a flush
      collects them, and the batch then in one step come to the same. */
  lemma MergeAllInOneStep(m: Ledger, items: seq<(Domain, Entry)>)
    ensures MergeAll(m, items) == MergeLedger(m, MergeAll(map[], items))
  {
    MergeAllInto(m, map[], items);
    assert MergeLedger(m, map[]) == m;
  }

  /** The last address an item names for a domain is the one kept, and the activity time never goes
      back. Items without an address do not erase one. */
  lemma {:induction false} LatestAddressWins(m: Ledger, items: seq<(Domain, Entry)>, d: Domain, k: nat)
    requires k < |items| && items[k].0 == d && items[k].1.ip != ""
    requires forall j :: k < j < |items| && items[j].0 == d ==> items[j].1.ip == ""
    ensures d in MergeAll(m, items) && MergeAll(m, items)[d].ip == items[k].1.ip
    ensures MergeAll(m, items)[d].lastActive >= items[k].1.lastActive
    decreases |items|
  {
    var next := MergeOne(m, items[0].0, items[0].1);
    assert forall j :: 1 <= j < |items| ==> items[1..][j - 1] == items[j];
    if k > 0 {
      LatestAddressWins(next, items[1..], d, k - 1);
    } else {
      AddressStays(next, items[1..], d);
    }
  }

  lemma {:induction false} AddressStays(m: Ledger, items: seq<(Domain, Entry)>, d: Domain)
    requires d in m && forall j :: 0 <= j < |items| && items[j].0 == d ==> items[j].1.ip == ""
    ensures d in MergeAll(m, items) && MergeAll(m, items)[d].ip == m[d].ip
    ensures MergeAll(m, items)[d].lastActive >= m[d].lastActive
    decreases |items|
  {
    if items != [] {
      assert forall j :: 1 <= j < |items| ==> items[1..][j - 1] == items[j];
      AddressStays(MergeOne(m, items[0].0, items[0].1), items[1..], d);
    }
  }

  lemma {:induction false} MergeAllSplit(m: Ledger, items: seq<(Domain, Entry)>, i: nat)
    requires i < |items|
    ensures MergeAll(m, items[..i + 1]) == MergeOne(MergeAll(m, items[..i]), items[i].0, items[i].1)
    decreases i
  {
    hide MergeOne;
    var front := items[..i + 1];
    if i == 0 {
      assert front[1..] == [];
    } else {
      assert front[1..] == items[1..][..i] && items[..i][1..] == items[1..][..i - 1];
      MergeAllSplit(MergeOne(m, items[0].0, items[0].1), items[1..], i - 1);
    }
  }

  class Table {
    var rows: Ledger

    constructor ()
      ensures rows == map[]
    {
      rows := map[];
    }

    method MergeEntries(items: seq<(Domain, Entry)>)
      modifies this
      ensures rows == MergeAll(old(rows), items)
      ensures rows == MergeLedger(old(rows), MergeAll(map[], items))
      ensures forall batch :: Lists(items, batch) ==> rows == MergeLedger(old(rows), batch)
      ensures forall d, w :: Held(old(rows), d, w) + SumItems(items, d, w) <= U64_MAX ==>
                Held(rows, d, w) == Held(old(rows), d, w) + SumItems(items, d, w)
    {
      ghost var before := rows;
      for i := 0 to |items|
        invariant rows == MergeAll(before, items[..i])
      {
        MergeAllSplit(before, items, i);
        var (key, value) := items[i];
        if key in rows {
          var current := rows[key];
          rows := rows[key := Absorb(current, value)];
        } else {
          rows := rows[key := value];
        }
      }
      assert items[..|items|] == items;
      forall d, w | Held(before, d, w) + SumItems(items, d, w) <= U64_MAX
        ensures Held(rows, d, w) == Held(before, d, w) + SumItems(items, d, w)
      {
        MergeAllAdds(before, items, d, w);
      }
      MergeAllInOneStep(before, items);
      forall batch | Lists(items, batch)
        ensures rows == MergeLedger(before, batch)
      {
        MergeAllIsMergeLedger(before, items, batch);
      }
    }

    /** Reads every row and leaves none. */
    method DrainEntries() returns (entries: Ledger)
      modifies this
      ensures entries == old(rows) && rows == map[]
    {
      entries := rows;
      var keys := rows.Keys;
      while keys != {}
        invariant rows.Keys == keys
        decreases |keys|
      {
        var key :| key in keys;
        rows := rows - {key};
        keys := keys - {key};
      }
    }
  }
}
