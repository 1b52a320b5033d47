/** Connecting to a target with several addresses (src/proxy/outbound/dial.rs): the order of attempts
    (section 4 of RFC 8305) and the attempts themselves (section 5). */
module Dialing {
  import opened Wire

  const FAILED_ADDR_TTL := 60_000
  const FAILED_ADDR_LIMIT := 1024

  datatype Ip = Ip(v6: bool, bits: nat)

  datatype Addr = Addr(ip: Ip, port: u16)

  // ─── Order ──────────────────────────────────────────────────────────────────

  /** The addresses of one family, in order. */
  function Family(s: seq<Addr>, v6: bool): seq<Addr> {
    if s == [] then [] else (if s[0].ip.v6 == v6 then [s[0]] else []) + Family(s[1..], v6)
  }

  /** The addresses that failed recently, or those that did not, in order. */
  function Health(s: seq<Addr>, failed: set<Ip>, sick: bool): seq<Addr> {
    if s == [] then [] else (if (s[0].ip in failed) == sick then [s[0]] else []) + Health(s[1..], failed, sick)
  }

  /** One of each in turn while both last, then the rest. */
  function Interleave<T>(first: seq<T>, second: seq<T>): seq<T>
    decreases |first| + |second|
  {
    if first == [] then second
    else if second == [] then first
    else [first[0], second[0]] + Interleave(first[1..], second[1..])
  }

  /** The order of attempts. `v4` and `v6` are the families after shuffling. */
  function Order(v4: seq<Addr>, v6: seq<Addr>, preferIpv6: bool, failed: set<Ip>): seq<Addr> {
    var ordered := if preferIpv6 then Interleave(v6, v4) else Interleave(v4, v6);
    Health(ordered, failed, false) + Health(ordered, failed, true)
  }

  lemma {:induction false} FamilyParts(s: seq<Addr>)
    ensures multiset(Family(s, false)) + multiset(Family(s, true)) == multiset(s)
  {
    if s != [] {
      FamilyParts(s[1..]);
      assert s == [s[0]] + s[1..];
    }
  }

  lemma {:induction false} HealthParts(s: seq<Addr>, failed: set<Ip>)
    ensures multiset(Health(s, failed, false)) + multiset(Health(s, failed, true)) == multiset(s)
  {
    if s != [] {
      HealthParts(s[1..], failed);
      assert s == [s[0]] + s[1..];
    }
  }

  lemma {:induction false} HealthKeeps(s: seq<Addr>, failed: set<Ip>, sick: bool)
    ensures forall i :: 0 <= i < |Health(s, failed, sick)| ==> (Health(s, failed, sick)[i].ip in failed) == sick
  {
    if s != [] {
      HealthKeeps(s[1..], failed, sick);
    }
  }

  lemma {:induction false} InterleaveParts<T>(first: seq<T>, second: seq<T>)
    ensures multiset(Interleave(first, second)) == multiset(first) + multiset(second)
    decreases |first| + |second|
  {
    if first != [] && second != [] {
      InterleaveParts(first[1..], second[1..]);
      assert first == [first[0]] + first[1..] && second == [second[0]] + second[1..];
    }
  }

  /** The families alternate, the preferred one first, for as long as both last. */
  lemma {:induction false} InterleaveAt<T>(first: seq<T>, second: seq<T>, i: nat)
    requires i < |first| || i < |second|
    ensures var s := Interleave(first, second); var both := Min(|first|, |second|);
            && |s| == |first| + |second|
            && (i < both ==> s[2 * i] == first[i] && s[2 * i + 1] == second[i])
            && (both <= i < |first| ==> s[both + i] == first[i])
            && (both <= i < |second| ==> s[both + i] == second[i])
    decreases |first| + |second|
  {
    if first != [] && second != [] && (|first| > 1 || |second| > 1) {
      var rest := Interleave(first[1..], second[1..]);
      assert Interleave(first, second) == [first[0], second[0]] + rest;
      InterleaveAt(first[1..], second[1..], if i > 0 then i - 1 else 0);
    }
  }

  /** How many of the addresses have this health. */
  function Count(s: seq<Addr>, failed: set<Ip>, sick: bool): nat {
    if s == [] then 0 else (if (s[0].ip in failed) == sick then 1 else 0) + Count(s[1..], failed, sick)
  }

  /** Where a stable sort by health puts the address at index `i`: after all the healthy ones when it
      failed, and after those of its own health that come before it. */
  function Place(s: seq<Addr>, failed: set<Ip>, i: nat): nat
    requires i < |s|
  {
    var sick := s[i].ip in failed;
    (if sick then Count(s, failed, false) else 0) + Count(s[..i], failed, sick)
  }

  lemma {:induction false} HealthAt(s: seq<Addr>, failed: set<Ip>, sick: bool, i: nat)
    requires i < |s| && (s[i].ip in failed) == sick
    ensures var k := Count(s[..i], failed, sick);
            k < |Health(s, failed, sick)| && Health(s, failed, sick)[k] == s[i]
  {
    if i > 0 {
      HealthAt(s[1..], failed, sick, i - 1);
      assert s[..i][0] == s[0] && s[..i][1..] == s[1..][..i - 1];
    }
  }

  lemma {:induction false} HealthCount(s: seq<Addr>, failed: set<Ip>, sick: bool)
    ensures |Health(s, failed, sick)| == Count(s, failed, sick)
  {
    if s != [] {
      HealthCount(s[1..], failed, sick);
    }
  }

  lemma {:induction false} CountGrows(s: seq<Addr>, failed: set<Ip>, sick: bool, i: nat, j: nat)
    requires i < j <= |s|
    ensures Count(s[..i], failed, sick) + (if (s[i].ip in failed) == sick then 1 else 0) <= Count(s[..j], failed, sick)
  {
    assert s[..j][0] == s[0] && s[..j][1..] == s[1..][..j - 1];
    if i > 0 {
      assert s[..i][0] == s[0] && s[..i][1..] == s[1..][..i - 1];
      CountGrows(s[1..], failed, sick, i - 1, j - 1);
    }
  }

  lemma PlacesAscend(s: seq<Addr>, failed: set<Ip>, i: nat, j: nat)
    requires i < |s| && j < |s|
    requires s[i].ip in failed ==> s[j].ip in failed
    requires (s[i].ip in failed <==> s[j].ip in failed) ==> i < j
    ensures Place(s, failed, i) < Place(s, failed, j)
  {
    if s[i].ip in failed <==> s[j].ip in failed {
      CountGrows(s, failed, s[i].ip in failed, i, j);
    } else {
      CountGrows(s, failed, false, i, |s|);
      assert s[..|s|] == s;
    }
  }

  /** The order is a permutation of the addresses: the one at index `i` of the family interleaving
      goes to its place. An address that failed recently comes after every one that did not, and two
      addresses of the same health keep the order of the interleaving. */
  lemma OrderIsInterleavingByHealth(addrs: seq<Addr>, v4: seq<Addr>, v6: seq<Addr>, preferIpv6: bool, failed: set<Ip>)
    requires multiset(v6) == multiset(Family(addrs, true)) && multiset(v4) == multiset(Family(addrs, false))
    ensures var out := Order(v4, v6, preferIpv6, failed);
            var ordered := if preferIpv6 then Interleave(v6, v4) else Interleave(v4, v6);
            && multiset(out) == multiset(addrs) && |out| == |ordered|
            && (forall i: nat :: i < |ordered| ==>
                  Place(ordered, failed, i) < |out| && out[Place(ordered, failed, i)] == ordered[i])
            && (forall i: nat, j: nat :: i < j < |ordered| && (ordered[i].ip in failed <==> ordered[j].ip in failed) ==>
                  Place(ordered, failed, i) < Place(ordered, failed, j))
            && (forall i: nat, j: nat ::
                  i < |ordered| && j < |ordered| && ordered[i].ip !in failed && ordered[j].ip in failed ==>
                  Place(ordered, failed, i) < Place(ordered, failed, j))
            && (forall i, j :: 0 <= i < j < |out| && out[i].ip in failed ==> out[j].ip in failed)
  {
    hide Family, Health, Interleave, Place;
    InterleaveParts(v4, v6);
    InterleaveParts(v6, v4);
    FamilyParts(addrs);
    var ordered := if preferIpv6 then Interleave(v6, v4) else Interleave(v4, v6);
    SortedByHealth(ordered, failed);
  }

  /** What a stable sort by health does. */
  lemma SortedByHealth(ordered: seq<Addr>, failed: set<Ip>)
    ensures var out := Health(ordered, failed, false) + Health(ordered, failed, true);
            && multiset(out) == multiset(ordered) && |out| == |ordered|
            && (forall i: nat :: i < |ordered| ==>
                  Place(ordered, failed, i) < |out| && out[Place(ordered, failed, i)] == ordered[i])
            && (forall i: nat, j: nat :: i < j < |ordered| && (ordered[i].ip in failed <==> ordered[j].ip in failed) ==>
                  Place(ordered, failed, i) < Place(ordered, failed, j))
            && (forall i: nat, j: nat ::
                  i < |ordered| && j < |ordered| && ordered[i].ip !in failed && ordered[j].ip in failed ==>
                  Place(ordered, failed, i) < Place(ordered, failed, j))
            && (forall i, j :: 0 <= i < j < |out| && out[i].ip in failed ==> out[j].ip in failed)
  {
    hide Health, Place;
    HealthParts(ordered, failed);
    HealthKeeps(ordered, failed, false);
    HealthKeeps(ordered, failed, true);
    var out := Health(ordered, failed, false) + Health(ordered, failed, true);
    SameSize(out, ordered);
    forall i: nat | i < |ordered|
      ensures Place(ordered, failed, i) < |out| && out[Place(ordered, failed, i)] == ordered[i]
    {
      PlaceHolds(ordered, failed, i);
    }
    forall i: nat, j: nat | i < |ordered| && j < |ordered| && (ordered[i].ip in failed ==> ordered[j].ip in failed)
                            && ((ordered[i].ip in failed <==> ordered[j].ip in failed) ==> i < j)
      ensures Place(ordered, failed, i) < Place(ordered, failed, j)
    {
      PlacesAscend(ordered, failed, i, j);
    }
  }

  lemma SameSize<T>(a: seq<T>, b: seq<T>)
    requires multiset(a) == multiset(b)
    ensures |a| == |b|
  {
    assert |multiset(a)| == |a| && |multiset(b)| == |b|;
  }

  lemma PlaceHolds(s: seq<Addr>, failed: set<Ip>, i: nat)
    requires i < |s|
    ensures var out := Health(s, failed, false) + Health(s, failed, true);
            Place(s, failed, i) < |out| && out[Place(s, failed, i)] == s[i]
  {
    HealthAt(s, failed, s[i].ip in failed, i);
    HealthCount(s, failed, false);
  }

  /** The loop over the two iterators. */
  method InterleaveAddrs(first: seq<Addr>, second: seq<Addr>) returns (ordered: seq<Addr>)
    ensures ordered == Interleave(first, second)
  {
    ordered := [];
    var a, b := first, second;
    assert [] + Interleave(a, b) == Interleave(a, b);
    while a != [] || b != []
      invariant ordered + Interleave(a, b) == Interleave(first, second)
      decreases |a| + |b|
    {
      if a != [] && b != [] {
        Assoc(ordered, [a[0], b[0]], Interleave(a[1..], b[1..]));
        ordered := ordered + [a[0], b[0]];
        a, b := a[1..], b[1..];
      } else if a != [] {
        Assoc(ordered, [a[0]], a[1..]);
        assert [a[0]] + a[1..] == a;
        ordered := ordered + [a[0]];
        a := a[1..];
        assert Interleave(a, b) == a;
      } else {
        Assoc(ordered, [b[0]], b[1..]);
        assert [b[0]] + b[1..] == b;
        ordered := ordered + [b[0]];
        b := b[1..];
        assert Interleave(a, b) == b;
      }
    }
    assert ordered + [] == ordered;
  }

  // ─── Addresses that failed lately ───────────────────────────────────────────

  predicate Recent(at: map<Ip, nat>, ip: Ip, now: nat) {
    ip in at && (if now >= at[ip] then now - at[ip] else 0) < FAILED_ADDR_TTL
  }

  class FailedAddrs {
    var at: map<Ip, nat>

    constructor ()
      ensures at == map[]
    {
      at := map[];
    }

    /** Marking keeps the bound, and forgets only stale marks unless there are too many fresh ones. */
    method MarkFailed(ip: Ip, now: nat)
      requires |at| <= FAILED_ADDR_LIMIT
      modifies this
      ensures |at| <= FAILED_ADDR_LIMIT
      ensures Recent(at, ip, now)
      ensures forall other :: other in at && other != ip ==> other in old(at) && at[other] == old(at)[other]
      ensures |old(at)| < FAILED_ADDR_LIMIT ==> at == old(at)[ip := now]
      ensures (exists other :: other in old(at) && !Recent(old(at), other, now)) ==>
                forall other :: Recent(old(at), other, now) ==> Recent(at, other, now)
    {
      if |at| >= FAILED_ADDR_LIMIT {
        var kept := map other | other in at && Recent(at, other, now) :: at[other];
        KeptSize(at, kept, now);
        at := kept;
        if |at| >= FAILED_ADDR_LIMIT {
          at := map[];
        }
      }
      AddedSize(at, ip, now);
      at := at[ip := now];
    }

    method MarkConnected(ip: Ip, now: nat)
      modifies this
      ensures at == old(at) - {ip} && !Recent(at, ip, now)
    {
      at := at - {ip};
    }
  }

  lemma KeptSize(at: map<Ip, nat>, kept: map<Ip, nat>, now: nat)
    requires kept == map other | other in at && Recent(at, other, now) :: at[other]
    ensures |kept| <= |at|
    ensures (exists other :: other in at && !Recent(at, other, now)) ==> |kept| < |at|
  {
    assert kept.Keys <= at.Keys;
    Subset(kept.Keys, at.Keys);
    assert |kept| == |kept.Keys| && |at| == |at.Keys|;
    if other :| other in at && !Recent(at, other, now) {
      assert other in at.Keys && other !in kept.Keys;
      Subset(kept.Keys, at.Keys - {other});
    }
  }

  lemma AddedSize(at: map<Ip, nat>, ip: Ip, now: nat)
    ensures |at[ip := now]| == if ip in at then |at| else |at| + 1
  {
    assert at[ip := now].Keys == at.Keys + {ip};
    assert |at[ip := now]| == |at[ip := now].Keys| && |at| == |at.Keys|;
  }

  // ─── Attempts ───────────────────────────────────────────────────────────────

  datatype Error = Error(kind: nat, text: string)

  /** What wakes the loop: the delay has passed, or the attempt at the i-th entry ended. */
  datatype Wake = Delay | Ended(i: nat, error: Option<Error>)

  datatype Verdict = Open | Won(i: nat) | Lost

  /** `started` entries have been taken off the list; `running` are the attempts under way. */
  datatype Race = Race(started: nat, running: set<nat>, errors: seq<(nat, Error)>)

  const FIRST := Race(1, {0}, [])

  function StartNext(r: Race): Race {
    Race(r.started + 1, r.running + {r.started}, r.errors)
  }

  /** One turn of the loop over `n` entries. Wake-ups that name no running attempt, or the delay with
      nothing left to start, cannot happen and change nothing. */
  function Woken(r: Race, n: nat, w: Wake): (Race, Verdict) {
    match w
    case Delay => (if r.started < n then StartNext(r) else r, Open)
    case Ended(i, result) =>
      if i !in r.running then (r, Open)
      else match result
        case None => (r, Won(i))
        case Some(e) =>
          var r' := Race(r.started, r.running - {i}, r.errors + [(i, e)]);
          if r.started < n then (StartNext(r'), Open)
          else (r', if r'.running == {} then Lost else Open)
  }

  function RunRace(r: Race, n: nat, wakes: seq<Wake>): (Race, Verdict)
    decreases |wakes|
  {
    if wakes == [] then (r, Open)
    else
      var (r', v) := Woken(r, n, wakes[0]);
      if v.Open? then RunRace(r', n, wakes[1..]) else (r', v)
  }

  predicate FailedAt(errors: seq<(nat, Error)>, i: nat) {
    exists k :: 0 <= k < |errors| && errors[k].0 == i
  }

  /** The attempts started are a prefix of the list; each is running or has failed, not both, and none
      failed twice. */
  ghost predicate Tracked(r: Race, n: nat) {
    && r.started <= n
    && (forall i :: i in r.running ==> i < r.started)
    && (forall k :: 0 <= k < |r.errors| ==> r.errors[k].0 < r.started && r.errors[k].0 !in r.running)
    && Distinct(r.errors)
    && (forall i :: 0 <= i < r.started ==> i in r.running || FailedAt(r.errors, i))
  }

  lemma FailedMore(errors: seq<(nat, Error)>, i: nat, e: Error)
    ensures FailedAt(errors + [(i, e)], i)
    ensures forall j :: FailedAt(errors, j) ==> FailedAt(errors + [(i, e)], j)
  {
    var more := errors + [(i, e)];
    assert more[|errors|].0 == i;
    forall j | FailedAt(errors, j)
      ensures FailedAt(more, j)
    {
      var k :| 0 <= k < |errors| && errors[k].0 == j;
      assert more[k].0 == j;
    }
  }

  lemma StartNextTracked(r: Race, n: nat)
    requires Tracked(r, n) && r.started < n
    ensures Tracked(StartNext(r), n) && StartNext(r).running != {}
  {
    hide FailedAt;
    assert r.started in StartNext(r).running;
  }

  lemma FailureTracked(r: Race, n: nat, i: nat, e: Error)
    requires Tracked(r, n) && i in r.running
    ensures Tracked(Race(r.started, r.running - {i}, r.errors + [(i, e)]), n)
  {
    hide FailedAt;
    FailedMore(r.errors, i, e);
  }

  /** The wake-up is a running attempt's success, or its failure. */
  predicate Connects(r: Race, w: Wake) {
    w.Ended? && w.i in r.running && w.error.None?
  }

  predicate Fails(r: Race, w: Wake) {
    w.Ended? && w.i in r.running && w.error.Some?
  }

  /** Every turn keeps the race tracked, with an attempt running as long as it is open. */
  lemma WokenTracked(r: Race, n: nat, w: Wake)
    requires Tracked(r, n) && r.running != {}
    ensures var (r', v) := Woken(r, n, w);
            && Tracked(r', n)
            && (v.Open? ==> r'.running != {})
            && (v.Won? ==> v.i in r'.running && w == Ended(v.i, None))
            && (v.Lost? ==> r'.started == n && r'.running == {})
            && r.started <= r'.started && r.errors <= r'.errors
            && (Connects(r, w) ==> v == Won(w.i))
            && (v.Won? ==> r' == r)
            && r'.errors == r.errors + (if Fails(r, w) then [(w.i, w.error.value)] else [])
            && (!v.Won? ==> r'.started == Min(n, r.started + (if w.Delay? || Fails(r, w) then 1 else 0)))
  {
    hide Tracked;
    assert r.errors + [] == r.errors;
    assert r.started <= n by { TrackedBound(r, n); }
    match w
    case Delay =>
      if r.started < n {
        StartNextTracked(r, n);
      }
    case Ended(i, result) =>
      if i in r.running && result.Some? {
        FailureTracked(r, n, i, result.value);
        assert Tracked(r, n) ==> r.started <= n by { TrackedBound(r, n); }
        if r.started < n {
          StartNextTracked(Race(r.started, r.running - {i}, r.errors + [(i, result.value)]), n);
        }
      }
  }

  lemma TrackedBound(r: Race, n: nat)
    ensures Tracked(r, n) ==> r.started <= n
  {
  }

  lemma {:induction false} RaceTracked(r: Race, n: nat, wakes: seq<Wake>)
    requires Tracked(r, n) && r.running != {}
    ensures var (r', v) := RunRace(r, n, wakes);
            && Tracked(r', n)
            && (v.Open? ==> r'.running != {})
            && (v.Won? ==> v.i in r'.running && Ended(v.i, None) in wakes)
            && (v.Lost? ==> r'.started == n && r'.running == {})
    decreases |wakes|
  {
    hide Tracked, Woken;
    if wakes != [] {
      WokenTracked(r, n, wakes[0]);
      var (r', v) := Woken(r, n, wakes[0]);
      if v.Open? {
        RaceTracked(r', n, wakes[1..]);
      }
    }
  }

  function Delays(wakes: seq<Wake>): nat {
    if wakes == [] then 0 else (if wakes[0].Delay? then 1 else 0) + Delays(wakes[1..])
  }

  lemma {:induction false} RaceCounts(r: Race, n: nat, wakes: seq<Wake>)
    requires Tracked(r, n) && r.running != {}
    ensures var (r', v) := RunRace(r, n, wakes);
            && |r.errors| <= |r'.errors|
            && (v.Open? ==> r'.started == Min(n, r.started + Delays(wakes) + (|r'.errors| - |r.errors|)))
    decreases |wakes|
  {
    hide Tracked, Woken;
    if wakes != [] {
      WokenTracked(r, n, wakes[0]);
      var (r', v) := Woken(r, n, wakes[0]);
      if v.Open? {
        RaceCounts(r', n, wakes[1..]);
      }
    } else {
      TrackedBound(r, n);
    }
  }

  /** As long as the race is open, every delay that passed and every attempt that failed has started
      one more attempt, until all were started. */
  lemma EveryWakeStartsOne(n: nat, wakes: seq<Wake>)
    requires n > 0
    ensures var (r, v) := RunRace(FIRST, n, wakes);
            v.Open? ==> r.started == Min(n, 1 + Delays(wakes) + |r.errors|)
  {
    RaceCounts(FIRST, n, wakes);
  }

  lemma {:induction false} RaceSplit(r: Race, n: nat, before: seq<Wake>, later: seq<Wake>)
    ensures var (r1, v) := RunRace(r, n, before);
            RunRace(r, n, before + later) == if v.Open? then RunRace(r1, n, later) else (r1, v)
    decreases |before|
  {
    hide Woken;
    if before == [] {
      assert before + later == later;
    } else {
      assert (before + later)[0] == before[0] && (before + later)[1..] == before[1..] + later;
      var (r1, v) := Woken(r, n, before[0]);
      if v.Open? {
        RaceSplit(r1, n, before[1..], later);
      }
    }
  }

  /** The first attempt under way to connect wins, at once and whatever comes after; and each one that
      fails before that is recorded, in the order of the failures. */
  lemma FirstToConnectWins(n: nat, wakes: seq<Wake>, k: nat)
    requires n > 0 && k < |wakes| && RunRace(FIRST, n, wakes[..k]).1.Open?
    ensures var r := RunRace(FIRST, n, wakes[..k]).0;
            && (Connects(r, wakes[k]) ==> RunRace(FIRST, n, wakes) == (r, Won(wakes[k].i)))
            && RunRace(FIRST, n, wakes[..k + 1]).0.errors
               == r.errors + (if Fails(r, wakes[k]) then [(wakes[k].i, wakes[k].error.value)] else [])
  {
    hide Woken, Tracked, Connects, Fails;
    var (r, _) := RunRace(FIRST, n, wakes[..k]);
    FirstTracked(n);
    RaceTracked(FIRST, n, wakes[..k]);
    WokenTracked(r, n, wakes[k]);
    assert wakes == wakes[..k] + wakes[k..] && wakes[..k + 1] == wakes[..k] + [wakes[k]];
    RaceSplit(FIRST, n, wakes[..k], wakes[k..]);
    RaceSplit(FIRST, n, wakes[..k], [wakes[k]]);
    var (r', v) := Woken(r, n, wakes[k]);
    assert RunRace(r, n, [wakes[k]]).0 == r' by {
      assert [wakes[k]][1..] == [];
    }
  }

  function Indices(errors: seq<(nat, Error)>): set<nat> {
    if errors == [] then {} else Indices(errors[..|errors| - 1]) + {errors[|errors| - 1].0}
  }

  lemma {:induction false} IndicesAre(errors: seq<(nat, Error)>)
    ensures forall i :: i in Indices(errors) <==> FailedAt(errors, i)
  {
    if errors != [] {
      var m := |errors| - 1;
      var front := errors[..m];
      IndicesAre(front);
      assert errors == front + [errors[m]];
      FailedMore(front, errors[m].0, errors[m].1);
      forall i | FailedAt(errors, i)
        ensures i in Indices(errors)
      {
        var k :| 0 <= k < |errors| && errors[k].0 == i;
        assert k < m ==> front[k].0 == i;
      }
    }
  }

  predicate Distinct(errors: seq<(nat, Error)>) {
    forall j, k :: 0 <= j < k < |errors| ==> errors[j].0 != errors[k].0
  }

  lemma {:induction false} IndicesCount(errors: seq<(nat, Error)>)
    requires Distinct(errors)
    ensures |Indices(errors)| == |errors|
  {
    if errors != [] {
      var m := |errors| - 1;
      IndicesCount(errors[..m]);
      IndicesAre(errors[..m]);
      assert !FailedAt(errors[..m], errors[m].0);
    }
  }

  function Below(n: nat): (s: set<nat>)
    ensures |s| == n && forall i :: i in s <==> 0 <= i < n
  {
    if n == 0 then {} else Below(n - 1) + {n - 1}
  }

  /** `connect_tcp_any` on a non-empty list: attempts started are always a prefix of the list, each
      entry at most once; some attempt runs as long as the race is open; it is won by an attempt that
      was started and connected; and it is lost only when every entry was tried and failed, with each
      named exactly once. */
  lemma RaceOutcome(n: nat, wakes: seq<Wake>)
    requires n > 0
    ensures var (r, v) := RunRace(FIRST, n, wakes);
            && Tracked(r, n)
            && (v.Open? ==> r.running != {})
            && (v.Won? ==> v.i < r.started && Ended(v.i, None) in wakes && !FailedAt(r.errors, v.i))
            && (v.Lost? ==> |r.errors| == n && forall i :: 0 <= i < n ==> FailedAt(r.errors, i))
  {
    RaceTracked(FIRST, n, wakes);
    var (r, v) := RunRace(FIRST, n, wakes);
    if v.Lost? {
      IndicesAre(r.errors);
      IndicesCount(r.errors);
      assert Indices(r.errors) == Below(n);
    }
  }

  // ─── The result ─────────────────────────────────────────────────────────────

  datatype Result =
    | NoAddress
    | StillDialing
    | Connected(addr: Addr)
    | OneError(error: Error)
    | AllFailed(errors: seq<(Addr, Error)>)

  /** `combine_errors`: a single error as it is, several named together. */
  function Combine(addrs: seq<Addr>, errors: seq<(nat, Error)>): Result
    requires forall k :: 0 <= k < |errors| ==> errors[k].0 < |addrs|
  {
    if |errors| == 1 then OneError(errors[0].1) else AllFailed(Named(addrs, errors))
  }

  function Named(addrs: seq<Addr>, errors: seq<(nat, Error)>): (named: seq<(Addr, Error)>)
    requires forall k :: 0 <= k < |errors| ==> errors[k].0 < |addrs|
    ensures |named| == |errors|
    ensures forall k :: 0 <= k < |errors| ==> named[k] == (addrs[errors[k].0], errors[k].1)
  {
    if errors == [] then []
    else Named(addrs, errors[..|errors| - 1]) + [(addrs[errors[|errors| - 1].0], errors[|errors| - 1].1)]
  }

  ghost predicate Answers(result: Result, addrs: seq<Addr>, r: Race, v: Verdict) {
    match v
    case Open => result == StillDialing
    case Won(i) => i < |addrs| && result == Connected(addrs[i])
    case Lost =>
      && (forall k :: 0 <= k < |r.errors| ==> r.errors[k].0 < |addrs|)
      && result == Combine(addrs, r.errors)
  }

  method ConnectAny(addrs: seq<Addr>, wakes: seq<Wake>, failed: FailedAddrs, now: nat) returns (result: Result)
    requires |failed.at| <= FAILED_ADDR_LIMIT
    modifies failed
    ensures |failed.at| <= FAILED_ADDR_LIMIT
    ensures addrs == [] ==> result == NoAddress && failed.at == old(failed.at)
    ensures addrs != [] ==> var (r, v) := RunRace(FIRST, |addrs|, wakes); Answers(result, addrs, r, v)
    ensures result.Connected? ==> !Recent(failed.at, result.addr.ip, now)
  {
    if addrs == [] {
      return NoAddress;
    }
    hide Tracked;
    var race := FIRST;
    assert Tracked(FIRST, |addrs|) by { FirstTracked(|addrs|); }
    ghost var todo := wakes;
    var n := 0;
    while n < |wakes|
      invariant n <= |wakes| && todo == wakes[n..]
      invariant RunRace(race, |addrs|, todo) == RunRace(FIRST, |addrs|, wakes)
      invariant Tracked(race, |addrs|) && race.running != {}
      invariant |failed.at| <= FAILED_ADDR_LIMIT
      decreases |wakes| - n
    {
      var wake := wakes[n];
      WokenTracked(race, |addrs|, wake);
      var (next, verdict) := Woken(race, |addrs|, wake);
      InRange(race, |addrs|);
      InRange(next, |addrs|);
      if wake.Ended? && wake.i in race.running {
        if wake.error.None? {
          failed.MarkConnected(addrs[wake.i].ip, now);
        } else {
          failed.MarkFailed(addrs[wake.i].ip, now);
        }
      }
      race := next;
      match verdict {
        case Won(i) => return Connected(addrs[i]);
        case Lost => return Combine(addrs, race.errors);
        case Open =>
      }
      todo := todo[1..];
      n := n + 1;
    }
    return StillDialing;
  }

  lemma FirstTracked(n: nat)
    requires n > 0
    ensures Tracked(FIRST, n)
  {
  }

  lemma InRange(r: Race, n: nat)
    requires Tracked(r, n)
    ensures forall i :: i in r.running ==> i < n
    ensures forall k :: 0 <= k < |r.errors| ==> r.errors[k].0 < n
  {
  }
}
