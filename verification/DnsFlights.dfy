/** Single flight (src/dns/cache.rs, `join`, `FlightLeader`, `follow`; src/dns/mod.rs,
    `exchange_with_cache`): concurrent misses of one question share one upstream query. Each event is
    one access to the cache or the in-flight map by one of any number of callers. */
module SingleFlight {
  import opened Wire

  type Key = string
  type Caller = nat
  type FlightId = nat

  /** A response without its id. */
  type Body = seq<byte>

  datatype Outcome = Answer(body: Body) | Error

  /** What the caller gets: a packet with its id, or an error. */
  datatype Reply = Packet(id: u16, body: Body) | Failed

  datatype Source = FromCache | FromFlight(flight: FlightId) | FromUpstream

  datatype Phase =
    | Asking                                               // before the first look into the cache
    | Missed                                               // before `join`
    | Following(flight: FlightId)                          // waiting for a leader
    | Released(flight: FlightId)                           // let go without an outcome
    | Alone(flight: FlightId)                              // querying after a release and a second miss
    | Leading(flight: FlightId)                            // before the leader's second look
    | Querying(flight: FlightId)                           // the leader's upstream query
    | Answered(flight: FlightId, result: Outcome, id: u16) // before `has_followers`
    | Finishing(flight: FlightId, shared: Outcome, reply: Reply)
    | Dropping(flight: FlightId, reply: Reply, source: Source)
    | Ending(flight: FlightId, status: Status, next: Phase) // out of the map, the outcome not yet sent
    | Done(reply: Reply, source: Source)
    | Cancelled

  datatype Who = Who(key: Key, id: u16, phase: Phase)

  datatype Status = Open | Shared(outcome: Outcome) | LetGo

  /** `leader` and `result` keep the history of a flight. */
  datatype Flight = Flight(key: Key, leader: Caller, status: Status, result: Option<Outcome>)

  datatype State = State(callers: map<Caller, Who>, inflight: map<Key, FlightId>, flights: map<FlightId, Flight>,
                         cached: map<Key, Body>, unused: FlightId)

  const START := State(map[], map[], map[], map[], 0)

  datatype Event =
    | Arrive(who: Caller, key: Key, id: u16)
    | Look(who: Caller)
    | Join(who: Caller)
    | Observe(who: Caller)
    | Upstream(who: Caller, result: Outcome, id: u16, stored: bool)
    | Count(who: Caller, builds: bool)
    | Finish(who: Caller)
    | Drop(who: Caller)
    | Publish(who: Caller)
    | Cancel(who: Caller)
    | Expire(key: Key)

  /** The flight a caller leads, while it does. */
  function Leads(phase: Phase): Option<FlightId> {
    match phase
    case Leading(f) => Some(f)
    case Querying(f) => Some(f)
    case Answered(f, _, _) => Some(f)
    case Finishing(f, _, _) => Some(f)
    case Dropping(f, _, _) => Some(f)
    case _ => None
  }

  predicate Followed(s: State, f: FlightId) {
    exists c :: c in s.callers && s.callers[c].phase == Following(f)
  }

  predicate Can(s: State, e: Event) {
    match e
    case Arrive(c, _, _) => c !in s.callers
    case Expire(_) => true
    case _ =>
      && e.who in s.callers
      && var phase := s.callers[e.who].phase;
      match e
      case Look(_) => phase.Asking? || phase.Released? || phase.Leading?
      case Join(_) => phase.Missed?
      case Observe(_) => phase.Following? && phase.flight in s.flights && !s.flights[phase.flight].status.Open?
      case Upstream(_, _, _, _) => phase.Alone? || (phase.Querying? && phase.flight in s.flights)
      case Count(_, _) => phase.Answered?
      case Finish(_) => phase.Finishing?
      case Drop(_) => phase.Dropping?
      case Publish(_) => phase.Ending? && phase.flight in s.flights
      case Cancel(_) => !phase.Ending?
  }

  function Enter(s: State, c: Caller, phase: Phase): State
    requires c in s.callers
  {
    s.(callers := s.callers[c := s.callers[c].(phase := phase)])
  }

  /** `cached_response`, with the id of the caller's own query. */
  function LookUp(s: State, c: Caller): State
    requires c in s.callers
  {
    var Who(key, id, phase) := s.callers[c];
    if key in s.cached then
      var reply := Packet(id, s.cached[key]);
      Enter(s, c, if phase.Leading? then Dropping(phase.flight, reply, FromCache) else Done(reply, FromCache))
    else
      Enter(s, c, match phase
                  case Leading(f) => Querying(f)
                  case Released(f) => Alone(f)
                  case _ => Missed)
  }

  function JoinFlight(s: State, c: Caller): State
    requires c in s.callers
  {
    var key := s.callers[c].key;
    if key in s.inflight then Enter(s, c, Following(s.inflight[key]))
    else
      var f := s.unused;
      Enter(s, c, Leading(f)).(inflight := s.inflight[key := f], flights := s.flights[f := Flight(key, c, Open, None)],
                               unused := f + 1)
  }

  /** A follower's wait ends with the outcome, or without one. */
  function ObserveFlight(s: State, c: Caller, f: FlightId): State
    requires c in s.callers && f in s.flights
  {
    match s.flights[f].status
    case Shared(Answer(body)) => Enter(s, c, Done(Packet(s.callers[c].id, body), FromFlight(f)))
    case Shared(Error) => Enter(s, c, Done(Failed, FromFlight(f)))
    case _ => Enter(s, c, Released(f))
  }

  function ReplyOf(result: Outcome, id: u16): Reply {
    if result.Answer? then Packet(id, result.body) else Failed
  }

  /** `exchange_and_store`: a response worth keeping goes into the cache. */
  function FromServer(s: State, c: Caller, result: Outcome, id: u16, stored: bool): State
    requires c in s.callers && (s.callers[c].phase.Alone? || s.callers[c].phase.Querying?)
    requires s.callers[c].phase.Querying? ==> s.callers[c].phase.flight in s.flights
  {
    var Who(key, _, phase) := s.callers[c];
    var s1 := if stored && result.Answer? then s.(cached := s.cached[key := result.body]) else s;
    if phase.Querying? then
      Enter(s1, c, Answered(phase.flight, result, id))
        .(flights := s.flights[phase.flight := s.flights[phase.flight].(result := Some(result))])
    else Enter(s1, c, Done(ReplyOf(result, id), FromUpstream))
  }

  /** `has_followers`; the outcome for them may fail to build. */
  ghost function CountFollowers(s: State, c: Caller, builds: bool): State
    requires c in s.callers && s.callers[c].phase.Answered?
  {
    var Answered(f, result, id) := s.callers[c].phase;
    var reply := ReplyOf(result, id);
    Enter(s, c, if Followed(s, f) then Finishing(f, if builds then result else Error, reply)
                else Dropping(f, reply, FromUpstream))
  }

  /** The end of a flight begins: its leader takes it out of the map. Nothing suspends the leader
      before it sends the outcome, or drops the sender without one, but others run in between. */
  function Remove(s: State, c: Caller, f: FlightId, status: Status, next: Phase): State
    requires c in s.callers
  {
    Enter(s.(inflight := s.inflight - {s.callers[c].key}), c, Ending(f, status, next))
  }

  function PublishOutcome(s: State, c: Caller): State
    requires c in s.callers && s.callers[c].phase.Ending? && s.callers[c].phase.flight in s.flights
  {
    var Ending(f, status, next) := s.callers[c].phase;
    Enter(s.(flights := s.flights[f := s.flights[f].(status := status)]), c, next)
  }

  ghost function Step(s: State, e: Event): State
    requires Can(s, e)
  {
    match e
    case Arrive(c, key, id) => s.(callers := s.callers[c := Who(key, id, Asking)])
    case Look(c) => LookUp(s, c)
    case Join(c) => JoinFlight(s, c)
    case Observe(c) => ObserveFlight(s, c, s.callers[c].phase.flight)
    case Upstream(c, result, id, stored) => FromServer(s, c, result, id, stored)
    case Count(c, builds) => CountFollowers(s, c, builds)
    case Finish(c) =>
      var phase := s.callers[c].phase;
      Remove(s, c, phase.flight, Shared(phase.shared), Done(phase.reply, FromUpstream))
    case Drop(c) =>
      var phase := s.callers[c].phase;
      Remove(s, c, phase.flight, LetGo, Done(phase.reply, phase.source))
    case Publish(c) => PublishOutcome(s, c)
    case Cancel(c) =>
      var phase := s.callers[c].phase;
      if Leads(phase).Some? then Remove(s, c, Leads(phase).value, LetGo, Cancelled) else Enter(s, c, Cancelled)
    case Expire(key) => s.(cached := s.cached - {key})
  }

  // ─── What every run keeps ───────────────────────────────────────────────────

  /** A key is in flight exactly while its leader lives. */
  ghost predicate LeadersMatch(s: State) {
    && (forall key :: key in s.inflight ==> InFlight(s, key, s.inflight[key]))
    && (forall c :: c in s.callers && Leads(s.callers[c].phase).Some? ==>
          IsLeader(s, c, Leads(s.callers[c].phase).value))
    && (forall f :: f in s.flights ==> f < s.unused)
    && (forall f :: f in s.flights && s.flights[f].status.Open? ==> Live(s, f))
  }

  /** Nobody waits in vain: an open flight is in the map or about to get its outcome. */
  predicate Live(s: State, f: FlightId)
    requires f in s.flights
  {
    || (s.flights[f].key in s.inflight && s.inflight[s.flights[f].key] == f)
    || (s.flights[f].leader in s.callers && Ends(s.callers[s.flights[f].leader].phase, f))
  }

  predicate Ends(phase: Phase, f: FlightId) {
    phase.Ending? && phase.flight == f
  }

  predicate InFlight(s: State, key: Key, f: FlightId) {
    && f in s.flights && s.flights[f].key == key && s.flights[f].status.Open?
    && var c := s.flights[f].leader;
    && c in s.callers && s.callers[c].key == key && Leads(s.callers[c].phase) == Some(f)
  }

  predicate IsLeader(s: State, c: Caller, f: FlightId)
    requires c in s.callers
  {
    && f in s.flights && s.flights[f].leader == c
    && s.callers[c].key in s.inflight && s.inflight[s.callers[c].key] == f
  }

  /** Where a caller stands agrees with the flight it is on. */
  predicate CallerOk(s: State, c: Caller)
    requires c in s.callers
  {
    var Who(key, id, phase) := s.callers[c];
    match phase
    case Following(f) => f in s.flights && s.flights[f].key == key
    case Released(f) => f in s.flights && s.flights[f].key == key && s.flights[f].status.LetGo?
    case Alone(f) => f in s.flights && s.flights[f].key == key && s.flights[f].status.LetGo?
    case Answered(f, result, _) => f in s.flights && s.flights[f].result == Some(result)
    case Finishing(f, shared, _) => f in s.flights && ResultOf(s.flights[f], shared)
    case Dropping(f, reply, source) => ReplyOk(s, key, id, reply, source) && !source.FromFlight?
    case Ending(f, status, next) =>
      && f in s.flights && s.flights[f].status.Open? && s.flights[f].leader == c
      && !status.Open? && (status.Shared? ==> ResultOf(s.flights[f], status.outcome))
      && (next.Cancelled? || (next.Done? && ReplyOk(s, key, id, next.reply, next.source) && !next.source.FromFlight?))
    case Done(reply, source) => ReplyOk(s, key, id, reply, source)
    case _ => true
  }

  /** A shared outcome is the leader's own result, or an error in its place. */
  predicate ResultOf(flight: Flight, shared: Outcome) {
    flight.result.Some? && (shared == flight.result.value || shared == Error)
  }

  predicate ReplyOk(s: State, key: Key, id: u16, reply: Reply, source: Source) {
    match source
    case FromCache => reply.Packet? && reply.id == id
    case FromFlight(f) =>
      && f in s.flights && s.flights[f].key == key && s.flights[f].status.Shared?
      && reply == ReplyOf(s.flights[f].status.outcome, id)
    case FromUpstream => true
  }

  ghost predicate Inv(s: State) {
    && LeadersMatch(s)
    && (forall c :: c in s.callers ==> CallerOk(s, c))
    && (forall f :: f in s.flights && s.flights[f].status.Shared? ==>
          ResultOf(s.flights[f], s.flights[f].status.outcome))
  }

  /** A caller moved on without beginning or ending to lead. */
  lemma MovedOn(s: State, c: Caller, phase: Phase, cached: map<Key, Body>)
    requires Inv(s) && c in s.callers && Leads(s.callers[c].phase) == Leads(phase)
    requires !s.callers[c].phase.Ending? && !phase.Ending?
    requires CallerOk(Enter(s, c, phase), c)
    ensures Inv(Enter(s, c, phase).(cached := cached))
  {
    hide LeadersMatch;
    var s' := Enter(s, c, phase).(cached := cached);
    MovedLeaders(s, c, phase, cached);
    forall d | d in s'.callers
      ensures CallerOk(s', d)
    {
      if d != c {
        assert CallerOk(s, d);
      } else {
        assert CallerOk(Enter(s, c, phase), c);
      }
    }
  }

  lemma MovedLeaders(s: State, c: Caller, phase: Phase, cached: map<Key, Body>)
    requires LeadersMatch(s) && c in s.callers && Leads(s.callers[c].phase) == Leads(phase)
    requires !s.callers[c].phase.Ending? && !phase.Ending?
    ensures LeadersMatch(Enter(s, c, phase).(cached := cached))
  {
    var s' := Enter(s, c, phase).(cached := cached);
    forall key | key in s'.inflight
      ensures InFlight(s', key, s'.inflight[key])
    {
      assert InFlight(s, key, s.inflight[key]);
    }
    forall d | d in s'.callers && Leads(s'.callers[d].phase).Some?
      ensures IsLeader(s', d, Leads(s'.callers[d].phase).value)
    {
      assert IsLeader(s, d, Leads(s.callers[d].phase).value);
    }
    assert forall f :: f in s.flights && Live(s, f) ==> Live(s', f);
  }

  lemma ArriveKeeps(s: State, c: Caller, key: Key, id: u16)
    requires Inv(s) && c !in s.callers
    ensures Inv(s.(callers := s.callers[c := Who(key, id, Asking)]))
  {
    var s' := s.(callers := s.callers[c := Who(key, id, Asking)]);
    forall k | k in s'.inflight
      ensures InFlight(s', k, s'.inflight[k])
    {
      assert InFlight(s, k, s.inflight[k]);
    }
    forall d | d in s'.callers && Leads(s'.callers[d].phase).Some?
      ensures IsLeader(s', d, Leads(s'.callers[d].phase).value)
    {
      assert IsLeader(s, d, Leads(s.callers[d].phase).value);
    }
    forall d | d in s'.callers
      ensures CallerOk(s', d)
    {
      assert d != c ==> CallerOk(s, d);
    }
  }

  lemma JoinKeeps(s: State, c: Caller)
    requires Inv(s) && c in s.callers && s.callers[c].phase.Missed?
    ensures Inv(JoinFlight(s, c))
  {
    var key := s.callers[c].key;
    if key in s.inflight {
      assert InFlight(s, key, s.inflight[key]);
      MovedOn(s, c, Following(s.inflight[key]), s.cached);
    } else {
      LeadKeeps(s, c);
    }
  }

  lemma LeadKeeps(s: State, c: Caller)
    requires Inv(s) && c in s.callers && s.callers[c].phase.Missed? && s.callers[c].key !in s.inflight
    ensures Inv(JoinFlight(s, c))
  {
    hide LeadersMatch;
    var s' := JoinFlight(s, c);
    LeadLeaders(s, c);
    forall d | d in s'.callers
      ensures CallerOk(s', d)
    {
      assert d != c ==> CallerOk(s, d);
    }
  }

  lemma LeadLeaders(s: State, c: Caller)
    requires LeadersMatch(s) && c in s.callers && s.callers[c].phase.Missed? && s.callers[c].key !in s.inflight
    ensures LeadersMatch(JoinFlight(s, c)) && s.unused !in s.flights
  {
    var s' := JoinFlight(s, c);
    assert s.unused !in s.flights;
    forall k | k in s'.inflight
      ensures InFlight(s', k, s'.inflight[k])
    {
      assert k in s.inflight ==> InFlight(s, k, s.inflight[k]);
    }
    forall d | d in s'.callers && Leads(s'.callers[d].phase).Some?
      ensures IsLeader(s', d, Leads(s'.callers[d].phase).value)
    {
      assert d != c ==> IsLeader(s, d, Leads(s.callers[d].phase).value);
    }
    forall g | g in s'.flights && s'.flights[g].status.Open?
      ensures Live(s', g)
    {
      assert g != s.unused ==> Live(s, g);
    }
  }

  /** Callers other than `c` stand as they did when their flights kept key, result and, once over,
      status. */
  lemma OthersOk(s: State, s': State, c: Caller)
    requires forall d :: d in s.callers ==> CallerOk(s, d)
    requires s'.callers.Keys == s.callers.Keys && c in s.callers && CallerOk(s', c)
    requires forall d :: d in s.callers && d != c ==>
               s'.callers[d] == s.callers[d] && SameResult(s, s', s.callers[d].phase)
    requires forall f :: f in s.flights ==> Kept(s, s', f)
    ensures forall d :: d in s'.callers ==> CallerOk(s', d)
  {
    forall d | d in s'.callers
      ensures CallerOk(s', d)
    {
      assert CallerOk(s, d);
      if d != c {
        assert SameResult(s, s', s.callers[d].phase);
      }
    }
  }

  predicate Kept(s: State, s': State, f: FlightId)
    requires f in s.flights
  {
    && f in s'.flights && s'.flights[f].key == s.flights[f].key
    && (!s.flights[f].status.Open? ==> s'.flights[f] == s.flights[f])
  }

  predicate SameResult(s: State, s': State, phase: Phase) {
    && ((phase.Answered? || phase.Finishing?) && phase.flight in s.flights ==>
          phase.flight in s'.flights && s'.flights[phase.flight].result == s.flights[phase.flight].result)
    && (phase.Ending? && phase.flight in s.flights ==>
          phase.flight in s'.flights && s'.flights[phase.flight] == s.flights[phase.flight])
  }

  /** Another leader is on another flight. */
  lemma OtherFlight(s: State, c: Caller, d: Caller)
    requires LeadersMatch(s) && c in s.callers && d in s.callers && c != d
    requires Leads(s.callers[c].phase).Some? && Leads(s.callers[d].phase).Some?
    ensures Leads(s.callers[c].phase) != Leads(s.callers[d].phase)
  {
    assert IsLeader(s, c, Leads(s.callers[c].phase).value) && IsLeader(s, d, Leads(s.callers[d].phase).value);
  }

  /** The leader's result is written into its flight. */
  lemma AnsweredKeeps(s: State, c: Caller, result: Outcome, id: u16, stored: bool)
    requires Inv(s) && c in s.callers && s.callers[c].phase.Querying? && s.callers[c].phase.flight in s.flights
    ensures Inv(FromServer(s, c, result, id, stored))
  {
    hide CallerOk, FromServer, LeadersMatch, Kept, SameResult;
    var s' := FromServer(s, c, result, id, stored);
    AnsweredLeaders(s, c, result, id, stored);
    AnsweredOk(s, c, result, id, stored);
    AnsweredFlights(s, c, result, id, stored);
    OthersOk(s, s', c);
  }

  lemma AnsweredFlights(s: State, c: Caller, result: Outcome, id: u16, stored: bool)
    requires LeadersMatch(s) && c in s.callers && s.callers[c].phase.Querying? && s.callers[c].phase.flight in s.flights
    requires InFlight(s, s.callers[c].key, s.callers[c].phase.flight)
    requires forall d :: d in s.callers ==> CallerOk(s, d)
    ensures var s' := FromServer(s, c, result, id, stored);
            && s'.callers.Keys == s.callers.Keys
            && (forall d :: d in s.callers && d != c ==>
                  s'.callers[d] == s.callers[d] && SameResult(s, s', s.callers[d].phase))
            && (forall f :: f in s.flights ==> Kept(s, s', f))
            && (forall f :: f in s'.flights && s'.flights[f].status.Shared? ==>
                  f in s.flights && s'.flights[f] == s.flights[f])
  {
    var s' := FromServer(s, c, result, id, stored);
    forall d | d in s.callers && d != c
      ensures SameResult(s, s', s.callers[d].phase)
    {
      if Leads(s.callers[d].phase).Some? {
        OtherFlight(s, c, d);
      } else {
        assert IsLeader(s, c, s.callers[c].phase.flight);
        assert CallerOk(s, d);
      }
    }
  }

  lemma AnsweredOk(s: State, c: Caller, result: Outcome, id: u16, stored: bool)
    requires c in s.callers && s.callers[c].phase.Querying? && s.callers[c].phase.flight in s.flights
    ensures CallerOk(FromServer(s, c, result, id, stored), c)
  {
  }

  lemma AnsweredLeaders(s: State, c: Caller, result: Outcome, id: u16, stored: bool)
    requires LeadersMatch(s) && c in s.callers && s.callers[c].phase.Querying? && s.callers[c].phase.flight in s.flights
    ensures LeadersMatch(FromServer(s, c, result, id, stored))
    ensures InFlight(s, s.callers[c].key, s.callers[c].phase.flight)
  {
    var s' := FromServer(s, c, result, id, stored);
    assert IsLeader(s, c, s.callers[c].phase.flight);
    forall k | k in s'.inflight
      ensures InFlight(s', k, s'.inflight[k])
    {
      assert InFlight(s, k, s.inflight[k]);
    }
    forall d | d in s'.callers && Leads(s'.callers[d].phase).Some?
      ensures IsLeader(s', d, Leads(s'.callers[d].phase).value)
    {
      assert IsLeader(s, d, Leads(s.callers[d].phase).value);
    }
  }

  /** A leader takes its flight out of the map and leads no more. */
  lemma RemoveKeeps(s: State, c: Caller, f: FlightId, status: Status, next: Phase)
    requires Inv(s) && c in s.callers && Leads(s.callers[c].phase) == Some(f)
    requires !status.Open? && (status.Shared? ==> f in s.flights && ResultOf(s.flights[f], status.outcome))
    requires next.Cancelled? || (next.Done? && !next.source.FromFlight? && CallerOk(Enter(s, c, next), c))
    ensures Inv(Remove(s, c, f, status, next))
  {
    var s' := Remove(s, c, f, status, next);
    assert IsLeader(s, c, f);
    assert InFlight(s, s.callers[c].key, f);
    RemoveLeaders(s, c, f, status, next);
    forall d | d in s'.callers
      ensures CallerOk(s', d)
    {
      if d != c {
        assert CallerOk(s, d);
      } else {
        assert next.Done? ==> CallerOk(Enter(s, c, next), c);
      }
    }
  }

  lemma RemoveLeaders(s: State, c: Caller, f: FlightId, status: Status, next: Phase)
    requires LeadersMatch(s) && c in s.callers && Leads(s.callers[c].phase) == Some(f)
    ensures LeadersMatch(Remove(s, c, f, status, next))
  {
    var s' := Remove(s, c, f, status, next);
    var key := s.callers[c].key;
    assert IsLeader(s, c, f) && InFlight(s, key, f);
    forall k | k in s'.inflight
      ensures InFlight(s', k, s'.inflight[k])
    {
      assert InFlight(s, k, s.inflight[k]);
    }
    forall d | d in s'.callers && Leads(s'.callers[d].phase).Some?
      ensures IsLeader(s', d, Leads(s'.callers[d].phase).value)
    {
      assert IsLeader(s, d, Leads(s.callers[d].phase).value);
      OtherFlight(s, c, d);
    }
    forall g | g in s'.flights && s'.flights[g].status.Open?
      ensures Live(s', g)
    {
      assert Live(s, g);
    }
  }

  /** The outcome is sent, or the sender dropped. */
  lemma PublishKeeps(s: State, c: Caller)
    requires Inv(s) && Can(s, Publish(c))
    ensures Inv(PublishOutcome(s, c))
  {
    hide LeadersMatch;
    var s' := PublishOutcome(s, c);
    var Ending(f, status, next) := s.callers[c].phase;
    assert CallerOk(s, c);
    PublishLeaders(s, c);
    forall d | d in s.callers && d != c
      ensures SameResult(s, s', s.callers[d].phase)
    {
      assert CallerOk(s, d);
    }
    assert CallerOk(s', c);
    OthersOk(s, s', c);
  }

  lemma PublishLeaders(s: State, c: Caller)
    requires LeadersMatch(s) && Can(s, Publish(c)) && CallerOk(s, c)
    ensures LeadersMatch(PublishOutcome(s, c))
  {
    var s' := PublishOutcome(s, c);
    var f := s.callers[c].phase.flight;
    forall k | k in s'.inflight
      ensures InFlight(s', k, s'.inflight[k])
    {
      assert InFlight(s, k, s.inflight[k]);
    }
    forall d | d in s'.callers && Leads(s'.callers[d].phase).Some?
      ensures IsLeader(s', d, Leads(s'.callers[d].phase).value)
    {
      assert IsLeader(s, d, Leads(s.callers[d].phase).value);
    }
    forall g | g in s'.flights && s'.flights[g].status.Open?
      ensures Live(s', g)
    {
      assert Live(s, g);
    }
  }

  lemma StepKeepsInv(s: State, e: Event)
    requires Inv(s) && Can(s, e)
    ensures Inv(Step(s, e))
  {
    hide Inv, CallerOk;
    match e
    case Arrive(c, key, id) => ArriveKeeps(s, c, key, id);
    case Look(c) => LookKeeps(s, c);
    case Join(c) => JoinKeeps(s, c);
    case Observe(c) => ObserveKeeps(s, c);
    case Upstream(c, result, id, stored) =>
      if s.callers[c].phase.Querying? {
        AnsweredKeeps(s, c, result, id, stored);
      } else {
        AloneKeeps(s, c, result, id, stored);
      }
    case Count(c, builds) => CountKeeps(s, c, builds);
    case Finish(c) => FinishKeeps(s, c);
    case Drop(c) => DropKeeps(s, c);
    case Publish(c) => PublishKeeps(s, c);
    case Cancel(c) => CancelKeeps(s, c);
    case Expire(key) => ExpireKeeps(s, key);
  }

  lemma LookKeeps(s: State, c: Caller)
    requires Inv(s) && Can(s, Look(c))
    ensures Inv(LookUp(s, c))
  {
    assert CallerOk(s, c);
    MovedOn(s, c, LookUp(s, c).callers[c].phase, s.cached);
  }

  lemma ObserveKeeps(s: State, c: Caller)
    requires Inv(s) && Can(s, Observe(c))
    ensures Inv(ObserveFlight(s, c, s.callers[c].phase.flight))
  {
    var f := s.callers[c].phase.flight;
    assert CallerOk(s, c);
    MovedOn(s, c, ObserveFlight(s, c, f).callers[c].phase, s.cached);
  }

  lemma AloneKeeps(s: State, c: Caller, result: Outcome, id: u16, stored: bool)
    requires Inv(s) && c in s.callers && s.callers[c].phase.Alone?
    ensures Inv(FromServer(s, c, result, id, stored))
  {
    MovedOn(s, c, Done(ReplyOf(result, id), FromUpstream), FromServer(s, c, result, id, stored).cached);
  }

  lemma CountKeeps(s: State, c: Caller, builds: bool)
    requires Inv(s) && Can(s, Count(c, builds))
    ensures Inv(CountFollowers(s, c, builds))
  {
    assert CallerOk(s, c);
    MovedOn(s, c, CountFollowers(s, c, builds).callers[c].phase, s.cached);
  }

  lemma FinishKeeps(s: State, c: Caller)
    requires Inv(s) && Can(s, Finish(c))
    ensures Inv(Step(s, Finish(c)))
  {
    assert CallerOk(s, c);
    var phase := s.callers[c].phase;
    RemoveKeeps(s, c, phase.flight, Shared(phase.shared), Done(phase.reply, FromUpstream));
  }

  lemma DropKeeps(s: State, c: Caller)
    requires Inv(s) && Can(s, Drop(c))
    ensures Inv(Step(s, Drop(c)))
  {
    assert CallerOk(s, c);
    var phase := s.callers[c].phase;
    RemoveKeeps(s, c, phase.flight, LetGo, Done(phase.reply, phase.source));
  }

  lemma CancelKeeps(s: State, c: Caller)
    requires Inv(s) && Can(s, Cancel(c))
    ensures Inv(Step(s, Cancel(c)))
  {
    var phase := s.callers[c].phase;
    if Leads(phase).Some? {
      RemoveKeeps(s, c, Leads(phase).value, LetGo, Cancelled);
    } else {
      MovedOn(s, c, Cancelled, s.cached);
    }
  }

  lemma ExpireKeeps(s: State, key: Key)
    requires Inv(s)
    ensures Inv(s.(cached := s.cached - {key}))
  {
    var s' := s.(cached := s.cached - {key});
    assert forall k :: k in s.inflight ==> InFlight(s, k, s.inflight[k]) && InFlight(s', k, s'.inflight[k]);
    assert forall c :: c in s.callers ==> CallerOk(s, c) && CallerOk(s', c);
    assert forall c, f :: c in s.callers && IsLeader(s, c, f) ==> IsLeader(s', c, f);
  }

  ghost predicate Runs(s: State, es: seq<Event>)
    decreases |es|
  {
    es == [] || (Can(s, es[0]) && Runs(Step(s, es[0]), es[1..]))
  }

  ghost function After(s: State, es: seq<Event>): State
    requires Runs(s, es)
    decreases |es|
  {
    if es == [] then s else After(Step(s, es[0]), es[1..])
  }

  lemma {:induction false} RunKeepsInv(s: State, es: seq<Event>)
    requires Inv(s) && Runs(s, es)
    ensures Inv(After(s, es))
    decreases |es|
  {
    hide Inv, Can, Step;
    if es != [] {
      StepKeepsInv(s, es[0]);
      RunKeepsInv(Step(s, es[0]), es[1..]);
    }
  }

  /** In every run a key has at most one live leader, and is in flight exactly while one lives. */
  lemma OneLeaderPerKey(es: seq<Event>, c: Caller, d: Caller)
    requires Runs(START, es)
    requires var s := After(START, es);
             && c in s.callers && d in s.callers && s.callers[c].key == s.callers[d].key
             && Leads(s.callers[c].phase).Some? && Leads(s.callers[d].phase).Some?
    ensures c == d
  {
    hide After;
    RunKeepsInv(START, es);
    var s := After(START, es);
    assert IsLeader(s, c, Leads(s.callers[c].phase).value) && IsLeader(s, d, Leads(s.callers[d].phase).value);
  }

  lemma InFlightExactlyWhileLed(es: seq<Event>, key: Key)
    requires Runs(START, es)
    ensures var s := After(START, es);
            key in s.inflight <==>
              exists c :: c in s.callers && s.callers[c].key == key && Leads(s.callers[c].phase).Some?
  {
    hide After;
    RunKeepsInv(START, es);
    var s := After(START, es);
    if key in s.inflight {
      assert InFlight(s, key, s.inflight[key]);
    }
    if c :| c in s.callers && s.callers[c].key == key && Leads(s.callers[c].phase).Some? {
      assert IsLeader(s, c, Leads(s.callers[c].phase).value);
    }
  }

  /** A follower waits only while its leader lives or is about to let it know. Its wait ends with the
      result the leader got (or an error if that could not be built), or with a release; and it
      queries upstream itself only after a release. */
  lemma FollowersShareOrAreReleased(es: seq<Event>, c: Caller)
    requires Runs(START, es) && c in After(START, es).callers
    ensures var s := After(START, es);
            var Who(key, id, phase) := s.callers[c];
            && (phase.Following? ==>
                  && phase.flight in s.flights
                  && var flight := s.flights[phase.flight];
                     && (flight.status.Open? ==>
                           && flight.leader in s.callers
                           && var lead := s.callers[flight.leader].phase;
                              Leads(lead) == Some(phase.flight) || Ends(lead, phase.flight))
                     && (flight.status.Shared? ==> ResultOf(flight, flight.status.outcome)))
            && (phase.Alone? ==> phase.flight in s.flights && s.flights[phase.flight].status.LetGo?)
            && (phase.Done? && phase.source.FromFlight? ==>
                  && phase.source.flight in s.flights
                  && var flight := s.flights[phase.source.flight];
                     && flight.key == key && flight.status.Shared? && ResultOf(flight, flight.status.outcome)
                     && phase.reply == ReplyOf(flight.status.outcome, id))
  {
    hide After;
    RunKeepsInv(START, es);
    var s := After(START, es);
    assert CallerOk(s, c);
    if s.callers[c].phase.Following? {
      var f := s.callers[c].phase.flight;
      if s.flights[f].status.Open? {
        assert Live(s, f);
        assert s.flights[f].key in s.inflight && s.inflight[s.flights[f].key] == f ==>
            InFlight(s, s.flights[f].key, f);
      }
    }
  }

  /** At its `i`-th event the run has this caller look into the cache and not find its question. */
  ghost predicate MissesAt(es: seq<Event>, i: nat, c: Caller) {
    && i < |es| && es[i] == Look(c) && Runs(START, es[..i])
    && var s := After(START, es[..i]);
       c in s.callers && s.callers[c].key !in s.cached
  }

  lemma {:induction false} RunSnoc(s: State, es: seq<Event>)
    requires Runs(s, es) && es != []
    ensures var n := |es| - 1;
            Runs(s, es[..n]) && Can(After(s, es[..n]), es[n]) && After(s, es) == Step(After(s, es[..n]), es[n])
    decreases |es|
  {
    hide Can, Step;
    var n := |es| - 1;
    if n > 0 {
      RunSnoc(Step(s, es[0]), es[1..]);
      assert es[..n][0] == es[0] && es[..n][1..] == es[1..][..n - 1] && es[1..][n - 1] == es[n];
    } else {
      assert es[1..] == [] && es[..0] == [];
    }
  }

  predicate MayWait(phase: Phase) {
    phase.Missed? || phase.Following? || phase.Released?
  }

  /** The event is this caller's look into the cache, and its question is not there. */
  predicate LooksInVain(s: State, e: Event, c: Caller) {
    e == Look(c) && c in s.callers && s.callers[c].key !in s.cached
  }

  lemma EndingGoesOn(s: State, c: Caller)
    requires Inv(s) && c in s.callers && s.callers[c].phase.Ending?
    ensures s.callers[c].phase.next.Cancelled? || s.callers[c].phase.next.Done?
  {
    assert CallerOk(s, c);
  }

  lemma StepMisses(s: State, e: Event, c: Caller)
    requires Inv(s) && Can(s, e) && c in Step(s, e).callers
    ensures var phase := Step(s, e).callers[c].phase;
            && (MayWait(phase) ==> LooksInVain(s, e, c) || (c in s.callers && MayWait(s.callers[c].phase)))
            && (phase.Alone? ==>
                  || (c in s.callers && s.callers[c].phase.Alone?)
                  || (LooksInVain(s, e, c) && s.callers[c].phase == Released(phase.flight)))
  {
    hide Inv;
    if e.Publish? {
      EndingGoesOn(s, e.who);
    }
  }

  lemma FirstMiss(es: seq<Event>, c: Caller) returns (i: nat)
    requires Runs(START, es) && c in After(START, es).callers
    requires MayWait(After(START, es).callers[c].phase)
    ensures MissesAt(es, i, c)
    decreases |es|
  {
    hide Can, Step;
    var n := |es| - 1;
    RunSnoc(START, es);
    var before := After(START, es[..n]);
    RunKeepsInv(START, es[..n]);
    StepMisses(before, es[n], c);
    if LooksInVain(before, es[n], c) {
      i := n;
    } else {
      i := FirstMiss(es[..n], c);
      assert es[..n][..i] == es[..i] && es[..n][i] == es[i];
    }
  }

  /** In every run a caller that queries upstream without leading has missed twice, and between the
      two was released from the flight it followed. */
  lemma AloneOnlyAfterASecondMiss(es: seq<Event>, c: Caller) returns (i: nat, j: nat)
    requires Runs(START, es) && c in After(START, es).callers && After(START, es).callers[c].phase.Alone?
    ensures i < j && MissesAt(es, i, c) && MissesAt(es, j, c)
    ensures var s := After(START, es[..j]);
            var f := After(START, es).callers[c].phase.flight;
            s.callers[c].phase == Released(f) && f in s.flights && s.flights[f].status.LetGo?
    decreases |es|
  {
    hide Can, Step;
    var n := |es| - 1;
    RunSnoc(START, es);
    var before := After(START, es[..n]);
    RunKeepsInv(START, es[..n]);
    StepMisses(before, es[n], c);
    if c in before.callers && before.callers[c].phase.Alone? {
      StepStaysAlone(before, es[n], c);
      i, j := AloneOnlyAfterASecondMiss(es[..n], c);
      assert es[..n][..i] == es[..i] && es[..n][i] == es[i];
      assert es[..n][..j] == es[..j] && es[..n][j] == es[j];
    } else {
      i := FirstMiss(es[..n], c);
      j := n;
      assert es[..n][..i] == es[..i] && es[..n][i] == es[i];
      assert CallerOk(before, c);
    }
  }

  lemma StepStaysAlone(s: State, e: Event, c: Caller)
    requires Can(s, e) && c in s.callers && s.callers[c].phase.Alone? && Step(s, e).callers[c].phase.Alone?
    ensures Step(s, e).callers[c].phase == s.callers[c].phase
  {
  }

  /** A packet from the cache or from a shared flight carries the id of the caller's own query. */
  lemma RepliesCarryTheCallersId(es: seq<Event>, c: Caller)
    requires Runs(START, es) && c in After(START, es).callers
    requires var phase := After(START, es).callers[c].phase;
             phase.Done? && phase.reply.Packet? && !phase.source.FromUpstream?
    ensures After(START, es).callers[c].phase.reply.id == After(START, es).callers[c].id
  {
    hide After;
    RunKeepsInv(START, es);
    var s := After(START, es);
    assert CallerOk(s, c);
  }

  // ─── Where a reply comes from ───────────────────────────────────────────────

  lemma StepKeepsQuestion(s: State, e: Event, c: Caller)
    requires Can(s, e) && c in s.callers
    ensures c in Step(s, e).callers
    ensures Step(s, e).callers[c].key == s.callers[c].key && Step(s, e).callers[c].id == s.callers[c].id
  {
  }

  /** A caller's question and id are those it came with. */
  lemma {:induction false} QuestionStays(es: seq<Event>, i: nat, c: Caller)
    requires Runs(START, es) && i <= |es| && Runs(START, es[..i]) && c in After(START, es[..i]).callers
    ensures c in After(START, es).callers
    ensures After(START, es).callers[c].key == After(START, es[..i]).callers[c].key
    ensures After(START, es).callers[c].id == After(START, es[..i]).callers[c].id
    decreases |es|
  {
    hide Can, Step;
    if i == |es| {
      assert es[..i] == es;
    } else {
      var n := |es| - 1;
      RunSnoc(START, es);
      assert es[..n][..i] == es[..i];
      QuestionStays(es[..n], i, c);
      StepKeepsQuestion(After(START, es[..n]), es[n], c);
    }
  }

  /** The event stores this answer to this question. */
  predicate Stores(s: State, e: Event, key: Key, body: Body) {
    e.Upstream? && e.result == Answer(body) && e.stored && e.who in s.callers && s.callers[e.who].key == key
  }

  /** The answer stored last for a question, unless it has expired since. */
  ghost function LastStored(es: seq<Event>, key: Key): Option<Body>
    requires Runs(START, es)
    decreases |es|
  {
    if es == [] then None
    else
      RunSnoc(START, es);
      var n := |es| - 1;
      var s, e := After(START, es[..n]), es[n];
      if e == Expire(key) then None
      else if e.Upstream? && e.result.Answer? && Stores(s, e, key, e.result.body) then Some(e.result.body)
      else LastStored(es[..n], key)
  }

  lemma StepStores(s: State, e: Event, key: Key)
    requires Can(s, e)
    ensures var s' := Step(s, e);
            var stores := e.Upstream? && e.result.Answer? && Stores(s, e, key, e.result.body);
            && (stores ==> key in s'.cached && s'.cached[key] == e.result.body)
            && (e == Expire(key) ==> key !in s'.cached)
            && (!stores && e != Expire(key) ==>
                  (key in s'.cached <==> key in s.cached) && (key in s.cached ==> s'.cached[key] == s.cached[key]))
  {
  }

  /** The cache holds exactly what was stored last. */
  lemma {:induction false} CacheIsLastStored(es: seq<Event>, key: Key)
    requires Runs(START, es)
    ensures key in After(START, es).cached <==> LastStored(es, key).Some?
    ensures key in After(START, es).cached ==> LastStored(es, key) == Some(After(START, es).cached[key])
    decreases |es|
  {
    hide Can, Step, Stores;
    if es != [] {
      var n := |es| - 1;
      RunSnoc(START, es);
      CacheIsLastStored(es[..n], key);
      StepStores(After(START, es[..n]), es[n], key);
    }
  }

  /** At its `i`-th event the run stores this answer to this question. */
  ghost predicate StoredAt(es: seq<Event>, i: nat, key: Key, body: Body) {
    i < |es| && Runs(START, es[..i]) && Stores(After(START, es[..i]), es[i], key, body)
  }

  lemma {:induction false} StoredBefore(es: seq<Event>, key: Key) returns (i: nat)
    requires Runs(START, es) && key in After(START, es).cached
    ensures StoredAt(es, i, key, After(START, es).cached[key])
    decreases |es|
  {
    hide Can, Step, Stores;
    assert es != [];
    var n := |es| - 1;
    RunSnoc(START, es);
    StepStores(After(START, es[..n]), es[n], key);
    if es[n].Upstream? && es[n].result.Answer? && Stores(After(START, es[..n]), es[n], key, es[n].result.body) {
      i := n;
    } else {
      i := StoredBefore(es[..n], key);
      assert es[..n][..i] == es[..i] && es[..n][i] == es[i];
    }
  }

  /** At its `j`-th event the run has this caller find this answer to its question in the cache. */
  ghost predicate FindsAt(es: seq<Event>, j: nat, c: Caller, body: Body) {
    && j < |es| && es[j] == Look(c) && Runs(START, es[..j])
    && var s := After(START, es[..j]);
       c in s.callers && s.callers[c].key in s.cached && s.cached[s.callers[c].key] == body
  }

  /** The reply a caller has in hand from the cache, or from its own query. */
  function InHand(phase: Phase, source: Source): Option<Reply> {
    match phase
    case Answered(_, result, id) => if source == FromUpstream then Some(ReplyOf(result, id)) else None
    case Finishing(_, _, reply) => if source == FromUpstream then Some(reply) else None
    case Dropping(_, reply, from) => if source == from then Some(reply) else None
    case Ending(_, _, next) => InHand(next, source)
    case Done(reply, from) => if source == from then Some(reply) else None
    case _ => None
  }

  function ReplyOfCaller(s: State, c: Caller, source: Source): Option<Reply> {
    if c in s.callers then InHand(s.callers[c].phase, source) else None
  }

  lemma EndingInHand(phase: Phase, source: Source)
    requires phase.Ending?
    ensures InHand(phase, source) == InHand(phase.next, source)
    ensures phase.next.Done? ==>
              InHand(phase, source) == if phase.next.source == source then Some(phase.next.reply) else None
    ensures phase.next.Cancelled? ==> InHand(phase, source) == None
  {
    assert phase.next.Done? ==>
        InHand(phase.next, source) == if phase.next.source == source then Some(phase.next.reply) else None;
  }

  lemma StepFinds(s: State, e: Event, c: Caller)
    requires Can(s, e)
    ensures var reply := ReplyOfCaller(Step(s, e), c, FromCache);
            reply.Some? ==>
              || reply == ReplyOfCaller(s, c, FromCache)
              || (&& e == Look(c) && c in s.callers && s.callers[c].key in s.cached
                  && reply == Some(Packet(s.callers[c].id, s.cached[s.callers[c].key])))
  {
    hide Followed;
    if e.Publish? {
      EndingInHand(s.callers[e.who].phase, FromCache);
    } else if (e.Finish? || e.Drop? || e.Cancel?) && Step(s, e).callers[e.who].phase.Ending? {
      EndingInHand(Step(s, e).callers[e.who].phase, FromCache);
    }
  }

  lemma StepQueries(s: State, e: Event, c: Caller)
    requires Can(s, e)
    ensures var reply := ReplyOfCaller(Step(s, e), c, FromUpstream);
            reply.Some? ==>
              || reply == ReplyOfCaller(s, c, FromUpstream)
              || (e.Upstream? && e.who == c && reply == Some(ReplyOf(e.result, e.id)))
  {
    hide Followed;
    if e.Publish? {
      EndingInHand(s.callers[e.who].phase, FromUpstream);
    } else if (e.Finish? || e.Drop? || e.Cancel?) && Step(s, e).callers[e.who].phase.Ending? {
      EndingInHand(Step(s, e).callers[e.who].phase, FromUpstream);
    }
  }

  lemma {:induction false} FoundBefore(es: seq<Event>, c: Caller, reply: Reply) returns (j: nat)
    requires Runs(START, es) && ReplyOfCaller(After(START, es), c, FromCache) == Some(reply)
    ensures reply.Packet? && FindsAt(es, j, c, reply.body) && reply.id == After(START, es[..j]).callers[c].id
    decreases |es|
  {
    hide Can, Step, ReplyOfCaller;
    assert es != [] by { NothingInHand(c, FromCache); }
    var n := |es| - 1;
    RunSnoc(START, es);
    var s := After(START, es[..n]);
    StepFinds(s, es[n], c);
    if ReplyOfCaller(s, c, FromCache) == Some(reply) {
      j := FoundBefore(es[..n], c, reply);
      assert es[..n][..j] == es[..j] && es[..n][j] == es[j];
    } else {
      j := n;
    }
  }

  lemma NothingInHand(c: Caller, source: Source)
    ensures ReplyOfCaller(START, c, source) == None
  {
  }

  /** In every run a reply from the cache carries the caller's own id and the body it found cached for
      its question at one of its looks, which an earlier answer from upstream to a caller of the same
      question, worth keeping, had brought. */
  lemma CachedReplyWasStored(es: seq<Event>, c: Caller) returns (i: nat, j: nat)
    requires Runs(START, es) && c in After(START, es).callers
    requires var phase := After(START, es).callers[c].phase; phase.Done? && phase.source == FromCache
    ensures var Who(key, id, phase) := After(START, es).callers[c];
            && i < j && phase.reply.Packet? && phase.reply.id == id
            && FindsAt(es, j, c, phase.reply.body) && StoredAt(es, i, key, phase.reply.body)
  {
    hide After, Stores;
    var s := After(START, es);
    var reply := s.callers[c].phase.reply;
    assert ReplyOfCaller(s, c, FromCache) == Some(reply);
    j := FoundBefore(es, c, reply);
    QuestionStays(es, j, c);
    i := StoredBefore(es[..j], s.callers[c].key);
    assert es[..j][..i] == es[..i] && es[..j][i] == es[i];
  }

  /** In every run a reply from upstream is what the caller's own query brought, body, id and failure
      included. */
  lemma {:induction false} UpstreamReplyIsOwn(es: seq<Event>, c: Caller, reply: Reply) returns (i: nat)
    requires Runs(START, es) && ReplyOfCaller(After(START, es), c, FromUpstream) == Some(reply)
    ensures i < |es| && es[i].Upstream? && es[i].who == c && reply == ReplyOf(es[i].result, es[i].id)
    decreases |es|
  {
    hide Can, Step, ReplyOfCaller, ReplyOf;
    assert es != [] by { NothingInHand(c, FromUpstream); }
    var n := |es| - 1;
    RunSnoc(START, es);
    StepQueries(After(START, es[..n]), es[n], c);
    if ReplyOfCaller(After(START, es[..n]), c, FromUpstream) == Some(reply) {
      i := UpstreamReplyIsOwn(es[..n], c, reply);
      assert es[..n][i] == es[i];
    } else {
      i := n;
    }
  }

  lemma StepResult(s: State, e: Event, f: FlightId)
    requires Inv(s) && Can(s, e) && f in Step(s, e).flights && Step(s, e).flights[f].result.Some?
    ensures var flight := Step(s, e).flights[f];
            || (f in s.flights && s.flights[f].result == flight.result && s.flights[f].leader == flight.leader)
            || (e.Upstream? && e.who == flight.leader && flight.result == Some(e.result))
  {
    if e.Upstream? && s.callers[e.who].phase.Querying? {
      assert IsLeader(s, e.who, s.callers[e.who].phase.flight);
    }
  }

  lemma {:induction false} ResultIsLeaders(es: seq<Event>, f: FlightId) returns (i: nat)
    requires Runs(START, es) && f in After(START, es).flights && After(START, es).flights[f].result.Some?
    ensures var flight := After(START, es).flights[f];
            i < |es| && es[i].Upstream? && es[i].who == flight.leader && flight.result == Some(es[i].result)
    decreases |es|
  {
    hide Can, Step, Inv;
    assert es != [];
    var n := |es| - 1;
    RunSnoc(START, es);
    RunKeepsInv(START, es[..n]) by { StartKeepsInv(); }
    var s := After(START, es[..n]);
    StepResult(s, es[n], f);
    if f in s.flights && s.flights[f].result == After(START, es).flights[f].result
       && s.flights[f].leader == After(START, es).flights[f].leader
    {
      i := ResultIsLeaders(es[..n], f);
      assert es[..n][i] == es[i];
    } else {
      i := n;
    }
  }

  lemma StartKeepsInv()
    ensures Inv(START)
  {
  }

  /** An error goes out, or is about to, in place of the answer the leader has. */
  predicate Spoilt(s: State, f: FlightId) {
    f in s.flights && s.flights[f].result.Some? && s.flights[f].result.value.Answer? &&
    (s.flights[f].status == Shared(Error)
     || (s.flights[f].leader in s.callers
         && match s.callers[s.flights[f].leader].phase
            case Finishing(g, shared, _) => f == g && shared == Error
            case Ending(g, status, _) => f == g && status == Shared(Error)
            case _ => false))
  }

  lemma StepSpoils(s: State, e: Event, f: FlightId)
    requires Inv(s) && Can(s, e) && Spoilt(Step(s, e), f)
    ensures f in s.flights && Step(s, e).flights[f].leader == s.flights[f].leader
    ensures Spoilt(s, f) || e == Count(s.flights[f].leader, false)
  {
    hide Followed, LookUp, JoinFlight, ObserveFlight, FromServer, CountFollowers, PublishOutcome, Inv;
    match e
    case Look(c) => LookSpoils(s, c, f);
    case Join(c) => JoinSpoils(s, c, f);
    case Observe(c) => ObserveSpoils(s, c, f);
    case Upstream(c, result, id, stored) => UpstreamSpoils(s, c, result, id, stored, f);
    case Count(c, builds) => CountSpoils(s, c, builds, f);
    case Publish(c) => PublishSpoils(s, c, f);
    case _ =>
  }

  predicate StillSpoilt(s: State, s': State, f: FlightId) {
    Spoilt(s', f) ==> f in s.flights && s'.flights[f].leader == s.flights[f].leader && Spoilt(s, f)
  }

  lemma LookSpoils(s: State, c: Caller, f: FlightId)
    requires c in s.callers
    ensures StillSpoilt(s, LookUp(s, c), f)
  {
  }

  lemma JoinSpoils(s: State, c: Caller, f: FlightId)
    requires c in s.callers
    ensures StillSpoilt(s, JoinFlight(s, c), f)
  {
  }

  lemma ObserveSpoils(s: State, c: Caller, f: FlightId)
    requires c in s.callers && s.callers[c].phase.Following? && s.callers[c].phase.flight in s.flights
    ensures StillSpoilt(s, ObserveFlight(s, c, s.callers[c].phase.flight), f)
  {
  }

  lemma UpstreamSpoils(s: State, c: Caller, result: Outcome, id: u16, stored: bool, f: FlightId)
    requires Inv(s) && Can(s, Upstream(c, result, id, stored))
    ensures StillSpoilt(s, FromServer(s, c, result, id, stored), f)
  {
    hide Followed;
    if s.callers[c].phase.Querying? {
      assert IsLeader(s, c, s.callers[c].phase.flight);
      assert InFlight(s, s.callers[c].key, s.callers[c].phase.flight);
    }
  }

  lemma CountSpoils(s: State, c: Caller, builds: bool, f: FlightId)
    requires Inv(s) && Can(s, Count(c, builds)) && Spoilt(CountFollowers(s, c, builds), f)
    ensures f in s.flights && CountFollowers(s, c, builds).flights[f].leader == s.flights[f].leader
    ensures Spoilt(s, f) || (s.flights[f].leader == c && !builds)
  {
    hide Followed, LeadersMatch;
    assert CallerOk(s, c);
  }

  lemma PublishSpoils(s: State, c: Caller, f: FlightId)
    requires Inv(s) && Can(s, Publish(c))
    ensures StillSpoilt(s, PublishOutcome(s, c), f)
  {
    hide LeadersMatch;
    assert CallerOk(s, c);
  }

  /** In every run an answer is shared as an error only if the leader failed to build the outcome for
      its followers. */
  lemma {:induction false} SpoiltForAReason(es: seq<Event>, f: FlightId) returns (i: nat)
    requires Runs(START, es) && Spoilt(After(START, es), f)
    ensures i < |es| && es[i] == Count(After(START, es).flights[f].leader, false)
    decreases |es|
  {
    hide Can, Step, Inv, Spoilt;
    assert es != [] && f in After(START, es).flights by { NoneSpoilt(f); SpoiltIsKnown(After(START, es), f); }
    var n := |es| - 1;
    RunSnoc(START, es);
    RunKeepsInv(START, es[..n]) by { StartKeepsInv(); }
    StepSpoils(After(START, es[..n]), es[n], f);
    if Spoilt(After(START, es[..n]), f) {
      i := SpoiltForAReason(es[..n], f);
      assert es[..n][i] == es[i];
    } else {
      i := n;
    }
  }

  lemma NoneSpoilt(f: FlightId)
    ensures !Spoilt(START, f)
  {
  }

  lemma SpoiltIsKnown(s: State, f: FlightId)
    requires Spoilt(s, f)
    ensures f in s.flights
  {
  }

  /** In every run a shared reply is what the leader's own query brought, under the follower's id; an
      error stands in its place only if the leader failed to build the outcome it shares. */
  lemma SharedReplyIsLeaders(es: seq<Event>, c: Caller) returns (i: nat, j: nat)
    requires Runs(START, es) && c in After(START, es).callers
    requires var phase := After(START, es).callers[c].phase; phase.Done? && phase.source.FromFlight?
    ensures var s := After(START, es);
            var Who(key, id, phase) := s.callers[c];
            && phase.source.flight in s.flights && s.flights[phase.source.flight].key == key
            && var leader := s.flights[phase.source.flight].leader;
            && i < |es| && es[i].Upstream? && es[i].who == leader
            && (phase.reply == ReplyOf(es[i].result, id)
                || (phase.reply == Failed && j < |es| && es[j] == Count(leader, false)))
  {
    hide After;
    FollowersShareOrAreReleased(es, c);
    var f := After(START, es).callers[c].phase.source.flight;
    i := ResultIsLeaders(es, f);
    j := 0;
    if Spoilt(After(START, es), f) {
      j := SpoiltForAReason(es, f);
    }
  }

  // ─── Cancelled callers ──────────────────────────────────────────────────────

  predicate IsCancelled(s: State, c: Caller) {
    c in s.callers
    && match s.callers[c].phase
       case Cancelled => true
       case Ending(_, status, next) => status.LetGo? && next.Cancelled?
       case _ => false
  }

  lemma StepCancels(s: State, e: Event, c: Caller)
    requires Can(s, e) && (IsCancelled(s, c) || e == Cancel(c))
    ensures IsCancelled(Step(s, e), c)
  {
    hide Followed;
  }

  /** In every run a cancelled caller is never answered: it leaves at once, after letting go of the
      flight it led. */
  lemma {:induction false} CancelledStaysSo(s: State, es: seq<Event>, c: Caller)
    requires Runs(s, es) && (IsCancelled(s, c) || Cancel(c) in es)
    ensures IsCancelled(After(s, es), c)
    decreases |es|
  {
    hide Can, Step, IsCancelled;
    if es != [] {
      if IsCancelled(s, c) || es[0] == Cancel(c) {
        StepCancels(s, es[0], c);
      } else {
        assert Cancel(c) in es[1..];
      }
      CancelledStaysSo(Step(s, es[0]), es[1..], c);
    }
  }

  // ─── Why a flight ends without an outcome ───────────────────────────────────

  /** The leader has given the flight up, or is about to. */
  predicate Quits(s: State, f: FlightId) {
    f in s.flights &&
    (s.flights[f].status.LetGo?
     || (s.flights[f].leader in s.callers
         && match s.callers[s.flights[f].leader].phase
            case Dropping(g, _, _) => f == g
            case Ending(g, status, _) => f == g && status.LetGo?
            case _ => false))
  }

  /** What makes it: it is cancelled, it finds the answer cached after all, or nobody follows it when
      it has its answer. */
  ghost predicate Reason(s: State, e: Event, f: FlightId) {
    && f in s.flights && s.flights[f].leader in s.callers
    && var c := s.flights[f].leader;
       || e == Cancel(c)
       || (e == Look(c) && s.callers[c].key in s.cached)
       || (e.Count? && e.who == c && !Followed(s, f))
  }

  lemma StepQuits(s: State, e: Event, f: FlightId)
    requires Inv(s) && Can(s, e) && Quits(Step(s, e), f)
    ensures Quits(s, f) || Reason(s, e, f)
  {
    hide Followed, LeadersMatch;
    var s' := Step(s, e);
    if f in s.flights && s'.flights[f].status.LetGo? && !s.flights[f].status.LetGo? {
      assert e.Publish? && CallerOk(s, e.who);
    } else {
      assert f in s.flights ==> s'.flights[f].leader == s.flights[f].leader;
    }
  }

  /** The moment the leader of a flight gave it up. */
  ghost predicate GivenUpAt(es: seq<Event>, i: nat, f: FlightId) {
    i < |es| && Runs(START, es[..i]) && Reason(After(START, es[..i]), es[i], f)
  }

  /** In every run a flight is let go without an outcome only when its leader was cancelled, found the
      answer cached after all, or had no follower when it had its answer. In every other case the
      outcome is shared. */
  lemma {:induction false} LetGoForAReason(es: seq<Event>, f: FlightId) returns (i: nat)
    requires Runs(START, es) && Quits(After(START, es), f)
    ensures GivenUpAt(es, i, f)
    decreases |es|
  {
    hide Can, Step, Inv, Quits, Reason;
    assert es != [] by { NoFlight(f); }
    var n := |es| - 1;
    RunSnoc(START, es);
    StartKeepsInv();
    RunKeepsInv(START, es[..n]);
    StepQuits(After(START, es[..n]), es[n], f);
    if Quits(After(START, es[..n]), f) {
      i := LetGoForAReason(es[..n], f);
      assert es[..n][..i] == es[..i] && es[..n][i] == es[i];
    } else {
      i := n;
    }
  }

  lemma NoFlight(f: FlightId)
    ensures !Quits(START, f)
  {
  }

  // ─── Who asks upstream ──────────────────────────────────────────────────────

  lemma StepLeads(s: State, e: Event, c: Caller)
    requires Inv(s) && Can(s, e) && c in Step(s, e).callers
    ensures var phase := Step(s, e).callers[c].phase;
            && (phase.Leading? ==> c in s.callers && (s.callers[c].phase.Missed? || s.callers[c].phase == phase))
            && (phase.Querying? ==>
                  c in s.callers && (s.callers[c].phase == phase
                                     || (LooksInVain(s, e, c) && s.callers[c].phase == Leading(phase.flight))))
  {
    hide Inv;
    if e.Publish? {
      EndingGoesOn(s, e.who);
    }
  }

  lemma {:induction false} LeadingMissed(es: seq<Event>, c: Caller) returns (i: nat)
    requires Runs(START, es) && c in After(START, es).callers && After(START, es).callers[c].phase.Leading?
    ensures MissesAt(es, i, c)
    decreases |es|
  {
    hide Can, Step, Inv;
    var n := |es| - 1;
    RunSnoc(START, es);
    StartKeepsInv();
    RunKeepsInv(START, es[..n]);
    var before := After(START, es[..n]);
    StepLeads(before, es[n], c);
    if before.callers[c].phase.Missed? {
      i := FirstMiss(es[..n], c);
    } else {
      i := LeadingMissed(es[..n], c);
    }
    assert es[..n][..i] == es[..i] && es[..n][i] == es[i];
  }

  /** In every run a leader queries upstream only after it has missed twice, the second time as the
      leader: an answer that came into the cache in between is used. */
  lemma {:induction false} LeaderQueriesAfterASecondMiss(es: seq<Event>, c: Caller) returns (i: nat, j: nat)
    requires Runs(START, es) && c in After(START, es).callers && After(START, es).callers[c].phase.Querying?
    ensures i < j && MissesAt(es, i, c) && MissesAt(es, j, c)
    ensures After(START, es[..j]).callers[c].phase == Leading(After(START, es).callers[c].phase.flight)
    decreases |es|
  {
    hide Can, Step, Inv;
    var n := |es| - 1;
    RunSnoc(START, es);
    StartKeepsInv();
    RunKeepsInv(START, es[..n]);
    var before := After(START, es[..n]);
    StepLeads(before, es[n], c);
    if before.callers[c].phase.Querying? {
      i, j := LeaderQueriesAfterASecondMiss(es[..n], c);
      assert es[..n][..j] == es[..j] && es[..n][j] == es[j];
    } else {
      i := LeadingMissed(es[..n], c);
      j := n;
    }
    assert es[..n][..i] == es[..i] && es[..n][i] == es[i];
  }

  // ─── Everybody can finish ───────────────────────────────────────────────────

  /** Where a look into the cache leads. With the answer there a leader gives up its flight and anybody
      else is done; without it a caller goes on to join, a leader to query, and one that was released to
      query on its own. */
  lemma LookLeads(s: State, c: Caller)
    requires Can(s, Look(c))
    ensures var Who(key, id, phase) := s.callers[c];
            var next := Step(s, Look(c)).callers[c].phase;
            if key in s.cached then
              var reply := Packet(id, s.cached[key]);
              next == if phase.Leading? then Dropping(phase.flight, reply, FromCache) else Done(reply, FromCache)
            else
              (phase.Asking? <==> next.Missed?)
              && (phase.Released? ==> next == Alone(phase.flight))
              && (phase.Leading? ==> next == Querying(phase.flight))
  {
  }

  predicate Finished(s: State, c: Caller) {
    c in s.callers && (s.callers[c].phase.Done? || s.callers[c].phase.Cancelled?)
  }

  /** How far a caller is from its end, not counting what it waits for. */
  function Distance(phase: Phase): nat {
    match phase
    case Asking => 12
    case Missed => 11
    case Following(_) => 10
    case Released(_) => 9
    case Alone(_) => 8
    case Leading(_) => 7
    case Querying(_) => 6
    case Answered(_, _, _) => 5
    case Finishing(_, _, _) => 4
    case Dropping(_, _, _) => 3
    case Ending(_, _, _) => 2
    case _ => 0
  }

  /** The caller's own next step, unless it waits for its leader. */
  function OwnStep(c: Caller, phase: Phase): Event {
    match phase
    case Missed => Join(c)
    case Following(_) => Observe(c)
    case Alone(_) => Upstream(c, Error, 0, false)
    case Querying(_) => Upstream(c, Error, 0, false)
    case Answered(_, _, _) => Count(c, true)
    case Finishing(_, _, _) => Finish(c)
    case Dropping(_, _, _) => Drop(c)
    case Ending(_, _, _) => Publish(c)
    case _ => Look(c)
  }

  predicate WaitsForLeader(s: State, c: Caller)
    requires c in s.callers
  {
    var phase := s.callers[c].phase;
    phase.Following? && phase.flight in s.flights && s.flights[phase.flight].status.Open?
  }

  /** The step is possible and brings the caller nearer to its end. */
  lemma OwnStepGoesOn(s: State, c: Caller)
    requires Inv(s) && c in s.callers && !Finished(s, c) && !WaitsForLeader(s, c)
    ensures var e := OwnStep(c, s.callers[c].phase);
            && Can(s, e) && c in Step(s, e).callers
            && Distance(Step(s, e).callers[c].phase) < Distance(s.callers[c].phase)
  {
    hide LeadersMatch, Followed;
    assert CallerOk(s, c);
    if Leads(s.callers[c].phase).Some? {
      LeaderHasFlight(s, c);
    }
  }

  lemma LeaderHasFlight(s: State, c: Caller)
    requires LeadersMatch(s) && c in s.callers && Leads(s.callers[c].phase).Some?
    ensures Leads(s.callers[c].phase).value in s.flights
  {
    assert IsLeader(s, c, Leads(s.callers[c].phase).value);
  }

  /** A caller that does not wait for a leader can finish by its own steps, and so can a leader. */
  lemma {:induction false} LeaderFinishes(s: State, c: Caller) returns (es: seq<Event>)
    requires Inv(s) && c in s.callers
    requires Leads(s.callers[c].phase).Some? || s.callers[c].phase.Ending? || Finished(s, c)
    ensures Runs(s, es) && Finished(After(s, es), c)
    decreases Distance(s.callers[c].phase)
  {
    hide Inv, Can, Step;
    if Finished(s, c) {
      es := [];
    } else {
      var e := OwnStep(c, s.callers[c].phase);
      OwnStepGoesOn(s, c);
      StepKeepsInv(s, e);
      StillLeads(s, c);
      var rest := LeaderFinishes(Step(s, e), c);
      es := [e] + rest;
      assert es[1..] == rest;
    }
  }

  lemma StillLeads(s: State, c: Caller)
    requires Inv(s) && c in s.callers && !Finished(s, c)
    requires Leads(s.callers[c].phase).Some? || s.callers[c].phase.Ending?
    requires Can(s, OwnStep(c, s.callers[c].phase))
    ensures var s' := Step(s, OwnStep(c, s.callers[c].phase));
            c in s'.callers && (Leads(s'.callers[c].phase).Some? || s'.callers[c].phase.Ending? || Finished(s', c))
  {
    hide LeadersMatch, Followed;
    assert CallerOk(s, c);
  }

  lemma {:induction false} RunJoin(s: State, a: seq<Event>, b: seq<Event>)
    requires Runs(s, a) && Runs(After(s, a), b)
    ensures Runs(s, a + b) && After(s, a + b) == After(After(s, a), b)
    decreases |a|
  {
    hide Can, Step;
    if a == [] {
      assert a + b == b;
    } else {
      assert (a + b)[0] == a[0] && (a + b)[1..] == a[1..] + b;
      RunJoin(Step(s, a[0]), a[1..], b);
    }
  }

  /** What others do while a caller follows: it goes on following the same flight. */
  lemma StepKeepsFollowing(s: State, e: Event, c: Caller)
    requires Can(s, e) && c in s.callers && s.callers[c].phase.Following?
    requires e.Look? || e.Join? || e.Upstream? || e.Count? || e.Finish? || e.Drop? || e.Publish?
    requires e.who != c
    ensures c in Step(s, e).callers && Step(s, e).callers[c] == s.callers[c]
  {
  }

  /** The same, over a leader's own steps. */
  lemma {:induction false} LeaderReleases(s: State, d: Caller, c: Caller) returns (es: seq<Event>)
    requires Inv(s) && d in s.callers && c in s.callers && s.callers[c].phase.Following? && c != d
    requires Leads(s.callers[d].phase).Some? || s.callers[d].phase.Ending? || Finished(s, d)
    ensures Runs(s, es) && Inv(After(s, es)) && Finished(After(s, es), d)
    ensures c in After(s, es).callers && After(s, es).callers[c] == s.callers[c]
    ensures forall f :: f in s.flights && s.flights[f].leader == d ==>
              f in After(s, es).flights && After(s, es).flights[f].leader == d
    decreases Distance(s.callers[d].phase)
  {
    hide Inv, Can, Step;
    if Finished(s, d) {
      es := [];
    } else {
      var e := OwnStep(d, s.callers[d].phase);
      OwnStepGoesOn(s, d);
      StepKeepsInv(s, e);
      StillLeads(s, d);
      StepKeepsFollowing(s, e, c);
      StepKeepsLeader(s, e);
      var rest := LeaderReleases(Step(s, e), d, c);
      es := [e] + rest;
      assert es[1..] == rest;
    }
  }

  lemma StepKeepsLeader(s: State, e: Event)
    requires Inv(s) && Can(s, e)
    ensures forall f :: f in s.flights ==>
              f in Step(s, e).flights && Step(s, e).flights[f].leader == s.flights[f].leader
  {
    hide LeadersMatch, Followed, CallerOk;
    assert s.unused !in s.flights by { UnusedIsNew(s); }
  }

  lemma UnusedIsNew(s: State)
    requires Inv(s)
    ensures s.unused !in s.flights
  {
  }

  /** Nobody waits for ever. In every run, a caller that is not done can still finish: by its own steps,
      after those of the leader it follows, if it does. */
  lemma {:induction false} EveryCallerCanFinish(s: State, c: Caller) returns (es: seq<Event>)
    requires Inv(s) && c in s.callers
    ensures Runs(s, es) && Finished(After(s, es), c)
    decreases Distance(s.callers[c].phase)
  {
    hide Inv, Can, Step, CallerOk;
    if Finished(s, c) {
      es := [];
    } else if WaitsForLeader(s, c) {
      var f := s.callers[c].phase.flight;
      var d := LeaderOf(s, c);
      var wait := LeaderReleases(s, d, c);
      var s1 := After(s, wait);
      ReleasedByNow(s1, d, f);
      var e := Observe(c);
      OwnStepGoesOn(s1, c);
      StepKeepsInv(s1, e);
      var rest := EveryCallerCanFinish(Step(s1, e), c);
      var own := [e] + rest;
      assert own[1..] == rest;
      RunJoin(s, wait, own);
      es := wait + own;
    } else {
      var e := OwnStep(c, s.callers[c].phase);
      OwnStepGoesOn(s, c);
      StepKeepsInv(s, e);
      var rest := EveryCallerCanFinish(Step(s, e), c);
      es := [e] + rest;
      assert es[1..] == rest;
    }
  }

  lemma LeaderOf(s: State, c: Caller) returns (d: Caller)
    requires Inv(s) && c in s.callers && WaitsForLeader(s, c)
    ensures d == s.flights[s.callers[c].phase.flight].leader && d in s.callers && d != c
    ensures Leads(s.callers[d].phase).Some? || s.callers[d].phase.Ending?
  {
    var f := s.callers[c].phase.flight;
    assert Live(s, f);
    d := s.flights[f].leader;
    if s.flights[f].key in s.inflight && s.inflight[s.flights[f].key] == f {
      assert InFlight(s, s.flights[f].key, f);
    }
  }

  /** A flight whose leader has finished is over. */
  lemma ReleasedByNow(s: State, d: Caller, f: FlightId)
    requires Inv(s) && Finished(s, d) && f in s.flights && s.flights[f].leader == d
    ensures !s.flights[f].status.Open?
  {
    var key := s.flights[f].key;
    assert s.flights[f].status.Open? ==> Live(s, f);
    assert key in s.inflight ==> InFlight(s, key, s.inflight[key]);
  }
}
