/** Waking waiters without losing the wake-up (src/proxy/mod.rs, `SessionCloser`). A waiter registers
    first, then looks at the flag, then parks; every event is one of those steps by one of any number
    of waiters and closers. */
module SessionClosing {
  type Waiter = nat

  datatype Phase = Idle | Registered(notified: bool) | Parked(notified: bool) | Returned | Dropped

  /** `ringing` counts the closers between setting the flag and notifying. */
  datatype State = State(closed: bool, ringing: nat, waiters: map<Waiter, Phase>)

  const START := State(false, 0, map[])

  datatype Event =
    | Call(w: Waiter)
    | Register(w: Waiter)
    | Look(w: Waiter)
    | Wake(w: Waiter)
    | Drop(w: Waiter)
    | Swap
    | Ring

  predicate Can(s: State, e: Event) {
    match e
    case Call(w) => w !in s.waiters
    case Register(w) => w in s.waiters && s.waiters[w].Idle?
    case Look(w) => w in s.waiters && s.waiters[w].Registered?
    case Wake(w) => w in s.waiters && s.waiters[w] == Parked(true)
    case Drop(w) => w in s.waiters
    case Swap => true
    case Ring => s.ringing > 0
  }

  /** `notify_waiters` reaches every waiter registered or parked at that moment. */
  function Notified(p: Phase): Phase {
    match p
    case Registered(_) => Registered(true)
    case Parked(_) => Parked(true)
    case _ => p
  }

  function Step(s: State, e: Event): State
    requires Can(s, e)
  {
    match e
    case Call(w) => s.(waiters := s.waiters[w := Idle])
    case Register(w) => s.(waiters := s.waiters[w := Registered(false)])
    case Look(w) => s.(waiters := s.waiters[w := if s.closed then Returned else Parked(s.waiters[w].notified)])
    case Wake(w) => s.(waiters := s.waiters[w := Idle])
    case Drop(w) => s.(waiters := s.waiters[w := Dropped])
    case Swap => if s.closed then s else s.(closed := true, ringing := s.ringing + 1)
    case Ring => s.(ringing := s.ringing - 1, waiters := map w | w in s.waiters :: Notified(s.waiters[w]))
  }

  predicate Stranded(s: State, w: Waiter) {
    w in s.waiters && s.waiters[w] == Parked(false)
  }

  ghost predicate Inv(s: State) {
    && (!s.closed ==> s.ringing == 0)
    && (s.closed && s.ringing == 0 ==> forall w :: !Stranded(s, w))
    && s.ringing <= 1
  }

  lemma StepKeepsInv(s: State, e: Event)
    requires Inv(s) && Can(s, e)
    ensures Inv(Step(s, e))
  {
    var s' := Step(s, e);
    forall w | s'.closed && s'.ringing == 0
      ensures !Stranded(s', w)
    {
      assert !e.Ring? ==> !Stranded(s, w);
    }
  }

  predicate Runs(s: State, es: seq<Event>)
    decreases |es|
  {
    es == [] || (Can(s, es[0]) && Runs(Step(s, es[0]), es[1..]))
  }

  function After(s: State, es: seq<Event>): State
    requires Runs(s, es)
    decreases |es|
  {
    if es == [] then s else After(Step(s, es[0]), es[1..])
  }

  lemma {:induction false} RunKeepsInv(s: State, es: seq<Event>)
    requires Inv(s) && Runs(s, es)
    ensures Inv(After(s, es))
    decreases |es|
  {
    hide Inv, Can, Step;
    if es != [] {
      StepKeepsInv(s, es[0]);
      RunKeepsInv(Step(s, es[0]), es[1..]);
    }
  }

  /** In every interleaving, once a close has finished no waiter is parked without a wake-up on its
      way; while one is, the closer that set the flag has still to notify. */
  lemma NoWaiterIsStranded(es: seq<Event>, w: Waiter)
    requires Runs(START, es) && After(START, es).closed && Stranded(After(START, es), w)
    ensures After(START, es).ringing == 1
  {
    RunKeepsInv(START, es);
  }

  /** Once closed, a waiter that is woken, or still on its way, returns at its next look at the flag;
      it never parks again. */
  lemma {:induction false} ClosedWaitersDoNotPark(s: State, es: seq<Event>, w: Waiter)
    requires Runs(s, es) && s.closed && (w in s.waiters ==> !s.waiters[w].Parked?)
    ensures After(s, es).closed && (w in After(s, es).waiters ==> !After(s, es).waiters[w].Parked?)
    decreases |es|
  {
    if es != [] {
      ClosedWaitersDoNotPark(Step(s, es[0]), es[1..], w);
    }
  }

  lemma {:induction false} ReturnsOnlyClosed(s: State, es: seq<Event>, w: Waiter)
    requires Runs(s, es) && (w in s.waiters && s.waiters[w].Returned? ==> s.closed)
    ensures w in After(s, es).waiters && After(s, es).waiters[w].Returned? ==> After(s, es).closed
    decreases |es|
  {
    if es != [] {
      ReturnsOnlyClosed(Step(s, es[0]), es[1..], w);
    }
  }

  /** In every interleaving no waiter has returned from a session still open. */
  lemma NobodyReturnsEarly(es: seq<Event>, w: Waiter)
    requires Runs(START, es) && w in After(START, es).waiters && After(START, es).waiters[w].Returned?
    ensures After(START, es).closed
  {
    ReturnsOnlyClosed(START, es, w);
  }

  /** In every interleaving the session is closed exactly when some closer has set the flag. */
  lemma {:induction false} ClosedIffSomebodyCloses(s: State, es: seq<Event>)
    requires Runs(s, es)
    ensures After(s, es).closed <==> s.closed || Swap in es
    decreases |es|
  {
    if es != [] {
      ClosedIffSomebodyCloses(Step(s, es[0]), es[1..]);
      assert Swap in es <==> es[0] == Swap || Swap in es[1..];
    }
  }

  lemma OwnSteps(s: State, w: Waiter) returns (own: seq<Event>)
    requires s.closed && w in s.waiters && !Stranded(s, w) && !s.waiters[w].Dropped?
    ensures forall i :: 0 <= i < |own| ==> own[i] in {Register(w), Look(w), Wake(w)}
    ensures Runs(s, own) && w in After(s, own).waiters && After(s, own).waiters[w] == Returned
    decreases match s.waiters[w] case Parked(_) => 3 case Idle => 2 case Registered(_) => 1 case _ => 0
  {
    if s.waiters[w] == Returned {
      own := [];
    } else {
      var e := match s.waiters[w]
               case Parked(_) => Wake(w)
               case Idle => Register(w)
               case _ => Look(w);
      var rest := OwnSteps(Step(s, e), w);
      own := [e] + rest;
      assert own[1..] == rest;
    }
  }

  /** And in every interleaving, once a close has finished, each waiter that was not given up can return
      by steps of its own, whatever it was doing. */
  lemma WaitersReturnAfterClose(es: seq<Event>, w: Waiter) returns (own: seq<Event>)
    requires Runs(START, es) && After(START, es).closed && After(START, es).ringing == 0
    requires w in After(START, es).waiters && !After(START, es).waiters[w].Dropped?
    ensures forall i :: 0 <= i < |own| ==> own[i] in {Register(w), Look(w), Wake(w)}
    ensures Runs(After(START, es), own)
    ensures var last := After(After(START, es), own); w in last.waiters && last.waiters[w] == Returned
  {
    hide Runs, After;
    RunKeepsInv(START, es);
    own := OwnSteps(After(START, es), w);
  }
}

/** The same for waiters on a key (src/utils/keyed_notify.rs, `wait_until`, `notify`, `remove`), whose
    notifier is made by the first waiter and removed by every notification. Keys do not interact, so
    this is one key. */
module KeyedSignals {
  import opened Wire

  type Waiter = nat

  /** A notifier, by identity. */
  type Bell = nat

  datatype Phase =
    | Idle
    | Holding(bell: Bell)                       // has the notifier, not registered yet
    | Registered(bell: Bell, notified: bool)
    | Parked(bell: Bell, notified: bool)
    | Leaving                                   // with a value or timed out, before its own `remove`
    | Gone

  /** `condition` is what the waiters wait for. `current` is the entry of the map, `ringing` the
      notifiers removed from the map and not rung yet. `announced` records that a removal came after
      the condition. */
  datatype State = State(condition: bool, current: Option<Bell>, unused: Bell, ringing: set<Bell>,
                         waiters: map<Waiter, Phase>, announced: bool)

  const START := State(false, None, 0, {}, map[], false)

  datatype Event =
    | Call(w: Waiter)
    | Get(w: Waiter)
    | Register(w: Waiter)
    | Look(w: Waiter)
    | Wake(w: Waiter)
    | TimeOut(w: Waiter)
    | Leave(w: Waiter)
    | Fulfil
    | Remove
    | Ring(bell: Bell)

  predicate Can(s: State, e: Event) {
    match e
    case Call(w) => w !in s.waiters
    case Get(w) => w in s.waiters && s.waiters[w].Idle?
    case Register(w) => w in s.waiters && s.waiters[w].Holding?
    case Look(w) => w in s.waiters && s.waiters[w].Registered?
    case Wake(w) => w in s.waiters && s.waiters[w].Parked? && s.waiters[w].notified
    case TimeOut(w) => w in s.waiters && s.waiters[w].Parked?
    case Leave(w) => w in s.waiters && s.waiters[w].Leaving?
    case Ring(b) => b in s.ringing
    case _ => true
  }

  function Notified(p: Phase, b: Bell): Phase {
    match p
    case Registered(c, n) => Registered(c, n || c == b)
    case Parked(c, n) => Parked(c, n || c == b)
    case _ => p
  }

  /** Taking the entry out of the map; ringing follows. */
  function TakeOut(s: State): State {
    var s' := s.(announced := s.announced || s.condition);
    if s.current.Some? then s'.(current := None, ringing := s.ringing + {s.current.value}) else s'
  }

  function Step(s: State, e: Event): State
    requires Can(s, e)
  {
    match e
    case Call(w) => s.(waiters := s.waiters[w := Idle])
    case Get(w) =>
      if s.current.Some? then s.(waiters := s.waiters[w := Holding(s.current.value)])
      else s.(current := Some(s.unused), unused := s.unused + 1, waiters := s.waiters[w := Holding(s.unused)])
    case Register(w) => s.(waiters := s.waiters[w := Registered(s.waiters[w].bell, false)])
    case Look(w) =>
      s.(waiters := s.waiters[w := if s.condition then Leaving else Parked(s.waiters[w].bell, s.waiters[w].notified)])
    case Wake(w) => s.(waiters := s.waiters[w := Idle])
    case TimeOut(w) => s.(waiters := s.waiters[w := Leaving])
    case Leave(w) => TakeOut(s.(waiters := s.waiters[w := Gone]))
    case Fulfil => s.(condition := true)
    case Remove => TakeOut(s)
    case Ring(b) => s.(ringing := s.ringing - {b}, waiters := map w | w in s.waiters :: Notified(s.waiters[w], b))
  }

  predicate Stranded(s: State, w: Waiter) {
    w in s.waiters && s.waiters[w].Parked? && !s.waiters[w].notified
  }

  /** The entry is removed only once the condition holds: it is set before `notify`, and nobody timed
      out before it was. */
  predicate Orderly(s: State, e: Event) {
    (e.Remove? || e.TimeOut?) ==> s.condition
  }

  predicate OnCurrent(s: State, p: Phase) {
    (p.Holding? || p.Registered? || p.Parked?) ==> s.current == Some(p.bell)
  }

  /** This notifier will be rung, or is still in the map for the notification to come. */
  predicate Promised(s: State, b: Bell) {
    b in s.ringing || (!s.announced && s.current == Some(b))
  }

  ghost predicate Inv(s: State) {
    && (s.current.Some? ==> s.current.value < s.unused)
    && (!s.condition ==> s.ringing == {} && !s.announced)
    && (!s.condition ==> forall w :: w in s.waiters ==> OnCurrent(s, s.waiters[w]) && !s.waiters[w].Leaving?)
    && (s.condition ==> forall w :: Stranded(s, w) ==> Promised(s, s.waiters[w].bell))
  }

  lemma StepKeepsInv(s: State, e: Event)
    requires Inv(s) && Can(s, e) && Orderly(s, e)
    ensures Inv(Step(s, e))
  {
    var s' := Step(s, e);
    if !s'.condition {
      forall w | w in s'.waiters
        ensures OnCurrent(s', s'.waiters[w]) && !s'.waiters[w].Leaving?
      {
        assert w in s.waiters ==> OnCurrent(s, s.waiters[w]);
      }
    } else {
      forall w | Stranded(s', w)
        ensures Promised(s', s'.waiters[w].bell)
      {
        assert Stranded(s, w) && s'.waiters[w] == s.waiters[w];
        assert OnCurrent(s, s.waiters[w]) || s.condition;
      }
    }
  }

  predicate Runs(s: State, es: seq<Event>)
    decreases |es|
  {
    es == [] || (Can(s, es[0]) && Runs(Step(s, es[0]), es[1..]))
  }

  function After(s: State, es: seq<Event>): State
    requires Runs(s, es)
    decreases |es|
  {
    if es == [] then s else After(Step(s, es[0]), es[1..])
  }

  predicate AllOrderly(s: State, es: seq<Event>)
    requires Runs(s, es)
    decreases |es|
  {
    es == [] || (Orderly(s, es[0]) && AllOrderly(Step(s, es[0]), es[1..]))
  }

  lemma {:induction false} RunKeepsInv(s: State, es: seq<Event>)
    requires Inv(s) && Runs(s, es) && AllOrderly(s, es)
    ensures Inv(After(s, es))
    decreases |es|
  {
    hide Inv, Can, Step, Orderly;
    if es != [] {
      StepKeepsInv(s, es[0]);
      RunKeepsInv(Step(s, es[0]), es[1..]);
    }
  }

  /** In every interleaving in which the entry is removed only after the condition holds: once a
      notification after the condition is through, no waiter is parked without a wake-up. */
  lemma NoWaiterIsStranded(es: seq<Event>, w: Waiter)
    requires Runs(START, es) && AllOrderly(START, es)
    requires var s := After(START, es); s.announced && s.ringing == {}
    ensures !Stranded(After(START, es), w)
  {
    RunKeepsInv(START, es);
  }

  // ─── Exactly who is stranded ────────────────────────────────────────────────

  /** A notifier that is out of the map and has been rung. */
  predicate Rung(s: State, b: Bell) {
    s.current != Some(b) && b !in s.ringing
  }

  /** Whether each waiter, when it last registered, did so on a notifier already rung. */
  function TooLate(s: State, es: seq<Event>, before: map<Waiter, bool>): map<Waiter, bool>
    requires Runs(s, es)
    decreases |es|
  {
    if es == [] then before else TooLate(Step(s, es[0]), es[1..], Noted(s, es[0], before))
  }

  function Noted(s: State, e: Event, before: map<Waiter, bool>): map<Waiter, bool>
    requires Can(s, e)
  {
    if e.Register? then before[e.w := Rung(s, s.waiters[e.w].bell)] else before
  }

  function BellOf(p: Phase): Option<Bell> {
    if p.Holding? || p.Registered? || p.Parked? then Some(p.bell) else None
  }

  predicate Listens(p: Phase) {
    p.Registered? || p.Parked?
  }

  /** A waiter that registered too late has a notifier that was rung before and is not notified; any
      other is notified exactly when its notifier has been rung. */
  predicate Heard(s: State, late: map<Waiter, bool>, w: Waiter)
    requires w in s.waiters && Listens(s.waiters[w])
  {
    && w in late
    && var p := s.waiters[w];
       if late[w] then !p.notified && Rung(s, p.bell) else p.notified <==> Rung(s, p.bell)
  }

  ghost predicate Audible(s: State, late: map<Waiter, bool>) {
    && (forall w :: w in s.waiters && BellOf(s.waiters[w]).Some? ==> s.waiters[w].bell < s.unused)
    && (s.current.Some? ==> s.current.value < s.unused)
    && (forall b :: b in s.ringing ==> b < s.unused && s.current != Some(b))
    && (forall w :: w in s.waiters && Listens(s.waiters[w]) ==> Heard(s, late, w))
    && (s.announced ==> s.condition)
    && (s.announced ==> forall w :: w in s.waiters && s.waiters[w].Parked? ==> s.current != Some(s.waiters[w].bell))
  }

  lemma StepKeepsAudible(s: State, e: Event, late: map<Waiter, bool>)
    requires Audible(s, late) && Can(s, e)
    ensures Audible(Step(s, e), Noted(s, e, late))
  {
    var s' := Step(s, e);
    var late' := Noted(s, e, late);
    forall w | w in s'.waiters && Listens(s'.waiters[w])
      ensures Heard(s', late', w)
    {
      assert w in s.waiters && Listens(s.waiters[w]) ==> Heard(s, late, w);
    }
  }

  lemma {:induction false} RunKeepsAudible(s: State, es: seq<Event>, late: map<Waiter, bool>)
    requires Audible(s, late) && Runs(s, es)
    ensures Audible(After(s, es), TooLate(s, es, late))
    decreases |es|
  {
    hide Audible, Can, Step, Noted;
    if es != [] {
      StepKeepsAudible(s, es[0], late);
      RunKeepsAudible(Step(s, es[0]), es[1..], Noted(s, es[0], late));
    }
  }

  /** In every interleaving, orderly or not: once a notification after the condition is through, a
      waiter is parked without a wake-up if and only if it is parked and had registered on a notifier
      already rung. */
  lemma StrandedIffRegisteredTooLate(es: seq<Event>, w: Waiter)
    requires Runs(START, es)
    requires var s := After(START, es); s.announced && s.ringing == {}
    ensures Stranded(After(START, es), w)
            <==> var late := TooLate(START, es, map[]);
                 w in After(START, es).waiters && After(START, es).waiters[w].Parked? && w in late && late[w]
  {
    hide After, TooLate;
    RunKeepsAudible(START, es, map[]);
    var s := After(START, es);
    if w in s.waiters && s.waiters[w].Parked? {
      assert Heard(s, TooLate(START, es, map[]), w);
    }
  }

  /** At every moment of every interleaving a waiter that registered too late is not notified, however
      often the key is notified after that; only its own time-out ends its wait. */
  lemma TooLateIsNeverRung(es: seq<Event>, w: Waiter)
    requires Runs(START, es) && w in After(START, es).waiters && Listens(After(START, es).waiters[w])
    requires var late := TooLate(START, es, map[]); w in late && late[w]
    ensures !After(START, es).waiters[w].notified && Rung(After(START, es), After(START, es).waiters[w].bell)
  {
    hide After, TooLate;
    RunKeepsAudible(START, es, map[]);
    assert Heard(After(START, es), TooLate(START, es, map[]), w);
  }

  function Played(s: State, es: seq<Event>): Option<State>
    decreases |es|
  {
    if es == [] then Some(s) else if Can(s, es[0]) then Played(Step(s, es[0]), es[1..]) else None
  }

  /** Two events in a row, from one given state to another. */
  lemma Play(s: State, a: Event, b: Event, last: State)
    requires Can(s, a) && Can(Step(s, a), b) && Step(Step(s, a), b) == last
    ensures Played(s, [a, b]) == Some(last)
  {
    hide Can, Step;
    var s' := Step(s, a);
    var es := [a, b];
    assert es[1..] == [b];
    var fs := [b];
    assert fs[1..] == [];
    assert Played(last, []) == Some(last);
    assert Played(s', fs) == Some(last);
  }

  const BOTH := State(false, Some(0), 1, {}, map[0 := Holding(0), 1 := Holding(0)], false)
  const ONE_PARKED := State(false, Some(0), 1, {}, map[0 := Parked(0, false), 1 := Holding(0)], false)
  const TIMED_OUT := State(false, None, 1, {0}, map[0 := Gone, 1 := Holding(0)], false)
  const TOO_LATE := State(false, None, 1, {}, map[0 := Gone, 1 := Registered(0, false)], false)
  const FULFILLED := State(true, None, 1, {}, map[0 := Gone, 1 := Parked(0, false)], false)
  const NOTIFIED := FULFILLED.(announced := true)

  /** Without that the wake-up can be lost. Waiter 1 holds the notifier but has not registered when
      waiter 0, timed out, removes and rings it; waiter 1 then parks on a notifier that nobody will
      ring, and a notification after the condition passes it by. */
  lemma TimedOutWaiterStrandsAnother()
    ensures Played(START, [Call(0), Call(1)]) == Some(START.(waiters := map[0 := Idle, 1 := Idle]))
    ensures Played(START.(waiters := map[0 := Idle, 1 := Idle]), [Get(0), Get(1)]) == Some(BOTH)
    ensures Played(BOTH, [Register(0), Look(0)]) == Some(ONE_PARKED)
    ensures Played(ONE_PARKED, [TimeOut(0), Leave(0)]) == Some(TIMED_OUT)
    ensures Played(TIMED_OUT, [Ring(0), Register(1)]) == Some(TOO_LATE) && Rung(Step(TIMED_OUT, Ring(0)), 0)
    ensures Played(TOO_LATE, [Look(1), Fulfil]) == Some(FULFILLED)
    ensures Step(FULFILLED, Remove) == NOTIFIED
    ensures NOTIFIED.announced && NOTIFIED.ringing == {} && Stranded(NOTIFIED, 1)
  {
    hide Played;
    Play(START, Call(0), Call(1), START.(waiters := map[0 := Idle, 1 := Idle]));
    Play(START.(waiters := map[0 := Idle, 1 := Idle]), Get(0), Get(1), BOTH);
    Play(BOTH, Register(0), Look(0), ONE_PARKED);
    Play(ONE_PARKED, TimeOut(0), Leave(0), TIMED_OUT);
    RingLast();
    Play(TIMED_OUT, Ring(0), Register(1), TOO_LATE);
    Play(TOO_LATE, Look(1), Fulfil, FULFILLED);
  }

  lemma RingLast()
    ensures Step(TIMED_OUT, Ring(0)) == TIMED_OUT.(ringing := {})
  {
    var s := Step(TIMED_OUT, Ring(0));
    assert s.waiters == TIMED_OUT.waiters;
    assert s.ringing == {};
  }

  // ─── Why a waiter leaves ────────────────────────────────────────────────────

  predicate HasLeft(s: State, w: Waiter) {
    w in s.waiters && (s.waiters[w].Leaving? || s.waiters[w].Gone?)
  }

  /** A waiter leaves with the condition, or because its own time is up: in every interleaving one that
      has left did so after the condition held or after its own time-out. */
  lemma {:induction false} LeavesForAReason(s: State, es: seq<Event>, w: Waiter)
    requires Runs(s, es) && (HasLeft(s, w) ==> s.condition)
    ensures HasLeft(After(s, es), w) ==> After(s, es).condition || TimeOut(w) in es
    decreases |es|
  {
    if es != [] {
      var s1 := Step(s, es[0]);
      if es[0] != TimeOut(w) {
        assert s.condition ==> s1.condition;
        LeavesForAReason(s1, es[1..], w);
      }
    }
  }

  /** And with the condition fulfilled a waiter that has been notified, or is not parked, leaves by steps
      of its own, without waiting for its time to be up. */
  lemma FulfilledWaiterLeaves(s: State, w: Waiter) returns (own: seq<Event>)
    requires s.condition && w in s.waiters && !Stranded(s, w)
    ensures forall i :: 0 <= i < |own| ==> own[i] in {Get(w), Register(w), Look(w), Wake(w)}
    ensures Runs(s, own) && HasLeft(After(s, own), w)
    decreases match s.waiters[w] case Parked(_, _) => 4 case Idle => 3 case Holding(_) => 2 case Registered(_, _) => 1
                                 case _ => 0
  {
    if HasLeft(s, w) {
      own := [];
    } else {
      var e := match s.waiters[w]
               case Parked(_, _) => Wake(w)
               case Idle => Get(w)
               case Holding(_) => Register(w)
               case _ => Look(w);
      var rest := FulfilledWaiterLeaves(Step(s, e), w);
      own := [e] + rest;
      assert own[1..] == rest;
    }
  }
}
