/** UDP sessions over one ShadowQUIC connection (src/proxy/shadowquic_udp.rs): the map from context
    id to receiver, the buffers for datagrams that come before their binding, and the tasks that
    race on both. Each event is one atomic access to a shared map, queue or buffer. */
module ShadowUdp {
  import opened Wire
  import opened TargetAddress

  const UDP_RECEIVE_QUEUE_CAPACITY := 64
  const WAITING_DATAGRAM_QUEUE_CAPACITY := 8
  const MAX_WAITING_DATAGRAM_CONTEXTS := 1024

  // ─── Bindings ───────────────────────────────────────────────────────────────

  /** A receiver, by identity (`Arc::ptr_eq`). */
  type Receiver = nat

  /** A context id of one receiver: a key of its `binded_context_id`. */
  datatype Slot = Slot(receiver: Receiver, cid: u16)

  datatype Binding = Binding(slot: Slot, target: TargetAddr)

  /** `shared` is `udp_recv_map`, `local` every receiver's `binded_context_id`. `binding` holds the
      binds inside their locked entry, `removing` the removals that are through with `local` and not
      yet with `shared`. */
  datatype Registry = Registry(
    shared: map<u16, Receiver>,
    local: map<Slot, TargetAddr>,
    binding: map<u16, Binding>,
    removing: multiset<Slot>)

  const NO_BINDINGS := Registry(map[], map[], map[], multiset{})

  /** `bind_context_id` takes the vacant entry and inserts locally (BindLocal), then fills the entry
      (BindShared). `clean` and the end of a unistream worker remove locally (Unbind), then in the
      shared map if it is still theirs (Release). */
  datatype Bind =
    | BindLocal(slot: Slot, target: TargetAddr)
    | BindShared(cid: u16)
    | Unbind(slot: Slot)
    | Release(slot: Slot)

  predicate CanBind(g: Registry, e: Bind) {
    match e
    case BindLocal(slot, _) => slot.cid !in g.shared && slot.cid !in g.binding
    case BindShared(cid) => cid in g.binding
    case Unbind(_) => true
    case Release(slot) => slot in g.removing && slot.cid !in g.binding
  }

  function BindStep(g: Registry, e: Bind): Registry
    requires CanBind(g, e)
  {
    match e
    case BindLocal(slot, target) =>
      g.(local := g.local[slot := target], binding := g.binding[slot.cid := Binding(slot, target)])
    case BindShared(cid) =>
      g.(shared := g.shared[cid := g.binding[cid].slot.receiver], binding := g.binding - {cid})
    case Unbind(slot) =>
      g.(local := g.local - {slot}, removing := g.removing + multiset{slot})
    case Release(slot) =>
      var own := slot.cid in g.shared && g.shared[slot.cid] == slot.receiver;
      g.(shared := if own then g.shared - {slot.cid} else g.shared,
         removing := g.removing - multiset{slot})
  }

  /** A receiver found in the shared map holds the id itself, unless one of its own removals is
      half way; so does the receiver of a bind in progress. */
  ghost predicate Bound(g: Registry) {
    && (forall cid :: cid in g.shared ==> Holds(g, Slot(g.shared[cid], cid)))
    && (forall cid :: cid in g.binding ==>
          g.binding[cid].slot.cid == cid && cid !in g.shared && Holds(g, g.binding[cid].slot))
  }

  predicate Holds(g: Registry, slot: Slot) {
    slot in g.local || slot in g.removing
  }

  lemma BindKeepsBound(g: Registry, e: Bind)
    requires Bound(g) && CanBind(g, e)
    ensures Bound(BindStep(g, e))
  {
    var g' := BindStep(g, e);
    match e
    case BindLocal(slot, target) =>
    case BindShared(cid) =>
    case Unbind(slot) =>
      assert forall s :: s in g.removing ==> s in g'.removing;
    case Release(slot) => ReleaseKeepsBound(g, slot);
  }

  lemma ReleaseKeepsBound(g: Registry, slot: Slot)
    requires Bound(g) && CanBind(g, Release(slot))
    ensures Bound(BindStep(g, Release(slot)))
  {
    var g' := BindStep(g, Release(slot));
    assert forall s :: s in g.removing && s != slot ==> s in g'.removing;
    forall cid | cid in g'.shared
      ensures Holds(g', Slot(g'.shared[cid], cid))
    {
      assert Holds(g, Slot(g.shared[cid], cid));
    }
    forall cid | cid in g'.binding
      ensures Holds(g', g'.binding[cid].slot)
    {
      assert g.binding[cid].slot.cid == cid;
    }
  }

  /** Removing one receiver's id never touches a binding of another receiver. */
  lemma RemovalsAreOwn(g: Registry, e: Bind, other: Slot)
    requires CanBind(g, e) && (e.Unbind? || e.Release?) && e.slot.receiver != other.receiver
    ensures var g' := BindStep(g, e);
            && (other in g'.local <==> other in g.local)
            && (other in g.local ==> g'.local[other] == g.local[other])
            && (other.cid in g.shared && g.shared[other.cid] == other.receiver ==>
                  other.cid in g'.shared && g'.shared[other.cid] == other.receiver)
  {
  }

  /** A removal that nothing interrupts removes the id, from its receiver and from the shared map where
      that led to it; and a bind that nothing interrupts gives it. */
  lemma RemovalRemoves(g: Registry, slot: Slot)
    requires CanBind(g, Release(slot)) || slot.cid !in g.binding
    ensures var g' := BindStep(g, Unbind(slot));
            && (slot.cid !in g.binding ==> CanBind(g', Release(slot)))
            && slot !in g'.local
            && (CanBind(g', Release(slot)) ==>
                  var g'' := BindStep(g', Release(slot));
                  && slot !in g''.local && !(slot.cid in g''.shared && g''.shared[slot.cid] == slot.receiver)
                  && g''.removing == g.removing)
  {
  }

  lemma BindBinds(g: Registry, slot: Slot, target: TargetAddr)
    requires CanBind(g, BindLocal(slot, target))
    ensures var g' := BindStep(g, BindLocal(slot, target));
            && CanBind(g', BindShared(slot.cid))
            && var g'' := BindStep(g', BindShared(slot.cid));
               && slot in g''.local && g''.local[slot] == target
               && slot.cid in g''.shared && g''.shared[slot.cid] == slot.receiver && slot.cid !in g''.binding
  {
  }

  // ─── Datagrams ──────────────────────────────────────────────────────────────

  /** A datagram is named by its position in the order of arrival. `arrived[d]` is its context id. */
  type Datagram = nat

  /** A waiting buffer, by identity. */
  type Buffer = nat

  datatype Delivery = Delivery(datagram: Datagram, receiver: Receiver, target: TargetAddr)

  /** Where `handle_datagram` stands with the datagram it has read. */
  datatype Main =
    | Idle
    | Arrived(d: Datagram)
    | Feeding(d: Datagram, receiver: Receiver)
    | Sending(d: Datagram, receiver: Receiver, target: TargetAddr)
    | Missed(d: Datagram)
    | Admitted(d: Datagram)
    | Holding(d: Datagram, buffer: Buffer, isNew: bool)

  /** The task that drains one waiting buffer. */
  datatype Phase =
    | Seeking
    | Draining(receiver: Receiver)
    | Carrying(receiver: Receiver, d: Datagram)
    | Passing(receiver: Receiver, d: Datagram, target: TargetAddr)
    | Leaving

  datatype Worker = Worker(cid: u16, phase: Phase)

  datatype Place = AtMain | InBuffer(buffer: Buffer) | AtWorker(buffer: Buffer) | DeliveredAs(k: nat) | Dropped

  /** `waiting` is `waiting_datagram_buffer`; `buffers` and `workers` are keyed by buffer identity;
      `queued` is how many deliveries a receiver has not read yet; `place` keeps the books. */
  datatype Net = Net(
    arrived: seq<u16>,
    main: Main,
    waiting: map<u16, Buffer>,
    buffers: map<Buffer, seq<Datagram>>,
    workers: map<Buffer, Worker>,
    unused: Buffer,
    queued: map<Receiver, nat>,
    delivered: seq<Delivery>,
    dropped: set<Datagram>,
    place: map<Datagram, Place>)

  const QUIET := Net([], Idle, map[], map[], map[], 0, map[], [], {}, map[])

  function Queued(n: Net, r: Receiver): nat {
    if r in n.queued then n.queued[r] else 0
  }

  function Drop(n: Net, d: Datagram): Net {
    n.(dropped := n.dropped + {d}, place := n.place[d := Dropped])
  }

  /** The `try_send` at the end of `feed_datagram`: a full or closed queue drops the datagram. */
  function Send(n: Net, d: Datagram, r: Receiver, target: TargetAddr, closed: bool): Net {
    if closed || Queued(n, r) >= UDP_RECEIVE_QUEUE_CAPACITY then Drop(n, d)
    else n.(queued := n.queued[r := Queued(n, r) + 1],
            delivered := n.delivered + [Delivery(d, r, target)],
            place := n.place[d := DeliveredAs(|n.delivered|)])
  }

  /** The lookup in the shared map waits while a bind holds the entry. */
  function Lookup(n: Net, g: Registry, d: Datagram): Net
    requires d < |n.arrived|
  {
    var cid := n.arrived[d];
    if cid in g.binding then n
    else n.(main := if cid in g.shared then Feeding(d, g.shared[cid]) else Missed(d))
  }

  /** The lookup of the target in `feed_datagram`. */
  function Feed(n: Net, g: Registry, d: Datagram, r: Receiver): Net
    requires d < |n.arrived|
  {
    var slot := Slot(r, n.arrived[d]);
    if slot in g.local then n.(main := Sending(d, r, g.local[slot])) else Idled(Drop(n, d))
  }

  function Idled(n: Net): Net {
    n.(main := Idle)
  }

  function Admit(n: Net, d: Datagram): Net
    requires d < |n.arrived|
  {
    if n.arrived[d] !in n.waiting && |n.waiting| >= MAX_WAITING_DATAGRAM_CONTEXTS then Idled(Drop(n, d))
    else n.(main := Admitted(d))
  }

  /** Finds the buffer of the context, or makes one. */
  function Grab(n: Net, d: Datagram): Net
    requires d < |n.arrived|
  {
    var cid := n.arrived[d];
    if cid in n.waiting then n.(main := Holding(d, n.waiting[cid], false))
    else n.(main := Holding(d, n.unused, true), waiting := n.waiting[cid := n.unused],
            buffers := n.buffers[n.unused := []], unused := n.unused + 1)
  }

  /** Buffers the datagram unless the buffer is full or gone, and starts its task if it is new. */
  function Put(n: Net, d: Datagram, b: Buffer, isNew: bool): Net
    requires d < |n.arrived|
  {
    if b !in n.buffers || |n.buffers[b]| >= WAITING_DATAGRAM_QUEUE_CAPACITY then Idled(Drop(n, d))
    else n.(main := Idle, buffers := n.buffers[b := n.buffers[b] + [d]], place := n.place[d := InBuffer(b)],
            workers := if isNew then n.workers[b := Worker(n.arrived[d], Seeking)] else n.workers)
  }

  /** The next step of `handle_datagram`. */
  function MainStep(n: Net, g: Registry, closed: bool): (n': Net)
    requires MainOk(n)
    ensures n'.arrived == n.arrived && (n'.main.Idle? || (!n.main.Idle? && n'.main.d == n.main.d))
  {
    match n.main
    case Idle => n
    case Arrived(d) => Lookup(n, g, d)
    case Feeding(d, r) => Feed(n, g, d, r)
    case Sending(d, r, target) => Idled(Send(n, d, r, target, closed))
    case Missed(d) => Admit(n, d)
    case Admitted(d) => Grab(n, d)
    case Holding(d, b, isNew) => Put(n, d, b, isNew)
  }

  predicate MainOk(n: Net) {
    n.main.Idle? || n.main.d < |n.arrived|
  }

  /** What a draining task does next: find the receiver, give up on it, take a datagram, look up its
      target, send it, or leave. Leaving removes the map entry and loses what is still buffered. */
  datatype Act = Seek | TimeOut | Close | TakeOne | Look | Pass(closed: bool) | Leave

  predicate CanAct(n: Net, g: Registry, b: Buffer, a: Act) {
    && b in n.workers && b in n.buffers
    && var w := n.workers[b];
    match a
    case Seek => w.phase.Seeking? && w.cid in g.shared && w.cid !in g.binding
    case TimeOut => w.phase.Seeking?
    case Close => w.phase.Draining?
    case TakeOne => w.phase.Draining? && n.buffers[b] != []
    case Look => w.phase.Carrying?
    case Pass(_) => w.phase.Passing?
    case Leave => w.phase.Leaving?
  }

  function Enter(n: Net, b: Buffer, phase: Phase): Net
    requires b in n.workers
  {
    n.(workers := n.workers[b := n.workers[b].(phase := phase)])
  }

  function TakeFirst(n: Net, b: Buffer, r: Receiver): Net
    requires b in n.workers && b in n.buffers && n.buffers[b] != []
  {
    var d := n.buffers[b][0];
    Enter(n, b, Carrying(r, d)).(buffers := n.buffers[b := n.buffers[b][1..]], place := n.place[d := AtWorker(b)])
  }

  function LookTarget(n: Net, g: Registry, b: Buffer, r: Receiver, d: Datagram): Net
    requires b in n.workers
  {
    var slot := Slot(r, n.workers[b].cid);
    if slot in g.local then Enter(n, b, Passing(r, d, g.local[slot])) else Drop(Enter(n, b, Leaving), d)
  }

  function Depart(n: Net, b: Buffer): Net
    requires b in n.workers && b in n.buffers
  {
    n.(waiting := n.waiting - {n.workers[b].cid}, buffers := n.buffers - {b}, workers := n.workers - {b},
       dropped := n.dropped + (set d | d in n.buffers[b]),
       place := map d | d in n.place :: if n.place[d] == InBuffer(b) then Dropped else n.place[d])
  }

  function WorkerStep(n: Net, g: Registry, b: Buffer, a: Act): Net
    requires CanAct(n, g, b, a)
  {
    var w := n.workers[b];
    match a
    case Seek => Enter(n, b, Draining(g.shared[w.cid]))
    case TimeOut => Enter(n, b, Leaving)
    case Close => Enter(n, b, Leaving)
    case TakeOne => TakeFirst(n, b, w.phase.receiver)
    case Look => LookTarget(n, g, b, w.phase.receiver, w.phase.d)
    case Pass(closed) =>
      var next := if closed then Leaving else Draining(w.phase.receiver);
      Send(Enter(n, b, next), w.phase.d, w.phase.receiver, w.phase.target, closed)
    case Leave => Depart(n, b)
  }

  datatype State = State(reg: Registry, net: Net)

  const START := State(NO_BINDINGS, QUIET)

  datatype Event =
    | Register(bind: Bind)
    | Come(cid: u16)
    | Handle(closed: bool)
    | Work(buffer: Buffer, act: Act)
    | Receive(receiver: Receiver)

  predicate Can(s: State, e: Event) {
    match e
    case Register(bind) => CanBind(s.reg, bind)
    case Come(_) => s.net.main.Idle?
    case Handle(_) => MainOk(s.net)
    case Work(b, a) => CanAct(s.net, s.reg, b, a)
    case Receive(r) => Queued(s.net, r) > 0
  }

  function Step(s: State, e: Event): State
    requires Can(s, e)
  {
    match e
    case Register(bind) => s.(reg := BindStep(s.reg, bind))
    case Come(cid) => s.(net := Arrive(s.net, cid))
    case Handle(closed) => s.(net := MainStep(s.net, s.reg, closed))
    case Work(b, a) => s.(net := WorkerStep(s.net, s.reg, b, a))
    case Receive(r) => s.(net := s.net.(queued := s.net.queued[r := Queued(s.net, r) - 1]))
  }

  function Arrive(n: Net, cid: u16): Net {
    var d := |n.arrived|;
    n.(arrived := n.arrived + [cid], main := Arrived(d), place := n.place[d := AtMain])
  }

  // ─── The books ──────────────────────────────────────────────────────────────

  predicate MainHas(n: Net, d: Datagram) {
    !n.main.Idle? && n.main.d == d
  }

  predicate WorkerHas(n: Net, b: Buffer, d: Datagram) {
    b in n.workers && (n.workers[b].phase.Carrying? || n.workers[b].phase.Passing?) && n.workers[b].phase.d == d
  }

  /** The place `p` holds the datagram. */
  predicate Sits(n: Net, d: Datagram, p: Place) {
    match p
    case AtMain => MainHas(n, d)
    case InBuffer(b) => b in n.buffers && d in n.buffers[b]
    case AtWorker(b) => WorkerHas(n, b, d)
    case DeliveredAs(k) => k < |n.delivered| && n.delivered[k].datagram == d
    case Dropped => d in n.dropped
  }

  /** The books are right: a datagram sits where they say and nowhere else, and every datagram that
      arrived is booked. */
  ghost predicate Booked(n: Net) {
    && (forall d :: d in n.place <==> 0 <= d < |n.arrived|)
    && (forall d, p :: Sits(n, d, p) ==> d in n.place && n.place[d] == p)
    && (forall d :: d in n.place ==> Sits(n, d, n.place[d]))
  }

  predicate Distinct(q: seq<Datagram>) {
    forall i, j :: 0 <= i < j < |q| ==> q[i] != q[j]
  }

  ghost predicate NoRepeats(n: Net) {
    forall b :: b in n.buffers ==> Distinct(n.buffers[b])
  }

  /** Every waiting buffer has one task, which serves its own entry of the map; only the buffer
      `main` has just made has none yet. */
  ghost predicate Served(n: Net) {
    && MainOk(n)
    && (forall b :: b in n.workers ==>
          b in n.buffers && n.workers[b].cid in n.waiting && n.waiting[n.workers[b].cid] == b)
    && (forall cid :: cid in n.waiting ==> n.waiting[cid] in n.buffers)
    && OneEach(n.waiting)
    && (forall b :: b in n.buffers ==> b < n.unused)
    && (forall b :: b in n.buffers && b !in n.workers ==> NewAtMain(n, b))
    && (n.main.Holding? ==> n.main.buffer < n.unused)
    && (n.main.Holding? && n.main.isNew ==>
          var b := n.main.buffer; var cid := n.arrived[n.main.d];
          b in n.buffers && b !in n.workers && n.buffers[b] == [] && cid in n.waiting && n.waiting[cid] == b)
  }

  predicate OneEach(waiting: map<u16, Buffer>) {
    forall c, e :: c in waiting && e in waiting && c != e ==> waiting[c] != waiting[e]
  }

  predicate NewAtMain(n: Net, b: Buffer) {
    n.main.Holding? && n.main.isNew && n.main.buffer == b
  }

  /** The limits on waiting contexts, on what each holds, and on every receive queue. */
  ghost predicate Limited(n: Net) {
    && |n.waiting| <= MAX_WAITING_DATAGRAM_CONTEXTS
    && (MainOk(n) && n.main.Admitted? ==>
          n.arrived[n.main.d] in n.waiting || |n.waiting| < MAX_WAITING_DATAGRAM_CONTEXTS)
    && (forall b :: b in n.buffers ==> |n.buffers[b]| <= WAITING_DATAGRAM_QUEUE_CAPACITY)
    && QueuesLimited(n)
  }

  ghost predicate QueuesLimited(n: Net) {
    forall r :: r in n.queued ==> n.queued[r] <= UDP_RECEIVE_QUEUE_CAPACITY
  }

  /** A buffer and its task hold datagrams of their own context id only. */
  ghost predicate Sorted(n: Net) {
    && (forall b :: b in n.workers && Loaded(n.workers[b].phase) ==>
          OfContext(n, n.workers[b].phase.d, n.workers[b].cid))
    && (forall b, i :: b in n.workers && b in n.buffers && 0 <= i < |n.buffers[b]| ==>
          OfContext(n, n.buffers[b][i], n.workers[b].cid))
    && (n.main.Holding? && n.main.buffer in n.workers ==> OfContext(n, n.main.d, n.workers[n.main.buffer].cid))
  }

  predicate OfContext(n: Net, d: Datagram, cid: u16) {
    d < |n.arrived| && n.arrived[d] == cid
  }

  /** Every target attached to a datagram is one looked up for it. */
  ghost predicate Targeted(n: Net, fed: set<Delivery>) {
    && (forall k :: 0 <= k < |n.delivered| ==> n.delivered[k] in fed)
    && (n.main.Sending? ==> Delivery(n.main.d, n.main.receiver, n.main.target) in fed)
    && (forall b :: b in n.workers ==> InHandFed(n, b, fed))
  }

  predicate InHandFed(n: Net, b: Buffer, fed: set<Delivery>)
    requires b in n.workers
  {
    var p := n.workers[b].phase;
    p.Passing? ==> Delivery(p.d, p.receiver, p.target) in fed
  }

  ghost predicate Good(n: Net) {
    Served(n) && Limited(n) && Sorted(n) && NoRepeats(n)
  }

  ghost predicate Inv(s: State) {
    Bound(s.reg) && Booked(s.net) && Good(s.net)
  }

  // ─── Every step keeps the books ─────────────────────────────────────────────

  /** The step moved `d` to `p` and nothing else. */
  ghost predicate Moved(n: Net, n': Net, d: Datagram, p: Place) {
    && n'.arrived == n.arrived && d < |n.arrived| && n'.place == n.place[d := p]
    && (forall e, q :: e != d ==> (Sits(n', e, q) <==> Sits(n, e, q)))
    && (forall q :: Sits(n', d, q) <==> q == p)
  }

  lemma MovedBooked(n: Net, n': Net, d: Datagram, p: Place)
    requires Booked(n) && Moved(n, n', d, p)
    ensures Booked(n')
  {
    hide Sits;
  }

  lemma ArriveBooked(n: Net, cid: u16)
    requires Booked(n) && n.main.Idle?
    ensures Booked(Arrive(n, cid))
  {
    var n' := Arrive(n, cid);
    assert forall d, p :: Sits(n', d, p) <==> Sits(n, d, p) || (d == |n.arrived| && p == AtMain);
    assert forall d :: d in n.place ==> Sits(n, d, n.place[d]) && Sits(n', d, n.place[d]);
  }

  /** Nothing moved. */
  lemma StillBooked(n: Net, n': Net)
    requires Booked(n) && n'.arrived == n.arrived && n'.place == n.place
    requires n'.delivered == n.delivered && n'.dropped == n.dropped
    requires forall d :: MainHas(n', d) <==> MainHas(n, d)
    requires forall b, d :: WorkerHas(n', b, d) <==> WorkerHas(n, b, d)
    requires forall b, d :: Sits(n', d, InBuffer(b)) <==> Sits(n, d, InBuffer(b))
    ensures Booked(n')
  {
    assert forall d, p :: Sits(n', d, p) <==> Sits(n, d, p);
  }

  /** `d` left the hands of `main` for the drop set or the delivery log. */
  lemma SentFromMain(n: Net, d: Datagram, r: Receiver, target: TargetAddr, closed: bool)
    requires Booked(n) && MainHas(n, d)
    ensures Booked(Idled(Send(n, d, r, target, closed)))
  {
    hide Queued;
    var n' := Idled(Send(n, d, r, target, closed));
    assert forall c, e :: WorkerHas(n', c, e) <==> WorkerHas(n, c, e);
    LeftMain(n, n', d, n'.place[d]);
  }

  lemma DroppedFromMain(n: Net, d: Datagram)
    requires Booked(n) && MainHas(n, d)
    ensures Booked(Idled(Drop(n, d)))
  {
    var n' := Idled(Drop(n, d));
    assert forall c, e :: WorkerHas(n', c, e) <==> WorkerHas(n, c, e);
    LeftMain(n, n', d, Dropped);
  }

  lemma SentFromWorker(n: Net, b: Buffer, d: Datagram, r: Receiver, target: TargetAddr, closed: bool, phase: Phase)
    requires Booked(n) && WorkerHas(n, b, d) && !phase.Carrying? && !phase.Passing?
    ensures Booked(Send(Enter(n, b, phase), d, r, target, closed))
  {
    hide Queued;
    var n' := Send(Enter(n, b, phase), d, r, target, closed);
    assert Sits(n, d, AtWorker(b));
    assert forall c, e :: WorkerHas(n', c, e) <==> WorkerHas(n, c, e) && c != b;
    assert forall e :: WorkerHas(n, b, e) <==> e == d;
    MovedFromWorker(n, n', b, d, n'.place[d]);
  }

  lemma DroppedFromWorker(n: Net, b: Buffer, d: Datagram)
    requires Booked(n) && WorkerHas(n, b, d)
    ensures Booked(Drop(Enter(n, b, Leaving), d))
  {
    var n' := Drop(Enter(n, b, Leaving), d);
    assert Sits(n, d, AtWorker(b));
    assert forall c, e :: WorkerHas(n', c, e) <==> WorkerHas(n, c, e) && c != b;
    assert forall e :: WorkerHas(n, b, e) <==> e == d;
    MovedFromWorker(n, n', b, d, Dropped);
  }

  /** The drop set or the end of the delivery log took `d`. */
  predicate Filed(n: Net, n': Net, d: Datagram, p: Place) {
    && (p == Dropped || p == DeliveredAs(|n.delivered|))
    && n'.arrived == n.arrived && n'.buffers == n.buffers && n'.place == n.place[d := p]
    && n'.dropped == (if p == Dropped then n.dropped + {d} else n.dropped)
    && (if p == Dropped then n'.delivered == n.delivered
        else |n'.delivered| == |n.delivered| + 1 && n'.delivered[..|n.delivered|] == n.delivered
             && n'.delivered[|n.delivered|].datagram == d)
  }

  lemma LeftMain(n: Net, n': Net, d: Datagram, p: Place)
    requires Booked(n) && MainHas(n, d) && Filed(n, n', d, p) && n'.main.Idle?
    requires forall c, e :: WorkerHas(n', c, e) <==> WorkerHas(n, c, e)
    ensures Booked(n')
  {
    hide WorkerHas;
    assert Sits(n, d, AtMain);
    FiledMoved(n, n', d, p, AtMain);
    MovedBooked(n, n', d, p);
  }

  lemma MovedFromWorker(n: Net, n': Net, b: Buffer, d: Datagram, p: Place)
    requires Booked(n) && Sits(n, d, AtWorker(b)) && Filed(n, n', d, p) && n'.main == n.main
    requires forall c, e :: WorkerHas(n', c, e) <==> WorkerHas(n, c, e) && c != b
    requires forall e :: WorkerHas(n, b, e) <==> e == d
    ensures Booked(n')
  {
    hide WorkerHas;
    FiledMoved(n, n', d, p, AtWorker(b));
    MovedBooked(n, n', d, p);
  }

  lemma FiledMoved(n: Net, n': Net, d: Datagram, p: Place, from: Place)
    requires Booked(n) && Sits(n, d, from) && Filed(n, n', d, p)
    requires forall e :: MainHas(n', e) <==> MainHas(n, e) && (from == AtMain ==> e != d)
    requires forall c, e :: WorkerHas(n', c, e) <==> WorkerHas(n, c, e) && (from == AtWorker(c) ==> e != d)
    requires from == AtMain || from.AtWorker?
    ensures Moved(n, n', d, p)
  {
    hide WorkerHas, MainHas;
    forall e, q | e != d
      ensures Sits(n', e, q) <==> Sits(n, e, q)
    {
    }
    forall q
      ensures Sits(n', d, q) <==> q == p
    {
      assert Sits(n, d, q) ==> q == from;
    }
  }

  lemma PutBooked(n: Net, d: Datagram, b: Buffer, isNew: bool)
    requires Booked(n) && MainHas(n, d) && d < |n.arrived| && (isNew ==> b !in n.workers)
    ensures Booked(Put(n, d, b, isNew))
  {
    var n' := Put(n, d, b, isNew);
    if b !in n.buffers || |n.buffers[b]| >= WAITING_DATAGRAM_QUEUE_CAPACITY {
      DroppedFromMain(n, d);
    } else {
      assert Sits(n, d, AtMain);
      assert forall c, e :: WorkerHas(n', c, e) <==> WorkerHas(n, c, e);
      assert forall e :: e in n'.buffers[b] <==> e in n.buffers[b] || e == d;
      PutMoved(n, n', d, b);
      MovedBooked(n, n', d, InBuffer(b));
    }
  }

  lemma PutMoved(n: Net, n': Net, d: Datagram, b: Buffer)
    requires Booked(n) && Sits(n, d, AtMain) && b in n.buffers && n'.main.Idle?
    requires n'.arrived == n.arrived && n'.delivered == n.delivered && n'.dropped == n.dropped
    requires n'.place == n.place[d := InBuffer(b)] && n'.buffers == n.buffers[b := n.buffers[b] + [d]]
    requires forall c, e :: WorkerHas(n', c, e) <==> WorkerHas(n, c, e)
    requires forall e :: e in n'.buffers[b] <==> e in n.buffers[b] || e == d
    ensures Moved(n, n', d, InBuffer(b))
  {
    hide WorkerHas;
    forall e, q | e != d
      ensures Sits(n', e, q) <==> Sits(n, e, q)
    {
    }
    forall q
      ensures Sits(n', d, q) <==> q == InBuffer(b)
    {
      assert Sits(n, d, q) ==> q == AtMain;
    }
  }

  lemma TakenBooked(n: Net, b: Buffer, r: Receiver)
    requires Booked(n) && NoRepeats(n) && b in n.workers && b in n.buffers && n.buffers[b] != []
    requires !Loaded(n.workers[b].phase)
    ensures Booked(TakeFirst(n, b, r))
  {
    var q := n.buffers[b];
    var d := q[0];
    var n' := TakeFirst(n, b, r);
    assert Distinct(q);
    assert forall e :: e in q <==> e == d || e in q[1..];
    assert d !in q[1..];
    assert Sits(n, d, InBuffer(b));
    assert forall c, e :: WorkerHas(n', c, e) <==> WorkerHas(n, c, e) || (c == b && e == d);
    assert forall e :: !WorkerHas(n, b, e);
    TakenMoved(n, n', d, b);
    MovedBooked(n, n', d, AtWorker(b));
  }

  lemma TakenMoved(n: Net, n': Net, d: Datagram, b: Buffer)
    requires Booked(n) && Sits(n, d, InBuffer(b)) && b in n'.buffers && n'.buffers.Keys == n.buffers.Keys
    requires n'.main == n.main && n'.arrived == n.arrived && n'.delivered == n.delivered && n'.dropped == n.dropped
    requires n'.place == n.place[d := AtWorker(b)]
    requires forall c :: c in n.buffers && c != b ==> n'.buffers[c] == n.buffers[c]
    requires forall e :: e in n.buffers[b] <==> e == d || e in n'.buffers[b]
    requires d !in n'.buffers[b]
    requires forall c, e :: WorkerHas(n', c, e) <==> WorkerHas(n, c, e) || (c == b && e == d)
    ensures Moved(n, n', d, AtWorker(b))
  {
    hide WorkerHas;
    forall e, q | e != d
      ensures Sits(n', e, q) <==> Sits(n, e, q)
    {
    }
    forall q
      ensures Sits(n', d, q) <==> q == AtWorker(b)
    {
      assert Sits(n, d, q) ==> q == InBuffer(b);
    }
  }

  lemma DepartBooked(n: Net, b: Buffer)
    requires Booked(n) && b in n.workers && b in n.buffers && n.workers[b].phase.Leaving?
    ensures Booked(Depart(n, b))
  {
    var n' := Depart(n, b);
    assert forall c, e :: WorkerHas(n', c, e) <==> WorkerHas(n, c, e);
    assert forall e :: MainHas(n', e) <==> MainHas(n, e);
    forall d, p | Sits(n', d, p)
      ensures d in n'.place && n'.place[d] == p
    {
      LeftPlace(n, n', b, d, p);
    }
    forall d | d in n'.place
      ensures Sits(n', d, n'.place[d])
    {
      assert Sits(n, d, n.place[d]);
    }
  }

  lemma LeftPlace(n: Net, n': Net, b: Buffer, d: Datagram, p: Place)
    requires Booked(n) && b in n.buffers && Sits(n', d, p)
    requires n'.main == n.main && n'.delivered == n.delivered && n'.buffers == n.buffers - {b}
    requires n'.dropped == n.dropped + (set e | e in n.buffers[b])
    requires n'.place == map e | e in n.place :: if n.place[e] == InBuffer(b) then Dropped else n.place[e]
    requires forall c, e :: WorkerHas(n', c, e) <==> WorkerHas(n, c, e)
    ensures d in n'.place && n'.place[d] == p
  {
    hide WorkerHas;
    if p == Dropped && d !in n.dropped {
      assert Sits(n, d, InBuffer(b));
    } else {
      assert Sits(n, d, p);
    }
  }

  lemma MainStepBooked(n: Net, g: Registry, closed: bool)
    requires Booked(n) && Served(n)
    ensures Booked(MainStep(n, g, closed))
  {
    hide Sits, Booked, Send, Put, WorkerHas, Queued, Lookup, Feed, Admit, Grab;
    match n.main
    case Sending(d, r, target) => SentFromMain(n, d, r, target, closed);
    case Holding(d, b, isNew) => PutBooked(n, d, b, isNew);
    case Idle =>
    case Arrived(d) => LookupBooked(n, g, d);
    case Feeding(d, r) => FeedBooked(n, g, d, r);
    case Missed(d) => AdmitBooked(n, d);
    case Admitted(d) => GrabBooked(n, d);
  }

  lemma LookupBooked(n: Net, g: Registry, d: Datagram)
    requires Booked(n) && MainHas(n, d) && d < |n.arrived|
    ensures Booked(Lookup(n, g, d))
  {
    hide Booked;
    SameHands(n, Lookup(n, g, d));
  }

  lemma FeedBooked(n: Net, g: Registry, d: Datagram, r: Receiver)
    requires Booked(n) && MainHas(n, d) && d < |n.arrived|
    ensures Booked(Feed(n, g, d, r))
  {
    hide Booked;
    if Slot(r, n.arrived[d]) in g.local {
      SameHands(n, Feed(n, g, d, r));
    } else {
      DroppedFromMain(n, d);
    }
  }

  lemma AdmitBooked(n: Net, d: Datagram)
    requires Booked(n) && MainHas(n, d) && d < |n.arrived|
    ensures Booked(Admit(n, d))
  {
    hide Booked;
    DroppedFromMain(n, d);
    SameHands(n, n.(main := Admitted(d)));
  }

  lemma GrabBooked(n: Net, d: Datagram)
    requires Booked(n) && Served(n) && MainHas(n, d) && d < |n.arrived|
    ensures Booked(Grab(n, d))
  {
    hide Booked;
    SameHands(n, Grab(n, d));
  }

  lemma SameHands(n: Net, n': Net)
    requires Booked(n) && !n.main.Idle? && !n'.main.Idle? && n'.main.d == n.main.d
    requires n'.arrived == n.arrived && n'.place == n.place && n'.workers == n.workers
    requires n'.delivered == n.delivered && n'.dropped == n.dropped
    requires n'.buffers == n.buffers || (n.unused !in n.buffers && n'.buffers == n.buffers[n.unused := []])
    ensures Booked(n')
  {
    assert forall b, d :: WorkerHas(n', b, d) <==> WorkerHas(n, b, d);
    StillBooked(n, n');
  }

  lemma WorkerStepBooked(n: Net, g: Registry, b: Buffer, a: Act)
    requires Booked(n) && NoRepeats(n) && CanAct(n, g, b, a)
    ensures Booked(WorkerStep(n, g, b, a))
  {
    hide Sits, Booked, Send, TakeFirst, LookTarget, Depart, Enter;
    var w := n.workers[b];
    match a
    case TakeOne => TakenBooked(n, b, w.phase.receiver);
    case Look => LookBooked(n, g, b, w.phase.receiver, w.phase.d);
    case Pass(closed) =>
      SentFromWorker(n, b, w.phase.d, w.phase.receiver, w.phase.target, closed,
                     if closed then Leaving else Draining(w.phase.receiver));
    case Leave => DepartBooked(n, b);
    case Seek => SameLoad(n, b, Draining(g.shared[w.cid]));
    case TimeOut => SameLoad(n, b, Leaving);
    case Close => SameLoad(n, b, Leaving);
  }

  lemma LookBooked(n: Net, g: Registry, b: Buffer, r: Receiver, d: Datagram)
    requires Booked(n) && WorkerHas(n, b, d)
    ensures Booked(LookTarget(n, g, b, r, d))
  {
    hide Booked;
    if Slot(r, n.workers[b].cid) in g.local {
      SameLoad(n, b, Passing(r, d, g.local[Slot(r, n.workers[b].cid)]));
    } else {
      DroppedFromWorker(n, b, d);
    }
  }

  predicate Loaded(phase: Phase) {
    phase.Carrying? || phase.Passing?
  }

  lemma SameLoad(n: Net, b: Buffer, phase: Phase)
    requires Booked(n) && b in n.workers
    requires Loaded(phase) <==> Loaded(n.workers[b].phase)
    requires Loaded(phase) ==> phase.d == n.workers[b].phase.d
    ensures Booked(Enter(n, b, phase))
  {
    var n' := Enter(n, b, phase);
    assert forall c, d :: WorkerHas(n', c, d) <==> WorkerHas(n, c, d);
    StillBooked(n, n');
  }

  // ─── Every step keeps the limits and the tasks ──────────────────────────────

  /** What sending and dropping leave alone. */
  lemma SendFrame(n: Net, d: Datagram, r: Receiver, target: TargetAddr, closed: bool)
    ensures var n' := Send(n, d, r, target, closed);
            && n'.arrived == n.arrived && n'.main == n.main && n'.waiting == n.waiting && n'.buffers == n.buffers
            && n'.workers == n.workers && n'.unused == n.unused
  {
  }

  lemma SendQueues(n: Net, d: Datagram, r: Receiver, target: TargetAddr, closed: bool)
    requires QueuesLimited(n)
    ensures QueuesLimited(Send(n, d, r, target, closed))
  {
  }

  /** `main` moved on and touched no buffer. */
  lemma OnlyMain(n: Net, n': Net)
    requires Good(n) && !n.main.Holding?
    requires n'.arrived == n.arrived && n'.waiting == n.waiting && n'.buffers == n.buffers
    requires n'.workers == n.workers && n'.unused == n.unused
    requires QueuesLimited(n') && MainOk(n') && !n'.main.Holding?
    requires n'.main.Admitted? ==>
               n'.arrived[n'.main.d] in n.waiting || |n.waiting| < MAX_WAITING_DATAGRAM_CONTEXTS
    ensures Good(n')
  {
  }

  lemma MainStepGood(n: Net, g: Registry, closed: bool)
    requires Good(n) && Booked(n)
    ensures Good(MainStep(n, g, closed))
  {
    hide Good, Booked, Send, Put, Grab, Lookup, Feed, Admit;
    assert MainOk(n) by { GoodMainOk(n); }
    match n.main
    case Sending(d, r, target) => SendGood(n, d, r, target, closed);
    case Holding(d, b, isNew) => PutGood(n, d, b, isNew);
    case Admitted(d) => GrabGood(n, d);
    case Idle =>
    case Arrived(d) => LookupGood(n, g, d);
    case Feeding(d, r) => FeedGood(n, g, d, r);
    case Missed(d) => AdmitGood(n, d);
  }

  lemma GoodMainOk(n: Net)
    requires Good(n)
    ensures MainOk(n) && QueuesLimited(n)
  {
  }

  lemma SendGood(n: Net, d: Datagram, r: Receiver, target: TargetAddr, closed: bool)
    requires Good(n) && n.main == Sending(d, r, target)
    ensures Good(Idled(Send(n, d, r, target, closed)))
  {
    hide Good, Send, QueuesLimited;
    GoodMainOk(n);
    var sent := Send(n, d, r, target, closed);
    SendFrame(n, d, r, target, closed);
    SendQueues(n, d, r, target, closed);
    SameQueues(sent, Idled(sent));
    OnlyMain(n, Idled(sent));
  }

  lemma LookupGood(n: Net, g: Registry, d: Datagram)
    requires Good(n) && n.main == Arrived(d) && d < |n.arrived|
    ensures Good(Lookup(n, g, d))
  {
    hide Good, QueuesLimited;
    GoodMainOk(n);
    SameQueues(n, Lookup(n, g, d));
    OnlyMain(n, Lookup(n, g, d));
  }

  lemma FeedGood(n: Net, g: Registry, d: Datagram, r: Receiver)
    requires Good(n) && n.main == Feeding(d, r) && d < |n.arrived|
    ensures Good(Feed(n, g, d, r))
  {
    hide Good, QueuesLimited;
    GoodMainOk(n);
    SameQueues(n, Feed(n, g, d, r));
    OnlyMain(n, Feed(n, g, d, r));
  }

  lemma AdmitGood(n: Net, d: Datagram)
    requires Good(n) && n.main == Missed(d) && d < |n.arrived|
    ensures Good(Admit(n, d))
  {
    hide Good, QueuesLimited;
    GoodMainOk(n);
    assert |n.waiting| <= MAX_WAITING_DATAGRAM_CONTEXTS by { GoodWaiting(n); }
    SameQueues(n, Admit(n, d));
    OnlyMain(n, Admit(n, d));
  }

  lemma GoodWaiting(n: Net)
    requires Good(n)
    ensures |n.waiting| <= MAX_WAITING_DATAGRAM_CONTEXTS
  {
  }

  lemma GrabGood(n: Net, d: Datagram)
    requires Good(n) && n.main == Admitted(d) && d < |n.arrived|
    ensures var n' := Grab(n, d); Good(n')
  {
    hide Served, Limited, Sorted, NoRepeats, Grab;
    assert MainOk(n) by { ServedMainOk(n); }
    GrabServed(n, d);
    GrabLimited(n, d);
    GrabSorted(n, d);
  }

  lemma ServedMainOk(n: Net)
    requires Served(n)
    ensures MainOk(n)
  {
  }

  lemma GrabServed(n: Net, d: Datagram)
    requires Served(n) && n.main == Admitted(d)
    ensures Served(Grab(n, d))
  {
    var n' := Grab(n, d);
    assert n.unused !in n.buffers && n.unused !in n.workers;
    forall cid | cid in n'.waiting
      ensures n'.waiting[cid] in n'.buffers
    {
    }
    forall b | b in n'.buffers && b !in n'.workers
      ensures NewAtMain(n', b)
    {
      assert b in n.buffers ==> !NewAtMain(n, b);
    }
  }

  lemma GrabLimited(n: Net, d: Datagram)
    requires MainOk(n) && Limited(n) && n.main == Admitted(d)
    ensures Limited(Grab(n, d))
  {
  }

  lemma GrabSorted(n: Net, d: Datagram)
    requires Served(n) && Sorted(n) && NoRepeats(n) && n.main == Admitted(d)
    ensures Sorted(Grab(n, d)) && NoRepeats(Grab(n, d))
  {
    var n' := Grab(n, d);
    assert n.unused !in n.workers;
    forall b, i | b in n'.workers && b in n'.buffers && 0 <= i < |n'.buffers[b]|
      ensures OfContext(n', n'.buffers[b][i], n'.workers[b].cid)
    {
      assert OfContext(n, n.buffers[b][i], n.workers[b].cid);
    }
    forall b | b in n'.workers && Loaded(n'.workers[b].phase)
      ensures OfContext(n', n'.workers[b].phase.d, n'.workers[b].cid)
    {
      assert OfContext(n, n.workers[b].phase.d, n.workers[b].cid);
    }
  }

  lemma PutGood(n: Net, d: Datagram, b: Buffer, isNew: bool)
    requires Good(n) && Booked(n) && n.main == Holding(d, b, isNew) && d < |n.arrived|
    ensures Good(Put(n, d, b, isNew))
  {
    hide Booked, Served, Limited, Sorted, NoRepeats, Put;
    PutServed(n, d, b, isNew);
    PutLimited(n, d, b, isNew);
    PutSorted(n, d, b, isNew);
    PutNoRepeats(n, d, b, isNew);
  }

  lemma PutLimited(n: Net, d: Datagram, b: Buffer, isNew: bool)
    requires Limited(n) && n.main == Holding(d, b, isNew) && d < |n.arrived|
    ensures Limited(Put(n, d, b, isNew))
  {
    hide QueuesLimited;
    SameQueues(n, Put(n, d, b, isNew));
  }

  lemma PutServed(n: Net, d: Datagram, b: Buffer, isNew: bool)
    requires Served(n) && n.main == Holding(d, b, isNew)
    ensures Served(Put(n, d, b, isNew))
  {
    hide OneEach;
    var n' := Put(n, d, b, isNew);
    assert isNew ==> b in n.buffers && n.buffers[b] == [];
    assert forall c :: c in n'.buffers <==> c in n.buffers;
  }

  lemma PutSorted(n: Net, d: Datagram, b: Buffer, isNew: bool)
    requires Served(n) && Sorted(n) && n.main == Holding(d, b, isNew)
    ensures Sorted(Put(n, d, b, isNew))
  {
    var n' := Put(n, d, b, isNew);
    forall c, i | c in n'.workers && c in n'.buffers && 0 <= i < |n'.buffers[c]|
      ensures OfContext(n', n'.buffers[c][i], n'.workers[c].cid)
    {
      if c in n.workers && i < |n.buffers[c]| {
        assert OfContext(n, n.buffers[c][i], n.workers[c].cid);
      }
    }
    forall c | c in n'.workers && Loaded(n'.workers[c].phase)
      ensures OfContext(n', n'.workers[c].phase.d, n'.workers[c].cid)
    {
      assert OfContext(n, n.workers[c].phase.d, n.workers[c].cid);
    }
  }

  lemma PutNoRepeats(n: Net, d: Datagram, b: Buffer, isNew: bool)
    requires Booked(n) && NoRepeats(n) && d < |n.arrived| && n.main == Holding(d, b, isNew)
    ensures NoRepeats(Put(n, d, b, isNew))
  {
    assert Sits(n, d, AtMain);
    if b in n.buffers {
      assert !Sits(n, d, InBuffer(b));
      assert Distinct(n.buffers[b] + [d]) by {
        assert Distinct(n.buffers[b]) && d !in n.buffers[b];
      }
    }
  }

  /** A task changed its phase, and perhaps took the front of its buffer. */
  predicate Worked(n: Net, n': Net, b: Buffer) {
    && b in n.workers && b in n.buffers && b in n'.workers && b in n'.buffers
    && n'.arrived == n.arrived && n'.main == n.main && n'.waiting == n.waiting && n'.unused == n.unused
    && n'.workers.Keys == n.workers.Keys && n'.workers[b].cid == n.workers[b].cid
    && (forall c :: c in n.workers && c != b ==> n'.workers[c] == n.workers[c])
    && n'.buffers.Keys == n.buffers.Keys
    && (forall c :: c in n.buffers && c != b ==> n'.buffers[c] == n.buffers[c])
    && (n'.buffers[b] == n.buffers[b] || (n.buffers[b] != [] && n'.buffers[b] == n.buffers[b][1..]))
    && (Loaded(n'.workers[b].phase) ==>
          || (Loaded(n.workers[b].phase) && n'.workers[b].phase.d == n.workers[b].phase.d)
          || (n.buffers[b] != [] && n'.workers[b].phase.d == n.buffers[b][0]))
  }

  lemma WorkedGood(n: Net, n': Net, b: Buffer)
    requires Good(n) && Worked(n, n', b) && QueuesLimited(n')
    ensures Good(n')
  {
    hide Served, Sorted, Worked, Limited, NoRepeats;
    WorkedServed(n, n', b);
    WorkedSorted(n, n', b);
    WorkedLimited(n, n', b);
  }

  lemma WorkedLimited(n: Net, n': Net, b: Buffer)
    requires Limited(n) && NoRepeats(n) && Worked(n, n', b) && QueuesLimited(n')
    ensures Limited(n') && NoRepeats(n')
  {
    forall c | c in n'.buffers
      ensures Distinct(n'.buffers[c])
    {
      assert Distinct(n.buffers[c]);
    }
  }

  lemma WorkedServed(n: Net, n': Net, b: Buffer)
    requires Served(n) && Worked(n, n', b)
    ensures Served(n')
  {
    hide OneEach;
    forall c | c in n'.workers
      ensures c in n'.buffers && n'.workers[c].cid in n'.waiting && n'.waiting[n'.workers[c].cid] == c
    {
      assert n'.workers[c].cid == n.workers[c].cid;
    }
  }

  lemma WorkedSorted(n: Net, n': Net, b: Buffer)
    requires Sorted(n) && Worked(n, n', b)
    ensures Sorted(n')
  {
    forall c, i | c in n'.workers && c in n'.buffers && 0 <= i < |n'.buffers[c]|
      ensures OfContext(n', n'.buffers[c][i], n'.workers[c].cid)
    {
      var j := if c == b && n'.buffers[b] != n.buffers[b] then i + 1 else i;
      assert OfContext(n, n.buffers[c][j], n.workers[c].cid);
    }
    forall c | c in n'.workers && Loaded(n'.workers[c].phase)
      ensures OfContext(n', n'.workers[c].phase.d, n'.workers[c].cid)
    {
      if Loaded(n.workers[c].phase) {
        assert OfContext(n, n.workers[c].phase.d, n.workers[c].cid);
      }
      if c == b && n.buffers[b] != [] {
        assert OfContext(n, n.buffers[b][0], n.workers[b].cid);
      }
    }
  }

  lemma DepartGood(n: Net, b: Buffer)
    requires Good(n) && b in n.workers && b in n.buffers
    ensures Good(Depart(n, b))
  {
    hide Served, Limited, Sorted, NoRepeats, Depart;
    DepartServed(n, b);
    DepartLimited(n, b);
    DepartSorted(n, b);
  }

  lemma DepartLimited(n: Net, b: Buffer)
    requires Served(n) && Limited(n) && NoRepeats(n) && b in n.workers && b in n.buffers
    ensures Limited(Depart(n, b)) && NoRepeats(Depart(n, b))
  {
    hide QueuesLimited;
    var n' := Depart(n, b);
    SameQueues(n, n');
    assert n'.waiting.Keys == n.waiting.Keys - {n.workers[b].cid};
    assert |n'.waiting| == |n'.waiting.Keys| && |n.waiting| == |n.waiting.Keys|;
  }

  lemma DepartSorted(n: Net, b: Buffer)
    requires Sorted(n) && b in n.workers && b in n.buffers
    ensures Sorted(Depart(n, b))
  {
    var n' := Depart(n, b);
    forall c, i | c in n'.workers && c in n'.buffers && 0 <= i < |n'.buffers[c]|
      ensures OfContext(n', n'.buffers[c][i], n'.workers[c].cid)
    {
      assert OfContext(n, n.buffers[c][i], n.workers[c].cid);
    }
    forall c | c in n'.workers && Loaded(n'.workers[c].phase)
      ensures OfContext(n', n'.workers[c].phase.d, n'.workers[c].cid)
    {
      assert OfContext(n, n.workers[c].phase.d, n.workers[c].cid);
    }
  }

  lemma DepartServed(n: Net, b: Buffer)
    requires Served(n) && b in n.workers && b in n.buffers
    ensures Served(Depart(n, b))
  {
    var n' := Depart(n, b);
    forall cid | cid in n'.waiting
      ensures n'.waiting[cid] in n'.buffers
    {
      assert n.waiting[cid] != b;
    }
  }

  /** The entry a departing task removes is the only one that leads to its buffer. */
  lemma DepartsFromOwnEntry(n: Net, b: Buffer, cid: u16)
    requires Good(n) && b in n.workers && b in n.buffers && cid in n.waiting
    ensures n.waiting[cid] == b <==> cid !in Depart(n, b).waiting
  {
  }

  lemma WorkerStepGood(n: Net, g: Registry, b: Buffer, a: Act)
    requires Good(n) && CanAct(n, g, b, a)
    ensures Good(WorkerStep(n, g, b, a))
  {
    hide Good, Worked, QueuesLimited, Send, TakeFirst, LookTarget, Enter, Depart;
    if a.Leave? {
      DepartGood(n, b);
    } else {
      GoodMainOk(n);
      StepWorked(n, g, b, a);
      WorkedGood(n, WorkerStep(n, g, b, a), b);
    }
  }

  lemma StepWorked(n: Net, g: Registry, b: Buffer, a: Act)
    requires CanAct(n, g, b, a) && !a.Leave? && QueuesLimited(n)
    ensures Worked(n, WorkerStep(n, g, b, a), b) && QueuesLimited(WorkerStep(n, g, b, a))
  {
    hide Send, Depart, QueuesLimited;
    var n' := WorkerStep(n, g, b, a);
    if a.Pass? {
      var w := n.workers[b];
      var next := if a.closed then Leaving else Draining(w.phase.receiver);
      SendFrame(Enter(n, b, next), w.phase.d, w.phase.receiver, w.phase.target, a.closed);
      assert QueuesLimited(Enter(n, b, next)) by { SameQueues(n, Enter(n, b, next)); }
      SendQueues(Enter(n, b, next), w.phase.d, w.phase.receiver, w.phase.target, a.closed);
    } else {
      SameQueues(n, n');
    }
  }

  lemma SameQueues(n: Net, n': Net)
    requires QueuesLimited(n) && n'.queued == n.queued
    ensures QueuesLimited(n')
  {
  }

  // ─── Every step attaches the targets it looks up ────────────────────────────

  /** What the next step of `main` looks up, if that is a target. */
  function MainLooks(n: Net, g: Registry): set<Delivery>
    requires MainOk(n)
  {
    if n.main.Feeding? && Slot(n.main.receiver, n.arrived[n.main.d]) in g.local then
      {Delivery(n.main.d, n.main.receiver, g.local[Slot(n.main.receiver, n.arrived[n.main.d])])}
    else {}
  }

  function WorkerLooks(n: Net, g: Registry, b: Buffer, a: Act): set<Delivery>
    requires CanAct(n, g, b, a)
  {
    var w := n.workers[b];
    if a.Look? && Slot(w.phase.receiver, w.cid) in g.local then
      {Delivery(w.phase.d, w.phase.receiver, g.local[Slot(w.phase.receiver, w.cid)])}
    else {}
  }

  lemma SendTargeted(n: Net, d: Datagram, r: Receiver, target: TargetAddr, closed: bool, fed: set<Delivery>)
    requires Targeted(n, fed) && Delivery(d, r, target) in fed
    ensures Targeted(Send(n, d, r, target, closed), fed)
  {
    SendFrame(n, d, r, target, closed);
  }

  lemma IdledTargeted(n: Net, fed: set<Delivery>)
    requires Targeted(n, fed)
    ensures Targeted(Idled(n), fed)
  {
  }

  /** Deliveries are as they were, and the targets in hand were looked up. */
  lemma SameDeliveries(n: Net, n': Net, fed: set<Delivery>, more: set<Delivery>)
    requires Targeted(n, fed) && fed <= more && n'.delivered == n.delivered
    requires n'.main == n.main
             || (n'.main.Sending? ==> Delivery(n'.main.d, n'.main.receiver, n'.main.target) in more)
    requires forall b :: b in n'.workers ==>
               (b in n.workers && n'.workers[b] == n.workers[b]) || InHandFed(n', b, more)
    ensures Targeted(n', more)
  {
    forall b | b in n'.workers
      ensures InHandFed(n', b, more)
    {
      assert b in n.workers ==> InHandFed(n, b, fed);
    }
  }

  lemma MainStepTargeted(n: Net, g: Registry, closed: bool, fed: set<Delivery>)
    requires MainOk(n) && Targeted(n, fed)
    ensures Targeted(MainStep(n, g, closed), fed + MainLooks(n, g))
  {
    hide Send, Targeted, Lookup, Feed, Admit, Grab, Put;
    if !n.main.Feeding? {
      assert fed + MainLooks(n, g) == fed;
    }
    match n.main
    case Idle =>
    case Sending(d, r, target) =>
      MainTargeted(n, fed);
      SendTargeted(n, d, r, target, closed, fed);
      IdledTargeted(Send(n, d, r, target, closed), fed);
    case Arrived(d) => LookupTargeted(n, g, d, fed);
    case Feeding(d, r) => FeedTargeted(n, g, d, r, fed);
    case Missed(d) => AdmitTargeted(n, d, fed);
    case Admitted(d) => GrabTargeted(n, d, fed);
    case Holding(d, b, isNew) => PutTargeted(n, d, b, isNew, fed);
  }

  lemma LookupTargeted(n: Net, g: Registry, d: Datagram, fed: set<Delivery>)
    requires d < |n.arrived| && Targeted(n, fed)
    ensures Targeted(Lookup(n, g, d), fed)
  {
    hide Targeted;
    SameDeliveries(n, Lookup(n, g, d), fed, fed);
  }

  lemma FeedTargeted(n: Net, g: Registry, d: Datagram, r: Receiver, fed: set<Delivery>)
    requires n.main == Feeding(d, r) && d < |n.arrived| && Targeted(n, fed)
    ensures Targeted(Feed(n, g, d, r), fed + MainLooks(n, g))
  {
    hide Targeted;
    SameDeliveries(n, Feed(n, g, d, r), fed, fed + MainLooks(n, g));
  }

  lemma AdmitTargeted(n: Net, d: Datagram, fed: set<Delivery>)
    requires d < |n.arrived| && Targeted(n, fed)
    ensures Targeted(Admit(n, d), fed)
  {
    hide Targeted;
    SameDeliveries(n, Admit(n, d), fed, fed);
  }

  lemma GrabTargeted(n: Net, d: Datagram, fed: set<Delivery>)
    requires d < |n.arrived| && Targeted(n, fed)
    ensures Targeted(Grab(n, d), fed)
  {
    hide Targeted;
    SameDeliveries(n, Grab(n, d), fed, fed);
  }

  lemma PutTargeted(n: Net, d: Datagram, b: Buffer, isNew: bool, fed: set<Delivery>)
    requires d < |n.arrived| && Targeted(n, fed)
    ensures Targeted(Put(n, d, b, isNew), fed)
  {
    hide Targeted;
    SameDeliveries(n, Put(n, d, b, isNew), fed, fed);
  }

  lemma MainTargeted(n: Net, fed: set<Delivery>)
    requires Targeted(n, fed) && n.main.Sending?
    ensures Delivery(n.main.d, n.main.receiver, n.main.target) in fed
  {
  }

  lemma WorkerTargeted(n: Net, b: Buffer, fed: set<Delivery>)
    requires Targeted(n, fed) && b in n.workers
    ensures InHandFed(n, b, fed)
  {
  }

  lemma WorkerStepTargeted(n: Net, g: Registry, b: Buffer, a: Act, fed: set<Delivery>)
    requires Targeted(n, fed) && CanAct(n, g, b, a)
    ensures Targeted(WorkerStep(n, g, b, a), fed + WorkerLooks(n, g, b, a))
  {
    hide Send, Targeted;
    if a.Pass? {
      assert fed + WorkerLooks(n, g, b, a) == fed;
      var w := n.workers[b];
      var next := if a.closed then Leaving else Draining(w.phase.receiver);
      WorkerTargeted(n, b, fed);
      SameDeliveries(n, Enter(n, b, next), fed, fed);
      SendTargeted(Enter(n, b, next), w.phase.d, w.phase.receiver, w.phase.target, a.closed, fed);
    } else {
      SameDeliveries(n, WorkerStep(n, g, b, a), fed, fed + WorkerLooks(n, g, b, a));
    }
  }

  // ─── Whole runs ─────────────────────────────────────────────────────────────

  lemma StepKeepsInv(s: State, e: Event)
    requires Inv(s) && Can(s, e)
    ensures Inv(Step(s, e))
  {
    hide Bound, Booked, Good, BindStep, MainStep, WorkerStep;
    match e
    case Register(bind) => BindKeepsBound(s.reg, bind);
    case Come(cid) =>
      ArriveBooked(s.net, cid);
      ArriveGood(s.net, cid);
    case Handle(closed) =>
      GoodMainOk(s.net);
      assert Served(s.net) by { GoodServed(s.net); }
      MainStepBooked(s.net, s.reg, closed);
      MainStepGood(s.net, s.reg, closed);
    case Work(b, a) =>
      assert Sorted(s.net) && NoRepeats(s.net) by { GoodServed(s.net); }
      WorkerStepBooked(s.net, s.reg, b, a);
      WorkerStepGood(s.net, s.reg, b, a);
    case Receive(r) => ReceiveKeeps(s.net, r);
  }

  lemma GoodServed(n: Net)
    requires Good(n)
    ensures Served(n) && Limited(n) && Sorted(n) && NoRepeats(n)
  {
  }

  lemma ArriveGood(n: Net, cid: u16)
    requires Good(n) && n.main.Idle?
    ensures Good(Arrive(n, cid))
  {
    var n' := Arrive(n, cid);
    hide OneEach;
    assert Served(n');
    assert Limited(n');
    assert forall d, c :: OfContext(n, d, c) ==> OfContext(n', d, c);
    assert Sorted(n');
  }

  lemma ReceiveKeeps(n: Net, r: Receiver)
    requires Booked(n) && Good(n) && Queued(n, r) > 0
    ensures var n' := n.(queued := n.queued[r := Queued(n, r) - 1]); Booked(n') && Good(n')
  {
    var n' := n.(queued := n.queued[r := Queued(n, r) - 1]);
    assert Booked(n') by {
      assert forall b, d :: WorkerHas(n', b, d) <==> WorkerHas(n, b, d);
      StillBooked(n, n');
    }
    assert Good(n') by { ReceiveGood(n, n'); }
  }

  lemma ReceiveGood(n: Net, n': Net)
    requires Good(n) && (forall r :: r in n'.queued ==> n'.queued[r] <= UDP_RECEIVE_QUEUE_CAPACITY)
    requires n' == n.(queued := n'.queued)
    ensures Good(n')
  {
    hide OneEach, Distinct;
    assert Served(n') && Limited(n');
    assert forall d, c :: OfContext(n', d, c) <==> OfContext(n, d, c);
    assert Sorted(n');
  }

  ghost predicate Runs(s: State, es: seq<Event>)
    decreases |es|
  {
    es == [] || (Can(s, es[0]) && Runs(Step(s, es[0]), es[1..]))
  }

  function After(s: State, es: seq<Event>): State
    requires Runs(s, es)
    decreases |es|
  {
    if es == [] then s else After(Step(s, es[0]), es[1..])
  }

  lemma {:induction false} RunKeepsInv(s: State, es: seq<Event>)
    requires Inv(s) && Runs(s, es)
    ensures Inv(After(s, es))
    decreases |es|
  {
    hide Inv, Can, Step;
    if es != [] {
      StepKeepsInv(s, es[0]);
      RunKeepsInv(Step(s, es[0]), es[1..]);
    }
  }

  lemma StartInv()
    ensures Inv(START)
  {
    assert forall d, p :: !Sits(QUIET, d, p);
  }

  /** In every interleaving, every datagram that arrived is in exactly one place: in the hands of the
      loop that read it, in one waiting buffer, in the hands of that buffer's task, delivered, or
      dropped. No buffer and no delivery log holds it twice. */
  lemma EachDatagramIsInOnePlace(es: seq<Event>, d: Datagram)
    requires Runs(START, es) && d < |After(START, es).net.arrived|
    ensures var n := After(START, es).net;
            && (exists p :: Sits(n, d, p) && forall q :: Sits(n, d, q) ==> q == p)
            && (forall b, i, j :: b in n.buffers && 0 <= i < j < |n.buffers[b]| ==> n.buffers[b][i] != n.buffers[b][j])
            && (forall j, k :: 0 <= j < k < |n.delivered| ==> n.delivered[j].datagram != n.delivered[k].datagram)
  {
    hide After;
    StartInv();
    RunKeepsInv(START, es);
    OnePlace(After(START, es).net, d);
  }

  lemma OnePlace(n: Net, d: Datagram)
    requires Booked(n) && Good(n) && d < |n.arrived|
    ensures exists p :: Sits(n, d, p) && forall q :: Sits(n, d, q) ==> q == p
    ensures forall b, i, j :: b in n.buffers && 0 <= i < j < |n.buffers[b]| ==> n.buffers[b][i] != n.buffers[b][j]
    ensures forall j, k :: 0 <= j < k < |n.delivered| ==> n.delivered[j].datagram != n.delivered[k].datagram
  {
    assert Sits(n, d, n.place[d]);
    forall b | b in n.buffers
      ensures forall i, j :: 0 <= i < j < |n.buffers[b]| ==> n.buffers[b][i] != n.buffers[b][j]
    {
      assert Distinct(n.buffers[b]);
    }
    forall j, k | 0 <= j < k < |n.delivered|
      ensures n.delivered[j].datagram != n.delivered[k].datagram
    {
      assert Sits(n, n.delivered[j].datagram, DeliveredAs(j)) && Sits(n, n.delivered[k].datagram, DeliveredAs(k));
    }
  }

  // ─── The moment a datagram is fed ───────────────────────────────────────────

  /** Someone is feeding the datagram to the receiver, and its context id is bound there to the
      target. */
  ghost predicate Feeds(s: State, v: Delivery) {
    && v.datagram < |s.net.arrived|
    && (s.net.main == Feeding(v.datagram, v.receiver) || AWorkerCarries(s.net, v.datagram, v.receiver))
    && var slot := Slot(v.receiver, s.net.arrived[v.datagram]);
       slot in s.reg.local && s.reg.local[slot] == v.target
  }

  ghost predicate AWorkerCarries(n: Net, d: Datagram, r: Receiver) {
    exists b :: b in n.workers && n.workers[b].phase == Carrying(r, d)
  }

  function Looks(s: State, e: Event): set<Delivery>
    requires Can(s, e)
  {
    match e
    case Handle(_) => MainLooks(s.net, s.reg)
    case Work(b, a) => WorkerLooks(s.net, s.reg, b, a)
    case _ => {}
  }

  lemma LooksFeeds(s: State, e: Event, v: Delivery)
    requires Inv(s) && Can(s, e) && v in Looks(s, e)
    ensures Feeds(s, v)
  {
    if e.Work? {
      var w := s.net.workers[e.buffer];
      assert Sorted(s.net);
      assert OfContext(s.net, w.phase.d, w.cid);
    }
  }

  lemma StepTargeted(s: State, e: Event, fed: set<Delivery>)
    requires Inv(s) && Can(s, e) && Targeted(s.net, fed)
    ensures Targeted(Step(s, e).net, fed + Looks(s, e))
  {
    hide Targeted, MainStep, WorkerStep, Good, Booked, Bound, BindStep;
    match e
    case Handle(closed) => MainStepTargeted(s.net, s.reg, closed, fed);
    case Work(b, a) => WorkerStepTargeted(s.net, s.reg, b, a, fed);
    case _ => SameDeliveries(s.net, Step(s, e).net, fed, fed + Looks(s, e));
  }

  lemma {:induction false} RunSnoc(s: State, es: seq<Event>)
    requires Runs(s, es) && es != []
    ensures var n := |es| - 1;
            && Runs(s, es[..n]) && Can(After(s, es[..n]), es[n])
            && After(s, es) == Step(After(s, es[..n]), es[n])
    decreases |es|
  {
    hide Can, Step;
    var n := |es| - 1;
    if n > 0 {
      RunSnoc(Step(s, es[0]), es[1..]);
      assert es[1..][..n - 1] == es[..n][1..];
    }
  }

  /** Every lookup of a target in a run. */
  ghost function LookedUp(es: seq<Event>): set<Delivery>
    requires Runs(START, es)
    decreases |es|
  {
    if es == [] then {}
    else
      RunSnoc(START, es);
      var n := |es| - 1;
      LookedUp(es[..n]) + Looks(After(START, es[..n]), es[n])
  }

  lemma {:induction false} RunTargeted(es: seq<Event>)
    requires Runs(START, es)
    ensures Targeted(After(START, es).net, LookedUp(es))
    decreases |es|
  {
    hide Inv, Can, Step, Looks, Targeted;
    if es == [] {
      assert Targeted(QUIET, {}) by { QuietTargeted(); }
    } else {
      var n := |es| - 1;
      RunSnoc(START, es);
      RunTargeted(es[..n]);
      StartInv();
      RunKeepsInv(START, es[..n]);
      StepTargeted(After(START, es[..n]), es[n], LookedUp(es[..n]));
    }
  }

  lemma QuietTargeted()
    ensures Targeted(QUIET, {})
  {
  }

  lemma {:induction false} FedHasMoment(es: seq<Event>, v: Delivery) returns (i: nat)
    requires Runs(START, es) && v in LookedUp(es)
    ensures i < |es| && Runs(START, es[..i]) && Feeds(After(START, es[..i]), v)
    ensures Can(After(START, es[..i]), es[i]) && v in Looks(After(START, es[..i]), es[i])
    ensures After(START, es[..i]).net.arrived <= After(START, es).net.arrived
    decreases |es|
  {
    hide Inv, Can, Step, Looks, Feeds;
    var n := |es| - 1;
    RunSnoc(START, es);
    var s := After(START, es[..n]);
    ArrivalsStay(s, es[n]);
    if v in LookedUp(es[..n]) {
      i := FedHasMoment(es[..n], v);
      assert es[..n][..i] == es[..i] && es[..n][i] == es[i];
    } else {
      i := n;
      StartInv();
      RunKeepsInv(START, es[..n]);
      LooksFeeds(s, es[n], v);
    }
  }

  lemma ArrivalsStay(s: State, e: Event)
    requires Can(s, e)
    ensures s.net.arrived <= Step(s, e).net.arrived
  {
    hide BindStep, Send, Lookup, Feed, Admit, Grab, Put, TakeFirst, LookTarget, Depart;
    if e.Work? {
      WorkerArrivals(s.net, s.reg, e.buffer, e.act);
    }
  }

  lemma WorkerArrivals(n: Net, g: Registry, b: Buffer, a: Act)
    requires CanAct(n, g, b, a)
    ensures WorkerStep(n, g, b, a).arrived == n.arrived
  {
  }

  /** After the first `i` events the k-th datagram delivered by the end had arrived, was not delivered
      yet, was in the hands of whoever feeds it to the very receiver that got it, and that receiver had
      its context id bound to the target it was delivered with; and the event that follows is the
      lookup of that target. */
  ghost predicate BoundWhenFed(es: seq<Event>, k: nat, i: nat)
    requires Runs(START, es) && k < |After(START, es).net.delivered|
  {
    var v := After(START, es).net.delivered[k];
    && i < |es| && Runs(START, es[..i])
    && var s := After(START, es[..i]);
       && s.net.arrived <= After(START, es).net.arrived && v.datagram < |s.net.arrived|
       && (forall j :: 0 <= j < |s.net.delivered| ==> s.net.delivered[j].datagram != v.datagram)
       && (s.net.main == Feeding(v.datagram, v.receiver) || AWorkerCarries(s.net, v.datagram, v.receiver))
       && var slot := Slot(v.receiver, s.net.arrived[v.datagram]);
          slot in s.reg.local && s.reg.local[slot] == v.target && Can(s, es[i]) && v in Looks(s, es[i])
  }

  ghost predicate FedAsBound(es: seq<Event>, k: nat)
    requires Runs(START, es) && k < |After(START, es).net.delivered|
  {
    exists i: nat :: BoundWhenFed(es, k, i)
  }

  lemma DeliveredAsBoundWhenFed(es: seq<Event>, k: nat) returns (i: nat)
    requires Runs(START, es) && k < |After(START, es).net.delivered|
    ensures BoundWhenFed(es, k, i)
  {
    hide After, LookedUp, Inv, Can, Looks;
    RunTargeted(es);
    var v := After(START, es).net.delivered[k];
    i := FedHasMoment(es, v);
    StartInv();
    RunKeepsInv(START, es[..i]);
    InHandIsUndelivered(After(START, es[..i]), v);
  }

  /** Every datagram delivered carries the target its context id was bound to when it was fed, and the
      limits on waiting contexts, on what each holds, and on unread deliveries hold at every moment. */
  lemma DeliveriesAreBoundAndLimitsHold(es: seq<Event>)
    requires Runs(START, es)
    ensures var n := After(START, es).net;
            && (forall k: nat :: k < |n.delivered| ==> FedAsBound(es, k))
            && |n.waiting| <= MAX_WAITING_DATAGRAM_CONTEXTS
            && (forall b :: b in n.buffers ==> |n.buffers[b]| <= WAITING_DATAGRAM_QUEUE_CAPACITY)
            && (forall r :: r in n.queued ==> n.queued[r] <= UDP_RECEIVE_QUEUE_CAPACITY)
  {
    hide After, BoundWhenFed;
    StartInv();
    RunKeepsInv(START, es);
    forall k: nat | k < |After(START, es).net.delivered|
      ensures FedAsBound(es, k)
    {
      var i := DeliveredAsBoundWhenFed(es, k);
      assert BoundWhenFed(es, k, i);
    }
  }

  lemma InHandIsUndelivered(s: State, v: Delivery)
    requires Inv(s) && Feeds(s, v)
    ensures forall j :: 0 <= j < |s.net.delivered| ==> s.net.delivered[j].datagram != v.datagram
  {
    var n := s.net;
    if n.main == Feeding(v.datagram, v.receiver) {
      assert Sits(n, v.datagram, AtMain);
    } else {
      var b :| b in n.workers && n.workers[b].phase == Carrying(v.receiver, v.datagram);
      assert Sits(n, v.datagram, AtWorker(b));
    }
    forall j | 0 <= j < |n.delivered|
      ensures n.delivered[j].datagram != v.datagram
    {
      assert Sits(n, n.delivered[j].datagram, DeliveredAs(j));
    }
  }

  /** A receiver in the shared map holds the id itself, once it has no removal of that id half way. */
  lemma SharedReceiversHoldTheirIds(es: seq<Event>, cid: u16)
    requires Runs(START, es)
    requires var g := After(START, es).reg; cid in g.shared && Slot(g.shared[cid], cid) !in g.removing
    ensures var g := After(START, es).reg; Slot(g.shared[cid], cid) in g.local
  {
    hide After;
    StartInv();
    RunKeepsInv(START, es);
    var g := After(START, es).reg;
    assert Holds(g, Slot(g.shared[cid], cid));
  }

  function RunBinds(g: Registry, es: seq<Bind>): Option<Registry>
    decreases |es|
  {
    if es == [] then Some(g)
    else if CanBind(g, es[0]) then RunBinds(BindStep(g, es[0]), es[1..])
    else None
  }

  // ─── Why a datagram is dropped ──────────────────────────────────────────────

  /** The event drops the datagram by itself: its id is unknown to the receiver found, or the queue
      there full or closed; or it finds no receiver and too many contexts wait, or too many datagrams
      of its own, or its buffer has just been given up. */
  predicate Refuses(s: State, e: Event, d: Datagram) {
    match e
    case Handle(closed) => MainRefuses(s.net, s.reg, closed, d)
    case Work(b, a) => TaskRefuses(s.net, s.reg, b, a, d)
    case _ => false
  }

  predicate MainRefuses(n: Net, g: Registry, closed: bool, d: Datagram) {
    && MainOk(n) && MainHas(n, d)
    && match n.main
       case Feeding(_, r) => Slot(r, n.arrived[d]) !in g.local
       case Sending(_, r, _) => closed || Queued(n, r) >= UDP_RECEIVE_QUEUE_CAPACITY
       case Missed(_) => n.arrived[d] !in n.waiting && |n.waiting| >= MAX_WAITING_DATAGRAM_CONTEXTS
       case Holding(_, b, _) => b !in n.buffers || |n.buffers[b]| >= WAITING_DATAGRAM_QUEUE_CAPACITY
       case _ => false
  }

  predicate TaskRefuses(n: Net, g: Registry, b: Buffer, a: Act, d: Datagram) {
    && WorkerHas(n, b, d)
    && var w := n.workers[b];
       match a
       case Look => Slot(w.phase.receiver, w.cid) !in g.local
       case Pass(closed) => closed || Queued(n, w.phase.receiver) >= UDP_RECEIVE_QUEUE_CAPACITY
       case _ => false
  }

  /** The datagram still waits in the buffer whose task leaves. */
  predicate LeftBehind(s: State, e: Event, d: Datagram) {
    e.Work? && e.act == Leave && e.buffer in s.net.buffers && d in s.net.buffers[e.buffer]
  }

  /** The task of the buffer gives up: no receiver came in time, the receiver was closed, or it does
      not know the id of the datagram in hand. */
  predicate GivesUp(s: State, e: Event, b: Buffer) {
    e.Work? && e.buffer == b && b in s.net.workers && TaskGivesUp(s.net.workers[b], s.reg, e.act)
  }

  predicate TaskGivesUp(w: Worker, g: Registry, a: Act) {
    match a
    case TimeOut => w.phase.Seeking?
    case Close => w.phase.Draining?
    case Look => w.phase.Carrying? && Slot(w.phase.receiver, w.cid) !in g.local
    case Pass(closed) => w.phase.Passing? && closed
    case _ => false
  }

  /** Of a step of `main` with datagram `d`: what it may have dropped, and the task it may have
      started. */
  predicate MainDid(n: Net, n': Net, d: Datagram, refused: bool) {
    && (n'.dropped == n.dropped || (refused && n'.dropped == n.dropped + {d}))
    && (forall b :: b in n'.workers ==>
          (b in n.workers && n'.workers[b] == n.workers[b]) || n'.workers[b].phase.Seeking?)
  }

  lemma LookupDid(n: Net, g: Registry, d: Datagram)
    requires d < |n.arrived|
    ensures MainDid(n, Lookup(n, g, d), d, false) && MainDid(n, Grab(n, d), d, false)
  {
  }

  lemma FeedDid(n: Net, g: Registry, d: Datagram, r: Receiver)
    requires d < |n.arrived|
    ensures MainDid(n, Feed(n, g, d, r), d, Slot(r, n.arrived[d]) !in g.local)
  {
  }

  lemma SendDid(n: Net, d: Datagram, r: Receiver, target: TargetAddr, closed: bool)
    ensures MainDid(n, Idled(Send(n, d, r, target, closed)), d, closed || Queued(n, r) >= UDP_RECEIVE_QUEUE_CAPACITY)
  {
    hide Queued;
  }

  lemma AdmitDid(n: Net, d: Datagram)
    requires d < |n.arrived|
    ensures MainDid(n, Admit(n, d), d,
                    n.arrived[d] !in n.waiting && |n.waiting| >= MAX_WAITING_DATAGRAM_CONTEXTS)
  {
  }

  lemma PutDid(n: Net, d: Datagram, b: Buffer, isNew: bool)
    requires d < |n.arrived|
    ensures MainDid(n, Put(n, d, b, isNew), d,
                    b !in n.buffers || |n.buffers[b]| >= WAITING_DATAGRAM_QUEUE_CAPACITY)
  {
  }

  lemma MainDrops(n: Net, g: Registry, closed: bool, d: Datagram)
    requires MainOk(n) && d in MainStep(n, g, closed).dropped
    ensures d in n.dropped || MainRefuses(n, g, closed, d)
  {
    hide Lookup, Grab, Feed, Send, Admit, Put, Queued;
    MainStepDid(n, g, closed);
  }

  lemma MainStepDid(n: Net, g: Registry, closed: bool)
    requires MainOk(n)
    ensures !n.main.Idle? ==> MainDid(n, MainStep(n, g, closed), n.main.d, MainRefuses(n, g, closed, n.main.d))
  {
    hide Lookup, Grab, Feed, Send, Admit, Put, Queued, MainDid;
    match n.main
    case Idle =>
    case Arrived(d) => LookupDid(n, g, d);
    case Feeding(d, r) => FeedDid(n, g, d, r);
    case Sending(d, r, target) => SendDid(n, d, r, target, closed);
    case Missed(d) => AdmitDid(n, d);
    case Admitted(d) => LookupDid(n, g, d);
    case Holding(d, b, isNew) => PutDid(n, d, b, isNew);
  }

  lemma TaskDrops(n: Net, g: Registry, b: Buffer, a: Act, d: Datagram)
    requires CanAct(n, g, b, a) && d in WorkerStep(n, g, b, a).dropped
    ensures d in n.dropped || TaskRefuses(n, g, b, a, d) || (a == Leave && d in n.buffers[b])
  {
  }

  lemma StepDrops(s: State, e: Event, d: Datagram)
    requires Can(s, e) && d in Step(s, e).net.dropped
    ensures d in s.net.dropped || Refuses(s, e, d) || LeftBehind(s, e, d)
  {
    hide MainStep, WorkerStep, BindStep, MainRefuses, TaskRefuses;
    match e
    case Handle(closed) => MainDrops(s.net, s.reg, closed, d);
    case Work(b, a) => TaskDrops(s.net, s.reg, b, a, d);
    case _ =>
  }

  lemma MainLeaves(n: Net, g: Registry, closed: bool, b: Buffer)
    requires MainOk(n) && b in MainStep(n, g, closed).workers && MainStep(n, g, closed).workers[b].phase.Leaving?
    ensures b in n.workers && n.workers[b].phase.Leaving?
  {
    hide Lookup, Grab, Feed, Send, Admit, Put, Queued, MainRefuses;
    MainStepDid(n, g, closed);
  }

  lemma TaskLeaves(n: Net, g: Registry, b: Buffer, a: Act, c: Buffer)
    requires CanAct(n, g, b, a)
    requires c in WorkerStep(n, g, b, a).workers && WorkerStep(n, g, b, a).workers[c].phase.Leaving?
    ensures c in n.workers && (n.workers[c].phase.Leaving? || (c == b && TaskGivesUp(n.workers[b], g, a)))
  {
  }

  lemma StepLeaves(s: State, e: Event, b: Buffer)
    requires Can(s, e) && b in Step(s, e).net.workers && Step(s, e).net.workers[b].phase.Leaving?
    ensures (b in s.net.workers && s.net.workers[b].phase.Leaving?) || GivesUp(s, e, b)
  {
    hide MainStep, WorkerStep, BindStep, TaskGivesUp;
    match e
    case Handle(closed) => MainLeaves(s.net, s.reg, closed, b);
    case Work(c, a) => TaskLeaves(s.net, s.reg, c, a, b);
    case _ =>
  }

  ghost predicate RefusedAt(es: seq<Event>, i: nat, d: Datagram) {
    i < |es| && Runs(START, es[..i]) && Refuses(After(START, es[..i]), es[i], d)
  }

  ghost predicate LeftBehindAt(es: seq<Event>, i: nat, d: Datagram) {
    i < |es| && Runs(START, es[..i]) && LeftBehind(After(START, es[..i]), es[i], d)
  }

  ghost predicate GivenUpAt(es: seq<Event>, i: nat, b: Buffer) {
    i < |es| && Runs(START, es[..i]) && GivesUp(After(START, es[..i]), es[i], b)
  }

  lemma {:induction false} LeavesForAReason(es: seq<Event>, b: Buffer) returns (j: nat)
    requires Runs(START, es)
    requires var n := After(START, es).net; b in n.workers && n.workers[b].phase.Leaving?
    ensures GivenUpAt(es, j, b)
    decreases |es|
  {
    hide Can, Step, GivesUp;
    assert es != [];
    var n := |es| - 1;
    RunSnoc(START, es);
    var s := After(START, es[..n]);
    StepLeaves(s, es[n], b);
    if b in s.net.workers && s.net.workers[b].phase.Leaving? {
      j := LeavesForAReason(es[..n], b);
      assert es[..n][..j] == es[..j] && es[..n][j] == es[j];
    } else {
      j := n;
    }
  }

  /** In every interleaving a datagram is dropped only for a reason: at the `i`-th event it was refused
      itself, or it was left behind in a buffer whose task had given up at the `j`-th. A task that
      found its receiver does not give up on that account. */
  lemma {:induction false} DroppedForAReason(es: seq<Event>, d: Datagram) returns (i: nat, j: nat)
    requires Runs(START, es) && d in After(START, es).net.dropped
    ensures RefusedAt(es, i, d) || (LeftBehindAt(es, i, d) && j < i && GivenUpAt(es, j, es[i].buffer))
    decreases |es|
  {
    hide Can, Step, GivesUp, Refuses;
    assert es != [];
    var n := |es| - 1;
    RunSnoc(START, es);
    var s := After(START, es[..n]);
    StepDrops(s, es[n], d);
    j := 0;
    if d in s.net.dropped {
      i, j := DroppedForAReason(es[..n], d);
      assert es[..n][..i] == es[..i] && es[..n][i] == es[i];
      if LeftBehindAt(es[..n], i, d) && j < i && GivenUpAt(es[..n], j, es[..n][i].buffer) {
        assert es[..n][..j] == es[..j] && es[..n][j] == es[j];
      }
    } else {
      i := n;
      if LeftBehind(s, es[n], d) {
        assert Can(s, es[n]);
        LeaversLeave(s, es[n]);
        j := LeavesForAReason(es[..n], es[n].buffer);
        assert es[..n][..j] == es[..j] && es[..n][j] == es[j];
      }
    }
  }

  lemma LeaversLeave(s: State, e: Event)
    requires Can(s, e) && e.Work? && e.act == Leave
    ensures e.buffer in s.net.workers && s.net.workers[e.buffer].phase.Leaving?
  {
  }

  // ─── What waits at a receiver ───────────────────────────────────────────────

  function DeliveredTo(q: seq<Delivery>, r: Receiver): nat {
    if q == [] then 0 else DeliveredTo(q[..|q| - 1], r) + if q[|q| - 1].receiver == r then 1 else 0
  }

  function ReceivedBy(es: seq<Event>, r: Receiver): nat {
    if es == [] then 0 else ReceivedBy(es[..|es| - 1], r) + if es[|es| - 1] == Receive(r) then 1 else 0
  }

  /** The queue and the deliveries to a receiver went up together. */
  predicate QueuedTogether(n: Net, n': Net, r: Receiver) {
    DeliveredTo(n'.delivered, r) - Queued(n', r) == DeliveredTo(n.delivered, r) - Queued(n, r)
  }

  lemma SendQueuesOne(n: Net, d: Datagram, r: Receiver, target: TargetAddr, closed: bool, reader: Receiver)
    ensures QueuedTogether(n, Send(n, d, r, target, closed), reader)
  {
    var n' := Send(n, d, r, target, closed);
    assert n'.delivered != n.delivered ==> n'.delivered[..|n'.delivered| - 1] == n.delivered;
  }

  lemma MainQueues(n: Net, g: Registry, closed: bool, reader: Receiver)
    requires MainOk(n)
    ensures QueuedTogether(n, MainStep(n, g, closed), reader)
  {
    hide Send, DeliveredTo;
    if n.main.Sending? {
      SendQueuesOne(n, n.main.d, n.main.receiver, n.main.target, closed, reader);
    }
  }

  lemma TaskQueues(n: Net, g: Registry, b: Buffer, a: Act, reader: Receiver)
    requires CanAct(n, g, b, a)
    ensures QueuedTogether(n, WorkerStep(n, g, b, a), reader)
  {
    hide Send, DeliveredTo;
    if a.Pass? {
      var Passing(r, d, target) := n.workers[b].phase;
      var entered := Enter(n, b, if a.closed then Leaving else Draining(r));
      SendQueuesOne(entered, d, r, target, a.closed, reader);
    }
  }

  lemma StepQueues(s: State, e: Event, r: Receiver)
    requires Can(s, e)
    ensures var s' := Step(s, e);
            DeliveredTo(s'.net.delivered, r) - Queued(s'.net, r)
            == DeliveredTo(s.net.delivered, r) - Queued(s.net, r) + if e == Receive(r) then 1 else 0
  {
    hide MainStep, WorkerStep, BindStep, DeliveredTo, CanAct, CanBind;
    match e
    case Handle(closed) => MainQueues(s.net, s.reg, closed, r);
    case Work(b, a) => TaskQueues(s.net, s.reg, b, a, r);
    case _ =>
  }

  /** In every interleaving a receiver's queue holds what was delivered to it and not read yet: each
      delivery takes one place and each read frees one. */
  lemma {:induction false} QueueHoldsTheUnread(es: seq<Event>, r: Receiver)
    requires Runs(START, es)
    ensures var n := After(START, es).net; DeliveredTo(n.delivered, r) == Queued(n, r) + ReceivedBy(es, r)
    decreases |es|
  {
    hide Can, Step, Queued;
    if es != [] {
      var n := |es| - 1;
      RunSnoc(START, es);
      QueueHoldsTheUnread(es[..n], r);
      StepQueues(After(START, es[..n]), es[n], r);
    } else {
      assert Queued(QUIET, r) == 0 by { NothingQueued(r); }
    }
  }

  lemma NothingQueued(r: Receiver)
    ensures Queued(QUIET, r) == 0
  {
  }

  // ─── Datagrams that waited get through ──────────────────────────────────────

  lemma RunCons(s: State, e: Event, es: seq<Event>)
    requires Can(s, e) && Runs(Step(s, e), es)
    ensures Runs(s, [e] + es) && After(s, [e] + es) == After(Step(s, e), es)
  {
    hide Can, Step;
    assert ([e] + es)[1..] == es;
  }

  /** One waiting datagram after the other is taken, its target looked up, and sent. */
  function Drains(b: Buffer, k: nat): seq<Event> {
    if k == 0 then [] else [Work(b, TakeOne)] + ([Work(b, Look)] + ([Work(b, Pass(false))] + Drains(b, k - 1)))
  }

  function DeliveriesOf(q: seq<Datagram>, r: Receiver, target: TargetAddr): seq<Delivery> {
    if q == [] then [] else [Delivery(q[0], r, target)] + DeliveriesOf(q[1..], r, target)
  }

  /** The task of buffer `b` is at work for a receiver that knows the id and has room for everything. */
  predicate DrainsInto(s: State, b: Buffer, r: Receiver, target: TargetAddr) {
    && b in s.net.workers && b in s.net.buffers && s.net.workers[b].phase == Draining(r)
    && Queued(s.net, r) + |s.net.buffers[b]| <= UDP_RECEIVE_QUEUE_CAPACITY
    && var slot := Slot(r, s.net.workers[b].cid);
       slot in s.reg.local && s.reg.local[slot] == target
  }

  lemma DrainOne(s: State, b: Buffer, r: Receiver, target: TargetAddr)
    requires DrainsInto(s, b, r, target) && s.net.buffers[b] != []
    ensures Can(s, Work(b, TakeOne))
    ensures var s1 := Step(s, Work(b, TakeOne));
            && Can(s1, Work(b, Look))
            && var s2 := Step(s1, Work(b, Look));
               && Can(s2, Work(b, Pass(false)))
               && var s3 := Step(s2, Work(b, Pass(false)));
                  && DrainsInto(s3, b, r, target) && s3.reg == s.reg
                  && s3.net.buffers == s.net.buffers[b := s.net.buffers[b][1..]]
                  && s3.net.delivered == s.net.delivered + [Delivery(s.net.buffers[b][0], r, target)]
                  && s3.net.dropped == s.net.dropped
  {
  }

  lemma {:induction false} DrainDelivers(s: State, b: Buffer, r: Receiver, target: TargetAddr)
    requires DrainsInto(s, b, r, target)
    ensures var q := s.net.buffers[b];
            && Runs(s, Drains(b, |q|))
            && var n := After(s, Drains(b, |q|)).net;
               && n.buffers == s.net.buffers[b := []] && n.dropped == s.net.dropped
               && n.delivered == s.net.delivered + DeliveriesOf(q, r, target)
    decreases |s.net.buffers[b]|
  {
    hide Can, Step;
    var q := s.net.buffers[b];
    if q == [] {
      assert s.net.delivered + [] == s.net.delivered;
      assert s.net.buffers == s.net.buffers[b := []];
    } else {
      DrainOne(s, b, r, target);
      var s1 := Step(s, Work(b, TakeOne));
      var s2 := Step(s1, Work(b, Look));
      var s3 := Step(s2, Work(b, Pass(false)));
      DrainDelivers(s3, b, r, target);
      var rest := Drains(b, |q| - 1);
      RunCons(s2, Work(b, Pass(false)), rest);
      RunCons(s1, Work(b, Look), [Work(b, Pass(false))] + rest);
      RunCons(s, Work(b, TakeOne), [Work(b, Look)] + ([Work(b, Pass(false))] + rest));
      Assoc(s.net.delivered, [Delivery(q[0], r, target)], DeliveriesOf(q[1..], r, target));
      assert s3.net.buffers[b := []] == s.net.buffers[b := []];
    }
  }

  /** Datagrams that came before their binding are handed on. When the id is bound and entered, and
      the receiver open with room for them, the task that seeks the receiver of their buffer finds it,
      and draining delivers the whole buffer, in order, to that receiver and with that target; none is
      dropped. */
  lemma WaitedIsDelivered(s: State, b: Buffer, r: Receiver, target: TargetAddr)
    requires b in s.net.workers && b in s.net.buffers && s.net.workers[b].phase == Seeking
    requires var cid := s.net.workers[b].cid; var slot := Slot(r, cid);
             && cid in s.reg.shared && s.reg.shared[cid] == r && cid !in s.reg.binding
             && slot in s.reg.local && s.reg.local[slot] == target
    requires Queued(s.net, r) + |s.net.buffers[b]| <= UDP_RECEIVE_QUEUE_CAPACITY
    ensures var q := s.net.buffers[b];
            var es := [Work(b, Seek)] + Drains(b, |q|);
            && Runs(s, es)
            && var n := After(s, es).net;
               && n.buffers == s.net.buffers[b := []] && n.dropped == s.net.dropped
               && n.delivered == s.net.delivered + DeliveriesOf(q, r, target)
  {
    hide Drains, DeliveriesOf;
    var s1 := Step(s, Work(b, Seek));
    assert DrainsInto(s1, b, r, target);
    DrainDelivers(s1, b, r, target);
    RunCons(s, Work(b, Seek), Drains(b, |s.net.buffers[b]|));
  }

  /** A datagram whose id is bound and entered is delivered at once. */
  lemma BoundIsDelivered(s: State, cid: u16, r: Receiver, target: TargetAddr)
    requires s.net.main.Idle? && cid in s.reg.shared && s.reg.shared[cid] == r && cid !in s.reg.binding
    requires Slot(r, cid) in s.reg.local && s.reg.local[Slot(r, cid)] == target
    requires Queued(s.net, r) < UDP_RECEIVE_QUEUE_CAPACITY
    ensures var d := |s.net.arrived|;
            var es := [Come(cid)] + ([Handle(false)] + ([Handle(false)] + ([Handle(false)] + [])));
            && Runs(s, es)
            && var n := After(s, es).net;
               n.main.Idle? && n.delivered == s.net.delivered + [Delivery(d, r, target)] && n.dropped == s.net.dropped
  {
    var s1 := Step(s, Come(cid));
    var s2 := Step(s1, Handle(false));
    var s3 := Step(s2, Handle(false));
    assert s3.net.main == Sending(|s.net.arrived|, r, target);
    HandleOnce(s3, []);
    HandleOnce(s2, [Handle(false)] + []);
    HandleOnce(s1, [Handle(false)] + ([Handle(false)] + []));
    RunCons(s, Come(cid), [Handle(false)] + ([Handle(false)] + ([Handle(false)] + [])));
  }

  lemma HandleOnce(s: State, es: seq<Event>)
    requires MainOk(s.net) && Runs(Step(s, Handle(false)), es)
    ensures Runs(s, [Handle(false)] + es)
    ensures After(s, [Handle(false)] + es) == After(Step(s, Handle(false)), es)
  {
    hide Step;
    RunCons(s, Handle(false), es);
  }

  lemma MissesIt(s: State, cid: u16)
    requires s.net.main.Idle? && cid !in s.reg.shared && cid !in s.reg.binding
    requires cid in s.net.waiting || |s.net.waiting| < MAX_WAITING_DATAGRAM_CONTEXTS
    ensures var d := |s.net.arrived|;
            var s1 := Step(s, Come(cid));
            && Can(s, Come(cid)) && MainOk(s1.net)
            && var s2 := Step(s1, Handle(false));
               && MainOk(s2.net)
               && Step(s2, Handle(false))
                  == s.(net := s.net.(arrived := s.net.arrived + [cid], main := Admitted(d),
                                      place := s.net.place[d := AtMain]))
  {
    var s1 := Step(s, Come(cid));
    assert s1.net.arrived[|s.net.arrived|] == cid;
    assert Step(s1, Handle(false)) == s1.(net := s1.net.(main := Missed(|s.net.arrived|)));
  }

  lemma BuffersIt(n: Net, d: Datagram, g: Registry)
    requires n.main == Admitted(d) && d < |n.arrived|
    requires n.unused !in n.buffers
    requires var cid := n.arrived[d];
             cid in n.waiting ==> n.waiting[cid] in n.buffers && n.waiting[cid] in n.workers
                                  && |n.buffers[n.waiting[cid]]| < WAITING_DATAGRAM_QUEUE_CAPACITY
    ensures var cid := n.arrived[d];
            var b := if cid in n.waiting then n.waiting[cid] else n.unused;
            var n1 := MainStep(n, g, false);
            && MainOk(n1)
            && var n2 := MainStep(n1, g, false);
               && n2.main.Idle? && n2.dropped == n.dropped && n2.delivered == n.delivered
               && cid in n2.waiting && n2.waiting[cid] == b && b in n2.buffers && b in n2.workers
               && n2.buffers[b] == (if b in n.buffers then n.buffers[b] else []) + [d]
               && (cid !in n.waiting ==> n2.workers[b] == Worker(cid, Seeking))
  {
    var cid := n.arrived[d];
    var n1 := MainStep(n, g, false);
    assert cid !in n.waiting ==> n1.buffers[n.unused] == [];
  }

  /** One that comes before its binding waits, unless a limit is reached: in a new buffer with a task
      of its own, or behind those that wait already. */
  lemma EarlyIsBuffered(s: State, cid: u16)
    requires Inv(s) && s.net.main.Idle? && cid !in s.reg.shared && cid !in s.reg.binding
    requires if cid in s.net.waiting
             then s.net.waiting[cid] in s.net.buffers
                  && |s.net.buffers[s.net.waiting[cid]]| < WAITING_DATAGRAM_QUEUE_CAPACITY
             else |s.net.waiting| < MAX_WAITING_DATAGRAM_CONTEXTS
    ensures var d := |s.net.arrived|;
            var es := [Come(cid)] + ([Handle(false)] + ([Handle(false)] + ([Handle(false)] + ([Handle(false)] + []))));
            var b := if cid in s.net.waiting then s.net.waiting[cid] else s.net.unused;
            && Runs(s, es)
            && var n := After(s, es).net;
               && n.main.Idle? && n.dropped == s.net.dropped && n.delivered == s.net.delivered
               && cid in n.waiting && n.waiting[cid] == b && b in n.buffers && b in n.workers
               && n.buffers[b] == (if b in s.net.buffers then s.net.buffers[b] else []) + [d]
               && (cid !in s.net.waiting ==> n.workers[b] == Worker(cid, Seeking))
  {
    hide MainStep, Booked, Limited, Sorted, NoRepeats, Bound;
    var d := |s.net.arrived|;
    MissesIt(s, cid);
    var s1 := Step(s, Come(cid));
    var s2 := Step(s1, Handle(false));
    var s3 := Step(s2, Handle(false));
    assert s3.net.arrived[d] == cid;
    HasTask(s.net, cid);
    BuffersIt(s3.net, d, s3.reg);
    var s4 := Step(s3, Handle(false));
    HandleOnce(s4, []);
    HandleOnce(s3, [Handle(false)] + []);
    HandleOnce(s2, [Handle(false)] + ([Handle(false)] + []));
    HandleOnce(s1, [Handle(false)] + ([Handle(false)] + ([Handle(false)] + [])));
    RunCons(s, Come(cid), [Handle(false)] + ([Handle(false)] + ([Handle(false)] + ([Handle(false)] + []))));
  }

  /** Every context that waits has a buffer and, while `main` is idle, a task for it. */
  lemma HasTask(n: Net, cid: u16)
    requires Served(n) && n.main.Idle?
    ensures n.unused !in n.buffers
    ensures cid in n.waiting ==> n.waiting[cid] in n.buffers && n.waiting[cid] in n.workers
  {
  }

  // ─── When the shared map leads to every id held ─────────────────────────────

  /** The shared map leads to the receiver of this id, or is about to. */
  predicate Entered(g: Registry, slot: Slot) {
    || (slot.cid in g.shared && g.shared[slot.cid] == slot.receiver)
    || (slot.cid in g.binding && g.binding[slot.cid].slot == slot)
  }

  ghost predicate AllEntered(g: Registry) {
    forall slot :: slot in g.local ==> Entered(g, slot)
  }

  /** The one event that makes a receiver hold an id the shared map does not lead to: the second half
      of a removal, while the receiver holds the id again. */
  predicate Strips(g: Registry, e: Bind) {
    e.Release? && e.slot in g.local
  }

  lemma StepEnteredIff(g: Registry, e: Bind)
    requires Bound(g) && AllEntered(g) && CanBind(g, e)
    ensures AllEntered(BindStep(g, e)) <==> !Strips(g, e)
  {
    var g' := BindStep(g, e);
    if Strips(g, e) {
      assert Entered(g, e.slot);
      assert e.slot in g'.local && !Entered(g', e.slot);
    } else {
      forall slot | slot in g'.local
        ensures Entered(g', slot)
      {
        assert slot in g.local ==> Entered(g, slot);
      }
    }
  }

  ghost predicate BindRuns(g: Registry, es: seq<Bind>)
    decreases |es|
  {
    es == [] || (CanBind(g, es[0]) && BindRuns(BindStep(g, es[0]), es[1..]))
  }

  ghost predicate AlwaysEntered(g: Registry, es: seq<Bind>)
    requires BindRuns(g, es)
    decreases |es|
  {
    AllEntered(g) && (es == [] || AlwaysEntered(BindStep(g, es[0]), es[1..]))
  }

  ghost predicate NeverStrips(g: Registry, es: seq<Bind>)
    requires BindRuns(g, es)
    decreases |es|
  {
    es == [] || (!Strips(g, es[0]) && NeverStrips(BindStep(g, es[0]), es[1..]))
  }

  /** Throughout a run the shared map leads to every id held, or is about to, if and only if no removal
      is ever finished for an id its receiver holds again. */
  lemma {:induction false} EnteredThroughoutIff(g: Registry, es: seq<Bind>)
    requires Bound(g) && AllEntered(g) && BindRuns(g, es)
    ensures AlwaysEntered(g, es) <==> NeverStrips(g, es)
    decreases |es|
  {
    hide Bound, AllEntered, CanBind, BindStep, Strips;
    if es != [] {
      StepEnteredIff(g, es[0]);
      BindKeepsBound(g, es[0]);
      if !Strips(g, es[0]) {
        EnteredThroughoutIff(BindStep(g, es[0]), es[1..]);
      }
    }
  }

  /** What a caller can see to: no id is bound again by a receiver that has a removal of it half way. */
  predicate Patient(g: Registry, e: Bind) {
    e.BindLocal? ==> e.slot !in g.removing
  }

  ghost predicate AllPatient(s: State, es: seq<Event>)
    requires Runs(s, es)
    decreases |es|
  {
    es == [] || ((es[0].Register? ==> Patient(s.reg, es[0].bind)) && AllPatient(Step(s, es[0]), es[1..]))
  }

  ghost predicate NoneTwice(g: Registry) {
    forall slot :: slot in g.removing ==> slot !in g.local
  }

  lemma PatientStep(g: Registry, e: Bind)
    requires Bound(g) && AllEntered(g) && NoneTwice(g) && CanBind(g, e) && Patient(g, e)
    ensures AllEntered(BindStep(g, e)) && NoneTwice(BindStep(g, e)) && !Strips(g, e)
  {
    StepEnteredIff(g, e);
  }

  lemma {:induction false} PatientRun(s: State, es: seq<Event>)
    requires Runs(s, es) && AllPatient(s, es) && Bound(s.reg) && AllEntered(s.reg) && NoneTwice(s.reg)
    ensures Bound(After(s, es).reg) && AllEntered(After(s, es).reg) && NoneTwice(After(s, es).reg)
    decreases |es|
  {
    hide Bound, AllEntered, NoneTwice, CanBind, BindStep, MainStep, WorkerStep, CanAct;
    if es != [] {
      if es[0].Register? {
        BindKeepsBound(s.reg, es[0].bind);
        PatientStep(s.reg, es[0].bind);
      }
      PatientRun(Step(s, es[0]), es[1..]);
    }
  }

  /** In every interleaving of all tasks in which ids are bound patiently, a receiver holds an id
      exactly when the shared map leads to it there, leaving aside ids whose bind or removal is half
      way. */
  lemma HeldExactlyWhenEntered(es: seq<Event>, slot: Slot)
    requires Runs(START, es) && AllPatient(START, es)
    requires var g := After(START, es).reg; slot.cid !in g.binding && slot !in g.removing
    ensures var g := After(START, es).reg;
            slot in g.local <==> slot.cid in g.shared && g.shared[slot.cid] == slot.receiver
  {
    hide After, AllPatient;
    PatientRun(START, es);
    var g := After(START, es).reg;
    if slot in g.local {
      assert Entered(g, slot);
    }
    if slot.cid in g.shared && g.shared[slot.cid] == slot.receiver {
      assert Holds(g, Slot(g.shared[slot.cid], slot.cid));
    }
  }

  /** An impatient run that ends with an id held and not entered: two streams of one id end at once
      around a new bind. */
  lemma IdCanOutliveItsEntry(slot: Slot, target: TargetAddr)
    ensures var es := [BindLocal(slot, target), BindShared(slot.cid), Unbind(slot), Unbind(slot), Release(slot),
                       BindLocal(slot, target), BindShared(slot.cid), Release(slot)];
            var g := RunBinds(NO_BINDINGS, es);
            g.Some? && slot in g.value.local && slot.cid !in g.value.shared && g.value.removing == multiset{}
  {
    var g1 := BindStep(NO_BINDINGS, BindLocal(slot, target));
    var g2 := BindStep(g1, BindShared(slot.cid));
    var g3 := BindStep(BindStep(g2, Unbind(slot)), Unbind(slot));
    var g4 := BindStep(g3, Release(slot));
    var g5 := BindStep(BindStep(g4, BindLocal(slot, target)), BindShared(slot.cid));
    var g6 := BindStep(g5, Release(slot));
    assert RunBinds(g6, []) == Some(g6);
    assert RunBinds(g5, [Release(slot)]) == Some(g6);
    BindTwice(g4, slot, target, [Release(slot)]);
    var es4 := [BindLocal(slot, target), BindShared(slot.cid)] + [Release(slot)];
    var es3 := [Release(slot)] + es4;
    assert RunBinds(g3, es3) == RunBinds(g4, es4) by { assert es3[1..] == es4; }
    var es2 := [Unbind(slot), Unbind(slot)] + es3;
    assert RunBinds(g2, es2) == RunBinds(g3, es3) by { assert es2[1..][1..] == es3; }
    BindTwice(NO_BINDINGS, slot, target, es2);
    assert [BindLocal(slot, target), BindShared(slot.cid)] + es2
        == [BindLocal(slot, target), BindShared(slot.cid), Unbind(slot), Unbind(slot), Release(slot),
            BindLocal(slot, target), BindShared(slot.cid), Release(slot)];
  }

  lemma BindTwice(g: Registry, slot: Slot, target: TargetAddr, later: seq<Bind>)
    requires slot.cid !in g.shared && slot.cid !in g.binding
    ensures var g' := BindStep(BindStep(g, BindLocal(slot, target)), BindShared(slot.cid));
            RunBinds(g, [BindLocal(slot, target), BindShared(slot.cid)] + later) == RunBinds(g', later)
  {
    var es := [BindLocal(slot, target), BindShared(slot.cid)] + later;
    assert es[1..][1..] == later;
  }

  // ─── The objects ────────────────────────────────────────────────────────────

  class Receivers {
    var shared: map<u16, Receiver>
    var local: map<Slot, TargetAddr>

    constructor ()
      ensures shared == map[] && local == map[]
    {
      shared, local := map[], map[];
    }

    /** `bind_context_id`: an id in use is refused and nothing changes. */
    method BindContextId(slot: Slot, target: TargetAddr) returns (ok: bool)
      modifies this
      ensures ok <==> slot.cid !in old(shared)
      ensures ok ==> shared == old(shared)[slot.cid := slot.receiver] && local == old(local)[slot := target]
      ensures !ok ==> shared == old(shared) && local == old(local)
    {
      if slot.cid in shared {
        return false;
      }
      local := local[slot := target];
      shared := shared[slot.cid := slot.receiver];
      return true;
    }

    /** `clean`: the receiver gives up every id it holds, in the shared map only where the entry is
        its own. */
    method Clean(r: Receiver)
      modifies this
      ensures forall slot :: slot in local <==> slot in old(local) && slot.receiver != r
      ensures forall slot :: slot in local ==> local[slot] == old(local)[slot]
      ensures forall cid :: cid in shared <==>
                cid in old(shared) && !(old(shared)[cid] == r && Slot(r, cid) in old(local))
      ensures forall cid :: cid in shared ==> shared[cid] == old(shared)[cid]
    {
      var keys := set slot | slot in local && slot.receiver == r;
      ghost var all := keys;
      while keys != {}
        invariant keys <= all
        invariant forall slot :: slot in local <==> slot in old(local) && slot !in all - keys
        invariant forall slot :: slot in local ==> local[slot] == old(local)[slot]
        invariant forall cid :: cid in shared <==>
                    cid in old(shared) && !(old(shared)[cid] == r && Slot(r, cid) in all - keys)
        invariant forall cid :: cid in shared ==> shared[cid] == old(shared)[cid]
        decreases |keys|
      {
        var slot :| slot in keys;
        keys := keys - {slot};
        local := local - {slot};
        if slot.cid in shared && shared[slot.cid] == r {
          shared := shared - {slot.cid};
        }
      }
      assert all - keys == all;
    }
  }

  /** `handle_datagram` run through without interruption. */
  class DatagramLoop {
    var arrived: seq<u16>
    var waiting: map<u16, Buffer>
    var buffers: map<Buffer, seq<Datagram>>
    var workers: map<Buffer, Worker>
    var unused: Buffer
    var queued: map<Receiver, nat>
    var delivered: seq<Delivery>
    var dropped: set<Datagram>
    ghost var place: map<Datagram, Place>

    constructor ()
      ensures Value() == QUIET
    {
      arrived, waiting, buffers, workers, unused := [], map[], map[], map[], 0;
      queued, delivered, dropped, place := map[], [], {}, map[];
    }

    ghost function Value(): Net
      reads this
    {
      Net(arrived, Idle, waiting, buffers, workers, unused, queued, delivered, dropped, place)
    }

    method Discard(d: Datagram)
      modifies this`dropped, this`place
      ensures Value() == Drop(old(Value()), d)
    {
      dropped := dropped + {d};
      place := place[d := Dropped];
    }

    method FeedDatagram(g: Registry, d: Datagram, r: Receiver, closed: bool)
      requires d < |arrived|
      modifies this`queued, this`delivered, this`dropped, this`place
      ensures Value() == Fed(old(Value()), g, d, r, closed)
    {
      var slot := Slot(r, arrived[d]);
      if slot !in g.local {
        Discard(d);
        return;
      }
      var used := if r in queued then queued[r] else 0;
      if closed || used >= UDP_RECEIVE_QUEUE_CAPACITY {
        Discard(d);
        return;
      }
      queued := queued[r := used + 1];
      place := place[d := DeliveredAs(|delivered|)];
      delivered := delivered + [Delivery(d, r, g.local[slot])];
    }

    method GrabBuffer(d: Datagram) returns (b: Buffer, isNew: bool)
      requires d < |arrived|
      modifies this`waiting, this`buffers, this`unused
      ensures Value().(main := Holding(d, b, isNew)) == Grab(old(Value()), d)
    {
      var cid := arrived[d];
      isNew := cid !in waiting;
      if isNew {
        waiting := waiting[cid := unused];
        buffers := buffers[unused := []];
        unused := unused + 1;
      }
      b := waiting[cid];
    }

    method PutDatagram(d: Datagram, b: Buffer, isNew: bool)
      requires d < |arrived|
      modifies this`buffers, this`workers, this`dropped, this`place
      ensures Value() == Put(old(Value()).(main := Holding(d, b, isNew)), d, b, isNew)
    {
      if b !in buffers || |buffers[b]| >= WAITING_DATAGRAM_QUEUE_CAPACITY {
        Discard(d);
        return;
      }
      buffers := buffers[b := buffers[b] + [d]];
      place := place[d := InBuffer(b)];
      if isNew {
        workers := workers[b := Worker(arrived[d], Seeking)];
      }
    }

    method StoreDatagram(d: Datagram)
      requires d < |arrived|
      modifies this`waiting, this`buffers, this`workers, this`unused, this`dropped, this`place
      ensures Value() == Stored(old(Value()), d)
    {
      hide Put, Grab, Drop;
      var cid := arrived[d];
      if cid !in waiting && |waiting| >= MAX_WAITING_DATAGRAM_CONTEXTS {
        Discard(d);
        assert Value() == Idled(Value());
        return;
      }
      var b, isNew := GrabBuffer(d);
      PutDatagram(d, b, isNew);
    }

    /** The whole call is four steps of the interleaved system. */
    method HandleDatagram(g: Registry, cid: u16, closed: bool)
      requires cid !in g.binding
      modifies this
      ensures Value() == Handled(Arrive(old(Value()), cid), g, closed)
    {
      hide MainStep, Send, Grab, Put, Drop;
      var d := |arrived|;
      ghost var n := Arrive(Value(), cid);
      arrived := arrived + [cid];
      place := place[d := AtMain];
      assert Value() == Idled(n);
      if cid in g.shared {
        FedIsHandled(n, g, d, g.shared[cid], closed);
        FeedDatagram(g, d, g.shared[cid], closed);
      } else {
        StoredIsHandled(n, g, d, closed);
        StoreDatagram(d);
      }
    }
  }

  ghost function Handled(n: Net, g: Registry, closed: bool): Net
    requires MainOk(n)
  {
    MainStep(MainStep(MainStep(MainStep(n, g, closed), g, closed), g, closed), g, closed)
  }

  ghost function Fed(n: Net, g: Registry, d: Datagram, r: Receiver, closed: bool): Net
    requires d < |n.arrived|
  {
    var slot := Slot(r, n.arrived[d]);
    if slot in g.local then Send(n, d, r, g.local[slot], closed) else Drop(n, d)
  }

  ghost function Stored(n: Net, d: Datagram): Net
    requires d < |n.arrived|
  {
    if n.arrived[d] !in n.waiting && |n.waiting| >= MAX_WAITING_DATAGRAM_CONTEXTS then Idled(Drop(n, d))
    else var m := Grab(n, d); Put(m, d, m.main.buffer, m.main.isNew)
  }

  lemma FedIsHandled(n: Net, g: Registry, d: Datagram, r: Receiver, closed: bool)
    requires n.main == Arrived(d) && d < |n.arrived| && n.arrived[d] !in g.binding
    requires n.arrived[d] in g.shared && g.shared[n.arrived[d]] == r
    ensures Handled(n, g, closed) == Fed(Idled(n), g, d, r, closed)
  {
    hide MainStep, Send, Drop;
    var n1 := n.(main := Feeding(d, r));
    LookupStep(n, g, d, closed);
    FeedStep(n1, g, d, r, closed);
    var slot := Slot(r, n.arrived[d]);
    if slot in g.local {
      var n2 := n.(main := Sending(d, r, g.local[slot]));
      SendStep(n2, g, d, r, g.local[slot], closed);
      IdleStep(MainStep(n2, g, closed), g, closed);
    } else {
      IdleStep(MainStep(n1, g, closed), g, closed);
    }
  }

  lemma IdleStep(n: Net, g: Registry, closed: bool)
    requires n.main.Idle?
    ensures MainStep(n, g, closed) == n
  {
  }

  lemma LookupStep(n: Net, g: Registry, d: Datagram, closed: bool)
    requires n.main == Arrived(d) && d < |n.arrived| && n.arrived[d] !in g.binding
    ensures MainStep(n, g, closed)
         == n.(main := if n.arrived[d] in g.shared then Feeding(d, g.shared[n.arrived[d]]) else Missed(d))
  {
  }

  lemma FeedStep(n: Net, g: Registry, d: Datagram, r: Receiver, closed: bool)
    requires n.main == Feeding(d, r) && d < |n.arrived|
    ensures Slot(r, n.arrived[d]) !in g.local ==> MainStep(n, g, closed).main.Idle?
    ensures var slot := Slot(r, n.arrived[d]);
            MainStep(n, g, closed)
            == if slot in g.local then n.(main := Sending(d, r, g.local[slot])) else Drop(Idled(n), d)
  {
  }

  lemma SendStep(n: Net, g: Registry, d: Datagram, r: Receiver, target: TargetAddr, closed: bool)
    requires n.main == Sending(d, r, target) && d < |n.arrived|
    ensures MainStep(n, g, closed) == Send(Idled(n), d, r, target, closed) && MainStep(n, g, closed).main.Idle?
  {
  }

  lemma AdmitStep(n: Net, g: Registry, d: Datagram, closed: bool)
    requires n.main == Missed(d) && d < |n.arrived|
    ensures MainStep(n, g, closed)
         == if n.arrived[d] !in n.waiting && |n.waiting| >= MAX_WAITING_DATAGRAM_CONTEXTS then Idled(Drop(Idled(n), d))
            else n.(main := Admitted(d))
  {
  }

  lemma PutStep(n: Net, g: Registry, d: Datagram, closed: bool)
    requires n.main.Holding? && n.main.d == d && d < |n.arrived|
    ensures MainStep(n, g, closed) == Put(n, d, n.main.buffer, n.main.isNew) && MainStep(n, g, closed).main.Idle?
  {
    PutIdles(n, d, n.main.buffer, n.main.isNew);
  }

  lemma GrabStep(n: Net, g: Registry, d: Datagram, closed: bool)
    requires n.main == Admitted(d) && d < |n.arrived|
    ensures MainStep(n, g, closed) == Grab(Idled(n), d)
  {
    GrabAnywhere(n, Idled(n), d);
  }

  lemma StoredIsHandled(n: Net, g: Registry, d: Datagram, closed: bool)
    requires n.main == Arrived(d) && d < |n.arrived| && n.arrived[d] !in g.binding && n.arrived[d] !in g.shared
    ensures Handled(n, g, closed) == Stored(Idled(n), d)
  {
    hide MainStep, Put, Grab, Drop;
    var n1 := n.(main := Missed(d));
    LookupStep(n, g, d, closed);
    AdmitStep(n1, g, d, closed);
    if n.arrived[d] !in n.waiting && |n.waiting| >= MAX_WAITING_DATAGRAM_CONTEXTS {
      var dropped := Idled(Drop(Idled(n), d));
      IdleStep(dropped, g, closed);
    } else {
      var n2 := n.(main := Admitted(d));
      GrabStep(n2, g, d, closed);
      GrabAnywhere(Idled(n), n2, d);
      PutStep(Grab(Idled(n), d), g, d, closed);
    }
  }

  lemma GrabAnywhere(n: Net, n': Net, d: Datagram)
    requires d < |n.arrived| && Idled(n) == Idled(n')
    ensures Grab(n, d) == Grab(n', d)
    ensures Grab(n, d).main.Holding? && Grab(n, d).main.d == d && Grab(n, d).arrived == n.arrived
  {
  }

  lemma PutIdles(n: Net, d: Datagram, b: Buffer, isNew: bool)
    requires d < |n.arrived|
    ensures Put(n, d, b, isNew).main.Idle?
  {
  }
}
