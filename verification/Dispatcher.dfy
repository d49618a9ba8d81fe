/** The interleavings of `dispatcher.rs`: offering threads, the dispatcher loop with its refill, and the
    handlers, as a machine whose steps are the points between which another thread can run. */
module Dispatcher {
  import opened Common

  type Key = nat
  type Thread = nat
  type Task = nat

  /** The dispatcher loop offers refilled events itself, as this thread. */
  const LOOP: Thread := 0

  datatype Config = Config(queueCapacity: nat, workerConcurrency: nat, lowWatermark: nat, refillTarget: nat,
                           refillBatch: nat)

  /** Where an offer is: past the accepting check, between the key insert and `try_send`, or between a
      refused `try_send` and the removal of its key. */
  datatype Offer = Checked(key: Key) | Holding(key: Key) | Refused(key: Key) {
    predicate Holds() { !Checked? }
  }

  datatype Status = Handling | Durable | Returned | Failed
  datatype Work = Work(key: Key, status: Status)

  /** `Serving` is the wait at the select; the refill phases run inside the loop. */
  datatype Phase =
    | Serving
    | Measured(wanted: nat)
    | Loading(excluded: set<Key>, wanted: nat, loaded: seq<Key>)
    | Offering(excluded: set<Key>, rest: seq<Key>)
    | Stopping
    | Draining
    | Ended

  /** `due` is the durable backlog; `finished` are the events a handler of this dispatcher completed
      durably and that did not become due again; `refilled` are the queued keys that refill queued. */
  datatype State = State(
    keys: set<Key>, queue: seq<Key>, running: map<Task, Work>, lost: set<Key>, offers: map<Thread, Offer>,
    phase: Phase, accepting: bool, closed: bool, shutdown: bool,
    due: set<Key>, finished: set<Key>, refilled: set<Key>)

  function Start(due: set<Key>): State {
    State({}, [], map[], {}, map[], Serving, true, false, false, due, {}, {})
  }

  // ---- an offering thread: `offer_pending_with_source` ----

  datatype OfferStep = Checks(key: Key) | Inserts | Sends | Releases

  predicate CanOffer(s: State, t: Thread, step: OfferStep) {
    match step
    case Checks(_) => t != LOOP && t !in s.offers && s.accepting && !s.shutdown
    case Inserts => t in s.offers && s.offers[t].Checked?
    case Sends => t in s.offers && s.offers[t].Holding?
    case Releases => t in s.offers && s.offers[t].Refused?
  }

  function DoOffer(s: State, t: Thread, step: OfferStep, c: Config): State
    requires CanOffer(s, t, step)
  {
    match step
    case Checks(k) => s.(offers := s.offers[t := Checked(k)])
    case Inserts =>
      var k := s.offers[t].key;
      if k in s.keys then s.(offers := s.offers - {t})
      else s.(keys := s.keys + {k}, offers := s.offers[t := Holding(k)])
    case Sends =>
      var k := s.offers[t].key;
      if s.closed || |s.queue| >= c.queueCapacity then s.(offers := s.offers[t := Refused(k)])
      else s.(queue := s.queue + [k], offers := s.offers - {t},
              refilled := if t == LOOP then s.refilled + {k} else s.refilled)
    case Releases => s.(keys := s.keys - {s.offers[t].key}, offers := s.offers - {t})
  }

  // ---- a task: `spawn_work`, the handler, `complete_work` ----

  datatype TaskStep = Spawns | Completes | Returns | Fails | Joins

  /** The loop receives and joins only while it waits, never inside a refill. */
  predicate Waiting(s: State) { s.phase == Serving || s.phase == Draining }

  predicate CanWork(s: State, w: Task, step: TaskStep, c: Config) {
    match step
    case Spawns => Waiting(s) && |s.running| < c.workerConcurrency && s.queue != [] && w !in s.running
    case Completes => w in s.running && s.running[w].status.Handling?
    case Returns => w in s.running && (s.running[w].status.Handling? || s.running[w].status.Durable?)
    case Fails => w in s.running && (s.running[w].status.Handling? || s.running[w].status.Durable?)
    case Joins => Waiting(s) && w in s.running && (s.running[w].status.Returned? || s.running[w].status.Failed?)
  }

  function DoWork(s: State, w: Task, step: TaskStep, c: Config): State
    requires CanWork(s, w, step, c)
  {
    match step
    case Spawns =>
      var k := s.queue[0];
      s.(queue := s.queue[1..], running := s.running[w := Work(k, Handling)], refilled := s.refilled - {k})
    case Completes =>
      var k := s.running[w].key;
      s.(running := s.running[w := Work(k, Durable)], due := s.due - {k}, finished := s.finished + {k})
    case Returns => s.(running := s.running[w := Work(s.running[w].key, Returned)])
    case Fails => s.(running := s.running[w := Work(s.running[w].key, Failed)])
    case Joins =>
      var k := s.running[w].key;
      if s.running[w].status.Returned? then s.(running := s.running - {w}, keys := s.keys - {k})
      else s.(running := s.running - {w}, lost := s.lost + {k})
  }

  // ---- the loop: `refill_once` and the shutdown sequence ----

  datatype LoopStep =
    | Measures | Snapshots | Loads(key: Key) | LoadReturns | LoadFails | Offers | RefillEnds
    | StopsAccepting | ClosesQueue | DrainEnds | DeadlinePasses

  predicate CanLoop(s: State, step: LoopStep, c: Config) {
    match step
    case Measures => s.phase.Serving? && |s.queue| <= c.lowWatermark && |s.queue| < c.refillTarget
    case Snapshots => s.phase.Measured?
    case Loads(k) =>
      && s.phase.Loading? && |s.phase.loaded| < s.phase.wanted
      && k in s.due && k !in s.phase.excluded && k !in s.phase.loaded
    case LoadReturns => s.phase.Loading?
    case LoadFails => s.phase.Loading?
    case Offers => s.phase.Offering? && s.phase.rest != [] && LOOP !in s.offers
    case RefillEnds => s.phase.Offering? && s.phase.rest == [] && LOOP !in s.offers
    case StopsAccepting => s.phase.Serving? && s.shutdown
    case ClosesQueue => s.phase.Stopping?
    case DrainEnds => s.phase.Draining? && s.queue == [] && s.running == map[]
    case DeadlinePasses => s.phase.Draining?
  }

  function DoLoop(s: State, step: LoopStep, c: Config): State
    requires CanLoop(s, step, c)
  {
    match step
    case Measures => s.(phase := Measured(Min(c.refillTarget - |s.queue|, c.refillBatch)))
    case Snapshots => s.(phase := Loading(s.keys, s.phase.wanted, []))
    case Loads(k) => s.(phase := s.phase.(loaded := s.phase.loaded + [k]))
    case LoadReturns => s.(phase := Offering(s.phase.excluded, s.phase.loaded))
    case LoadFails => s.(phase := Serving)
    case Offers =>
      s.(phase := s.phase.(rest := s.phase.rest[1..]),
         offers := if s.accepting && !s.shutdown then s.offers[LOOP := Checked(s.phase.rest[0])] else s.offers)
    case RefillEnds => s.(phase := Serving)
    case StopsAccepting => s.(phase := Stopping, accepting := false)
    case ClosesQueue => s.(phase := Draining, closed := true)
    case DrainEnds => s.(phase := Ended)
    case DeadlinePasses => s.(phase := Ended, running := map[], lost := s.lost + RunningKeys(s.running))
  }

  // ---- everything else ----

  datatype OutsideStep = ShutdownBegins | BecomesDue(key: Key) | IsWithdrawn(key: Key)

  function DoOutside(s: State, step: OutsideStep): State {
    match step
    case ShutdownBegins => s.(shutdown := true)
    case BecomesDue(k) => s.(due := s.due + {k}, finished := s.finished - {k})
    case IsWithdrawn(k) => s.(due := s.due - {k})
  }

  datatype Step =
    | ByOffer(thread: Thread, offer: OfferStep)
    | ByTask(task: Task, work: TaskStep)
    | ByLoop(loop: LoopStep)
    | ByOutside(outside: OutsideStep)

  predicate Enabled(s: State, step: Step, c: Config) {
    match step
    case ByOffer(t, o) => CanOffer(s, t, o)
    case ByTask(w, k) => CanWork(s, w, k, c)
    case ByLoop(l) => CanLoop(s, l, c)
    case ByOutside(_) => true
  }

  function Apply(s: State, step: Step, c: Config): State
    requires Enabled(s, step, c)
  {
    match step
    case ByOffer(t, o) => DoOffer(s, t, o, c)
    case ByTask(w, k) => DoWork(s, w, k, c)
    case ByLoop(l) => DoLoop(s, l, c)
    case ByOutside(o) => DoOutside(s, o)
  }

  // ---- the invariant ----

  function QueuedKeys(queue: seq<Key>): set<Key> { set k | k in queue }

  function RunningKeys(running: map<Task, Work>): set<Key> { set w | w in running :: running[w].key }

  function HeldKeys(offers: map<Thread, Offer>): set<Key> { set t | t in offers && offers[t].Holds() :: offers[t].key }

  ghost predicate NoDuplicates(q: seq<Key>) {
    forall i, j :: 0 <= i < j < |q| ==> q[i] != q[j]
  }

  ghost predicate RunOnce(running: map<Task, Work>) {
    forall v, w :: v in running && w in running && v != w ==> running[v].key != running[w].key
  }

  ghost predicate HeldOnce(offers: map<Thread, Offer>) {
    forall t, u :: t in offers && u in offers && t != u && offers[t].Holds() && offers[u].Holds() ==>
      offers[t].key != offers[u].key
  }

  /** `all` is the disjoint union of the four sets. */
  ghost predicate Partition(all: set<Key>, queued: set<Key>, running: set<Key>, held: set<Key>, lost: set<Key>) {
    && all == queued + running + held + lost
    && queued !! running && queued !! held && queued !! lost
    && running !! held && running !! lost && held !! lost
  }

  /** The scheduled keys are the disjoint union of those queued, running, held by an offer, and lost. */
  ghost predicate Scheduled(s: State) {
    && NoDuplicates(s.queue) && RunOnce(s.running) && HeldOnce(s.offers)
    && Partition(s.keys, QueuedKeys(s.queue), RunningKeys(s.running), HeldKeys(s.offers), s.lost)
  }

  ghost predicate Bounded(s: State, c: Config) {
    |s.queue| <= c.queueCapacity && |s.running| <= c.workerConcurrency
  }

  /** What a refill in this phase has loaded and not offered yet. */
  function Loaded(phase: Phase): set<Key> {
    match phase
    case Loading(_, _, loaded) => set k | k in loaded
    case Offering(_, rest) => set k | k in rest
    case _ => {}
  }

  function LoopOffer(offers: map<Thread, Offer>): set<Key> {
    if LOOP in offers then {offers[LOOP].key} else {}
  }

  predicate Refilling(phase: Phase) { phase.Loading? || phase.Offering? }

  /** While refill is under way nothing runs but what was scheduled at its snapshot, and nothing it is
      about to queue was; so no handler can finish what it is about to queue. */
  ghost predicate RefillIsFresh(s: State) {
    var candidates := Loaded(s.phase) + LoopOffer(s.offers);
    && s.due !! s.finished
    && (Refilling(s.phase) ==> RunningKeys(s.running) <= s.phase.excluded && candidates !! s.phase.excluded)
    && (LOOP in s.offers ==> s.phase.Offering?)
    && candidates !! s.finished
    && s.refilled <= QueuedKeys(s.queue) && s.refilled !! s.finished
  }

  /** What refill loaded has no duplicates. */
  ghost predicate LoadedOnce(phase: Phase) {
    match phase
    case Loading(_, wanted, loaded) => NoDuplicates(loaded) && |loaded| <= wanted
    case Offering(_, rest) => NoDuplicates(rest)
    case _ => true
  }

  ghost predicate Inv(s: State, c: Config) {
    Scheduled(s) && Bounded(s, c) && RefillIsFresh(s) && LoadedOnce(s.phase)
  }

  lemma StartIsSound(due: set<Key>, c: Config)
    ensures Inv(Start(due), c)
  {
  }

  // How the four sets follow the collections they are read from.

  lemma SetOffer(offers: map<Thread, Offer>, t: Thread, o: Offer)
    requires HeldOnce(offers) && (t in offers ==> offers[t].key == o.key)
    requires o.Holds() && (t !in offers || !offers[t].Holds()) ==> o.key !in HeldKeys(offers)
    requires t in offers && offers[t].Holds() ==> o.Holds()
    ensures HeldOnce(offers[t := o])
    ensures HeldKeys(offers[t := o]) == HeldKeys(offers) + if o.Holds() then {o.key} else {}
  {
    var after := offers[t := o];
    forall u | u in offers && offers[u].Holds() ensures offers[u].key in HeldKeys(offers) {}
    forall k ensures k in HeldKeys(after) <==> k in HeldKeys(offers) + if o.Holds() then {o.key} else {} {
      if k in HeldKeys(offers) {
        var u :| u in offers && offers[u].Holds() && offers[u].key == k;
        assert u in after && after[u].Holds() && after[u].key == k;
      }
      if o.Holds() && k == o.key { assert after[t].key == k; }
    }
  }

  lemma DropOffer(offers: map<Thread, Offer>, t: Thread)
    requires HeldOnce(offers) && t in offers
    ensures HeldOnce(offers - {t})
    ensures HeldKeys(offers - {t}) == HeldKeys(offers) - if offers[t].Holds() then {offers[t].key} else {}
    ensures offers[t].Holds() ==> offers[t].key in HeldKeys(offers)
  {
    var after := offers - {t};
    forall k | k in HeldKeys(offers) && (offers[t].Holds() ==> k != offers[t].key) ensures k in HeldKeys(after) {
      var u :| u in offers && offers[u].Holds() && offers[u].key == k;
      assert u in after;
    }
  }

  lemma SetTask(running: map<Task, Work>, w: Task, x: Work)
    requires RunOnce(running)
    requires if w in running then running[w].key == x.key else x.key !in RunningKeys(running)
    ensures RunOnce(running[w := x])
    ensures RunningKeys(running[w := x]) == RunningKeys(running) + {x.key}
    ensures w in running ==> x.key in RunningKeys(running)
  {
    var after := running[w := x];
    forall v | v in running ensures running[v].key in RunningKeys(running) {}
    assert after[w].key in RunningKeys(after);
    forall k | k in RunningKeys(running) ensures k in RunningKeys(after) {
      var v :| v in running && running[v].key == k;
      assert after[v].key == k;
    }
  }

  lemma DropTask(running: map<Task, Work>, w: Task)
    requires RunOnce(running) && w in running
    ensures RunOnce(running - {w}) && running[w].key in RunningKeys(running)
    ensures RunningKeys(running - {w}) == RunningKeys(running) - {running[w].key}
  {
    var after := running - {w};
    forall k | k in RunningKeys(running) && k != running[w].key ensures k in RunningKeys(after) {
      var v :| v in running && running[v].key == k;
      assert v in after;
    }
  }

  lemma Enqueue(queue: seq<Key>, k: Key)
    requires NoDuplicates(queue) && k !in QueuedKeys(queue)
    ensures NoDuplicates(queue + [k]) && QueuedKeys(queue + [k]) == QueuedKeys(queue) + {k}
  {
  }

  lemma Dequeue(queue: seq<Key>)
    requires NoDuplicates(queue) && queue != []
    ensures NoDuplicates(queue[1..]) && queue[0] in QueuedKeys(queue)
    ensures QueuedKeys(queue[1..]) == QueuedKeys(queue) - {queue[0]}
  {
    assert queue == [queue[0]] + queue[1..];
  }

  lemma HoldKey(all: set<Key>, q: set<Key>, r: set<Key>, h: set<Key>, l: set<Key>, k: Key)
    requires Partition(all, q, r, h, l) && k !in all
    ensures k !in h && Partition(all + {k}, q, r, h + {k}, l)
  {
  }

  lemma PassKey(all: set<Key>, q: set<Key>, r: set<Key>, h: set<Key>, l: set<Key>, k: Key)
    requires Partition(all, q, r, h, l) && k in h
    ensures k !in q && Partition(all, q + {k}, r, h - {k}, l) && Partition(all - {k}, q, r, h - {k}, l)
  {
  }

  lemma RunKey(all: set<Key>, q: set<Key>, r: set<Key>, h: set<Key>, l: set<Key>, k: Key)
    requires Partition(all, q, r, h, l) && k in q
    ensures k !in r && Partition(all, q - {k}, r + {k}, h, l)
  {
  }

  lemma EndKey(all: set<Key>, q: set<Key>, r: set<Key>, h: set<Key>, l: set<Key>, k: Key)
    requires Partition(all, q, r, h, l) && k in r
    ensures Partition(all - {k}, q, r - {k}, h, l) && Partition(all, q, r - {k}, h, l + {k})
  {
  }

  lemma LoseAll(all: set<Key>, q: set<Key>, r: set<Key>, h: set<Key>, l: set<Key>)
    requires Partition(all, q, r, h, l)
    ensures Partition(all, q, {}, h, l + r)
  {
  }

  lemma OfferSchedules(s: State, t: Thread, step: OfferStep, c: Config)
    requires Scheduled(s) && CanOffer(s, t, step)
    ensures Scheduled(DoOffer(s, t, step, c))
  {
    hide HeldKeys, RunningKeys, QueuedKeys, HeldOnce, RunOnce, NoDuplicates, Partition;
    var q, r, h := QueuedKeys(s.queue), RunningKeys(s.running), HeldKeys(s.offers);
    match step
    case Checks(k) =>
      SetOffer(s.offers, t, Checked(k));
      assert h + {} == h;
    case Inserts =>
      if s.offers[t].key in s.keys {
        DropOffer(s.offers, t);
        assert h - {} == h;
      } else {
        HoldKey(s.keys, q, r, h, s.lost, s.offers[t].key);
        SetOffer(s.offers, t, Holding(s.offers[t].key));
      }
    case Sends =>
      DropOffer(s.offers, t);
      PassKey(s.keys, q, r, h, s.lost, s.offers[t].key);
      if s.closed || |s.queue| >= c.queueCapacity {
        SetOffer(s.offers, t, Refused(s.offers[t].key));
        assert h + {s.offers[t].key} == h;
      } else {
        Enqueue(s.queue, s.offers[t].key);
      }
    case Releases =>
      DropOffer(s.offers, t);
      PassKey(s.keys, q, r, h, s.lost, s.offers[t].key);
  }

  lemma OfferKeepsFresh(s: State, t: Thread, step: OfferStep, c: Config)
    requires Scheduled(s) && RefillIsFresh(s) && CanOffer(s, t, step)
    ensures RefillIsFresh(DoOffer(s, t, step, c))
  {
    hide Scheduled, Loaded, RunningKeys;
    if step.Sends? && !(s.closed || |s.queue| >= c.queueCapacity) {
      var k := s.offers[t].key;
      assert QueuedKeys(s.queue + [k]) == QueuedKeys(s.queue) + {k};
    }
  }

  lemma SpawnSchedules(s: State, w: Task, c: Config)
    requires Scheduled(s) && CanWork(s, w, Spawns, c)
    ensures Scheduled(DoWork(s, w, Spawns, c))
  {
    hide HeldKeys, RunningKeys, QueuedKeys, HeldOnce, RunOnce, NoDuplicates, Partition;
    Dequeue(s.queue);
    RunKey(s.keys, QueuedKeys(s.queue), RunningKeys(s.running), HeldKeys(s.offers), s.lost, s.queue[0]);
    SetTask(s.running, w, Work(s.queue[0], Handling));
  }

  lemma JoinSchedules(s: State, w: Task, c: Config)
    requires Scheduled(s) && CanWork(s, w, Joins, c)
    ensures Scheduled(DoWork(s, w, Joins, c))
  {
    hide HeldKeys, RunningKeys, QueuedKeys, HeldOnce, RunOnce, NoDuplicates, Partition;
    DropTask(s.running, w);
    EndKey(s.keys, QueuedKeys(s.queue), RunningKeys(s.running), HeldKeys(s.offers), s.lost, s.running[w].key);
  }

  /** A task that returned releases its key, whether it completed its event or not; one that failed keeps it. */
  lemma JoinReleases(s: State, w: Task, c: Config)
    requires Scheduled(s) && CanWork(s, w, Joins, c)
    ensures
      var u, k := DoWork(s, w, Joins, c), s.running[w].key;
      && w !in u.running && k !in RunningKeys(u.running)
      && (if s.running[w].status.Returned? then k !in u.keys && u.lost == s.lost else k in u.keys && k in u.lost)
      && u.keys - {k} == s.keys - {k} && u.queue == s.queue && u.offers == s.offers
  {
    DropTask(s.running, w);
    hide HeldKeys, QueuedKeys, HeldOnce, RunOnce, NoDuplicates, RunningKeys;
  }

  lemma TaskSchedules(s: State, w: Task, step: TaskStep, c: Config)
    requires Scheduled(s) && CanWork(s, w, step, c)
    ensures Scheduled(DoWork(s, w, step, c))
  {
    hide HeldKeys, RunningKeys, QueuedKeys, HeldOnce, RunOnce, NoDuplicates, Partition;
    match step
    case Spawns => SpawnSchedules(s, w, c);
    case Joins => JoinSchedules(s, w, c);
    case _ => UpdateTask(s.running, w, DoWork(s, w, step, c).running[w].status);
  }

  lemma UpdateTask(running: map<Task, Work>, w: Task, status: Status)
    requires RunOnce(running) && w in running
    ensures RunOnce(running[w := Work(running[w].key, status)])
    ensures RunningKeys(running[w := Work(running[w].key, status)]) == RunningKeys(running)
    ensures running[w].key in RunningKeys(running)
  {
    SetTask(running, w, Work(running[w].key, status));
  }

  lemma TaskKeepsFresh(s: State, w: Task, step: TaskStep, c: Config)
    requires Scheduled(s) && RefillIsFresh(s) && CanWork(s, w, step, c)
    ensures RefillIsFresh(DoWork(s, w, step, c))
  {
    hide RunningKeys, HeldKeys, HeldOnce, QueuedKeys, NoDuplicates, RunOnce;
    match step
    case Spawns => Dequeue(s.queue);
    case Joins => DropTask(s.running, w);
    case _ => UpdateTask(s.running, w, DoWork(s, w, step, c).running[w].status);
  }

  lemma TaskCount(running: map<Task, Work>, w: Task, x: Work)
    ensures |running[w := x]| == |running| + if w in running then 0 else 1
    ensures |running - {w}| <= |running|
  {
    var more, less := running[w := x], running - {w};
    if w in running {
      assert more.Keys == running.Keys && less.Keys == running.Keys - {w};
    } else {
      assert more.Keys == running.Keys + {w} && less.Keys == running.Keys;
    }
  }

  lemma TaskIsBounded(s: State, w: Task, step: TaskStep, c: Config)
    requires Bounded(s, c) && CanWork(s, w, step, c)
    ensures Bounded(DoWork(s, w, step, c), c) && DoWork(s, w, step, c).phase == s.phase
  {
    match step
    case Spawns => TaskCount(s.running, w, Work(s.queue[0], Handling));
    case Completes => TaskCount(s.running, w, Work(s.running[w].key, Durable));
    case Returns => TaskCount(s.running, w, Work(s.running[w].key, Returned));
    case Fails => TaskCount(s.running, w, Work(s.running[w].key, Failed));
    case Joins => TaskCount(s.running, w, s.running[w]);
  }

  lemma OfferIsBounded(s: State, t: Thread, step: OfferStep, c: Config)
    requires Bounded(s, c) && CanOffer(s, t, step)
    ensures Bounded(DoOffer(s, t, step, c), c) && DoOffer(s, t, step, c).phase == s.phase
  {
  }

  lemma LoopIsBounded(s: State, step: LoopStep, c: Config)
    requires Bounded(s, c) && LoadedOnce(s.phase) && CanLoop(s, step, c)
    ensures Bounded(DoLoop(s, step, c), c) && LoadedOnce(DoLoop(s, step, c).phase)
  {
    hide RunningKeys;
  }

  lemma LoopSchedules(s: State, step: LoopStep, c: Config)
    requires Scheduled(s) && CanLoop(s, step, c)
    ensures Scheduled(DoLoop(s, step, c))
  {
    hide HeldKeys, QueuedKeys, HeldOnce, NoDuplicates, Partition;
    var q, r, h := QueuedKeys(s.queue), RunningKeys(s.running), HeldKeys(s.offers);
    if step.Offers? {
      SetOffer(s.offers, LOOP, Checked(s.phase.rest[0]));
      assert h + {} == h;
    } else if step.DeadlinePasses? {
      LoseAll(s.keys, q, r, h, s.lost);
      assert RunningKeys(map[]) == {};
    }
  }

  lemma LoopKeepsFresh(s: State, step: LoopStep, c: Config)
    requires Scheduled(s) && RefillIsFresh(s) && CanLoop(s, step, c)
    ensures RefillIsFresh(DoLoop(s, step, c))
  {
    hide RunOnce, HeldOnce, HeldKeys, NoDuplicates;
    if step.Offers? {
      assert s.phase.rest == [s.phase.rest[0]] + s.phase.rest[1..];
    }
  }

  /** Every step of every thread keeps the invariant. */
  lemma StepIsSound(s: State, step: Step, c: Config)
    requires Inv(s, c) && Enabled(s, step, c)
    ensures Inv(Apply(s, step, c), c)
  {
    hide Scheduled, RefillIsFresh, DoOffer, DoWork, DoLoop;
    match step
    case ByOffer(t, o) =>
      OfferSchedules(s, t, o, c);
      OfferKeepsFresh(s, t, o, c);
      OfferIsBounded(s, t, o, c);
    case ByTask(w, k) =>
      TaskSchedules(s, w, k, c);
      TaskKeepsFresh(s, w, k, c);
      TaskIsBounded(s, w, k, c);
    case ByLoop(l) =>
      LoopSchedules(s, l, c);
      LoopKeepsFresh(s, l, c);
      LoopIsBounded(s, l, c);
    case ByOutside(o) =>
      OutsideKeeps(s, o);
  }

  lemma OutsideKeeps(s: State, step: OutsideStep)
    requires Scheduled(s) && RefillIsFresh(s)
    ensures Scheduled(DoOutside(s, step)) && RefillIsFresh(DoOutside(s, step))
  {
  }

  // ---- runs ----

  predicate Legal(s: State, steps: seq<Step>, c: Config)
    decreases |steps|
  {
    steps == [] || (Enabled(s, steps[0], c) && Legal(Apply(s, steps[0], c), steps[1..], c))
  }

  function Execute(s: State, steps: seq<Step>, c: Config): State
    requires Legal(s, steps, c)
    decreases |steps|
  {
    if steps == [] then s else Execute(Apply(s, steps[0], c), steps[1..], c)
  }

  lemma {:induction false} RunIsSound(s: State, steps: seq<Step>, c: Config)
    requires Inv(s, c) && Legal(s, steps, c)
    ensures Inv(Execute(s, steps, c), c)
    decreases |steps|
  {
    hide Inv, Enabled, Apply;
    if steps != [] {
      StepIsSound(s, steps[0], c);
      RunIsSound(Apply(s, steps[0], c), steps[1..], c);
    }
  }

  lemma ReachableIsSound(due: set<Key>, steps: seq<Step>, c: Config)
    requires Legal(Start(due), steps, c)
    ensures Inv(Execute(Start(due), steps, c), c)
  {
    StartIsSound(due, c);
    RunIsSound(Start(due), steps, c);
  }

  lemma {:induction false} QueueSize(queue: seq<Key>)
    requires NoDuplicates(queue)
    ensures |QueuedKeys(queue)| == |queue|
  {
    if queue == [] {
      assert QueuedKeys(queue) == {};
    } else {
      Dequeue(queue);
      QueueSize(queue[1..]);
    }
  }

  lemma {:induction false} RunningSize(running: map<Task, Work>)
    requires RunOnce(running)
    ensures |RunningKeys(running)| == |running|
    decreases |running|
  {
    if running == map[] {
      assert RunningKeys(running) == {};
    } else {
      var w :| w in running;
      assert running.Keys == (running - {w}).Keys + {w};
      DropTask(running, w);
      RunningSize(running - {w});
    }
  }

  lemma {:induction false} HeldSize(offers: map<Thread, Offer>)
    requires HeldOnce(offers)
    ensures |HeldKeys(offers)| <= |offers|
    decreases |offers|
  {
    if offers == map[] {
      assert HeldKeys(offers) == {};
    } else {
      var t :| t in offers;
      assert offers.Keys == (offers - {t}).Keys + {t};
      DropOffer(offers, t);
      HeldSize(offers - {t});
    }
  }

  /** In every reachable state no key is queued or run twice, and the scheduled-key set is exactly as
      large as what holds its keys. */
  lemma ScheduledKeysAreBounded(due: set<Key>, steps: seq<Step>, c: Config)
    requires Legal(Start(due), steps, c)
    ensures
      var s := Execute(Start(due), steps, c);
      && NoDuplicates(s.queue) && RunOnce(s.running) && QueuedKeys(s.queue) !! RunningKeys(s.running)
      && |s.keys| == |s.queue| + |s.running| + |HeldKeys(s.offers)| + |s.lost|
      && |s.keys| <= c.queueCapacity + c.workerConcurrency + |s.offers| + |s.lost|
  {
    ReachableIsSound(due, steps, c);
    var s := Execute(Start(due), steps, c);
    hide Execute, RefillIsFresh, Legal, HeldKeys, RunningKeys, QueuedKeys;
    QueueSize(s.queue);
    RunningSize(s.running);
    HeldSize(s.offers);
  }

  /** Refill never queues an event that a handler of this dispatcher completed, and such an event is not
      completed either while it waits in the queue: when it starts, its completion is still to come. */
  lemma RefillNeverQueuesFinishedWork(due: set<Key>, steps: seq<Step>, c: Config)
    requires Legal(Start(due), steps, c)
    ensures
      var s := Execute(Start(due), steps, c);
      && (CanOffer(s, LOOP, Sends) ==> s.offers[LOOP].key !in s.finished)
      && (forall k :: k in s.refilled ==> k in s.queue && k !in s.finished)
  {
    ReachableIsSound(due, steps, c);
    hide Execute, Legal;
  }

  lemma {:induction false} LostStaysLost(s: State, steps: seq<Step>, c: Config, k: Key)
    requires Inv(s, c) && Legal(s, steps, c) && k in s.lost
    ensures
      var t := Execute(s, steps, c);
      k in t.lost && k in t.keys && k !in t.queue && k !in RunningKeys(t.running)
    decreases |steps|
  {
    if steps != [] {
      StepIsSound(s, steps[0], c);
      StepKeepsLost(s, steps[0], c, k);
      hide Inv, Enabled, Apply;
      LostStaysLost(Apply(s, steps[0], c), steps[1..], c, k);
    }
  }

  lemma StepKeepsLost(s: State, step: Step, c: Config, k: Key)
    requires Enabled(s, step, c) && k in s.lost
    ensures k in Apply(s, step, c).lost
  {
    hide RunningKeys;
    match step
    case ByOffer(t, o) => assert DoOffer(s, t, o, c).lost == s.lost;
    case ByTask(w, o) => assert s.lost <= DoWork(s, w, o, c).lost;
    case ByLoop(o) => assert s.lost <= DoLoop(s, o, c).lost;
    case ByOutside(o) => assert DoOutside(s, o).lost == s.lost;
  }

  lemma {:induction false} OneMore(s: State, steps: seq<Step>, step: Step, c: Config)
    requires Legal(s, steps, c) && Enabled(Execute(s, steps, c), step, c)
    ensures Legal(s, steps + [step], c) && Execute(s, steps + [step], c) == Apply(Execute(s, steps, c), step, c)
    decreases |steps|
  {
    hide Enabled, Apply;
    var longer := steps + [step];
    if steps == [] {
      assert longer[1..] == [];
    } else {
      assert longer[1..] == steps[1..] + [step] && longer[0] == steps[0];
      OneMore(Apply(s, steps[0], c), steps[1..], step, c);
    }
  }

  ghost predicate Reachable(start: State, s: State, c: Config) {
    exists steps :: Legal(start, steps, c) && Execute(start, steps, c) == s
  }

  lemma ReachOne(start: State, s: State, step: Step, c: Config)
    requires Reachable(start, s, c) && Enabled(s, step, c)
    ensures Reachable(start, Apply(s, step, c), c)
  {
    hide Enabled, Apply, Legal, Execute;
    var steps :| Legal(start, steps, c) && Execute(start, steps, c) == s;
    OneMore(start, steps, step, c);
  }

  /** The fresh hand-off has no such guarantee: thread 5 passes its check with event 1, refill loads, runs
      and completes event 1 meanwhile, and the offer then queues it again. */
  lemma FreshOfferMayQueueFinishedWork(c: Config)
    requires c.queueCapacity >= 1 && c.workerConcurrency >= 1 && c.refillTarget >= 1 && c.refillBatch >= 1
    ensures exists s :: Reachable(Start({1}), s, c) && s.queue == [1] && 1 in s.finished
  {
    var s0 := Start({1});
    assert Reachable(s0, s0, c) by { assert Legal(s0, [], c); }
    hide Reachable;
    var s1 := RefillOneEvent(s0, c);
    var s2 := FinishOneEvent(s0, s1, c);
    ReachOne(s0, s2, ByOffer(5, Inserts), c);
    var s3 := Apply(s2, ByOffer(5, Inserts), c);
    ReachOne(s0, s3, ByOffer(5, Sends), c);
    var s4 := Apply(s3, ByOffer(5, Sends), c);
    assert s4.queue == [1];
  }

  lemma FinishOneEvent(s0: State, s1: State, c: Config) returns (s: State)
    requires c.workerConcurrency >= 1 && Reachable(s0, s1, c)
    requires s1.queue == [1] && s1.keys == {1} && s1.running == map[] && s1.phase.Serving?
    ensures Reachable(s0, s, c) && s.queue == [] && s.keys == {} && 1 in s.finished && s.offers == s1.offers
    ensures s.closed == s1.closed
  {
    hide Reachable;
    s := s1;
    ReachOne(s0, s, ByTask(0, Spawns), c);
    s := Apply(s, ByTask(0, Spawns), c);
    ReachOne(s0, s, ByTask(0, Completes), c);
    s := Apply(s, ByTask(0, Completes), c);
    ReachOne(s0, s, ByTask(0, Returns), c);
    s := Apply(s, ByTask(0, Returns), c);
    ReachOne(s0, s, ByTask(0, Joins), c);
    s := Apply(s, ByTask(0, Joins), c);
  }

  lemma RefillOneEvent(s0: State, c: Config) returns (s: State)
    requires c.queueCapacity >= 1 && c.refillTarget >= 1 && c.refillBatch >= 1
    requires s0 == Start({1}) && Reachable(s0, s0, c)
    ensures Reachable(s0, s, c) && s.queue == [1] && s.keys == {1} && s.offers == map[5 := Checked(1)]
    ensures s.running == map[]
    ensures s.phase.Serving? && !s.closed && 1 !in s.finished
  {
    hide Reachable;
    s := s0;
    ReachOne(s0, s, ByOffer(5, Checks(1)), c);
    s := Apply(s, ByOffer(5, Checks(1)), c);
    ReachOne(s0, s, ByLoop(Measures), c);
    s := Apply(s, ByLoop(Measures), c);
    ReachOne(s0, s, ByLoop(Snapshots), c);
    s := Apply(s, ByLoop(Snapshots), c);
    ReachOne(s0, s, ByLoop(Loads(1)), c);
    s := Apply(s, ByLoop(Loads(1)), c);
    ReachOne(s0, s, ByLoop(LoadReturns), c);
    s := Apply(s, ByLoop(LoadReturns), c);
    ReachOne(s0, s, ByLoop(Offers), c);
    s := Apply(s, ByLoop(Offers), c);
    ReachOne(s0, s, ByOffer(LOOP, Inserts), c);
    s := Apply(s, ByOffer(LOOP, Inserts), c);
    ReachOne(s0, s, ByOffer(LOOP, Sends), c);
    s := Apply(s, ByOffer(LOOP, Sends), c);
    ReachOne(s0, s, ByLoop(RefillEnds), c);
    s := Apply(s, ByLoop(RefillEnds), c);
  }

  // ---- when an offer queues completed work, exactly ----

  /** An offer holds the key, or it is queued. */
  predicate Underway(s: State, k: Key) { k in HeldKeys(s.offers) || k in s.queue }

  /** `k` is held or queued all the way. */
  predicate StaysUnderway(s: State, steps: seq<Step>, c: Config, k: Key)
    requires Legal(s, steps, c)
    decreases |steps|
  {
    Underway(s, k) && (steps == [] || StaysUnderway(Apply(s, steps[0], c), steps[1..], c, k))
  }

  /** No handler completes a key that is held or queued, since it does not run; only its becoming due matters. */
  lemma StepKeepsFinished(s: State, step: Step, c: Config, k: Key)
    requires Inv(s, c) && Enabled(s, step, c) && Underway(s, k)
    ensures k in Apply(s, step, c).finished <==> k in s.finished && step != ByOutside(BecomesDue(k))
  {
    hide Inv, RunningKeys, Underway, DoOffer, DoWork, DoLoop, CanOffer, CanWork, CanLoop;
    UnderwayDoesNotRun(s, c, k);
    match step
    case ByOffer(t, o) => OfferFinishesNothing(s, t, o, c);
    case ByTask(w, o) => TaskFinishesItsKey(s, w, o, c);
    case ByLoop(o) => LoopFinishesNothing(s, o, c);
    case ByOutside(o) =>
  }

  lemma OfferFinishesNothing(s: State, t: Thread, step: OfferStep, c: Config)
    requires CanOffer(s, t, step)
    ensures DoOffer(s, t, step, c).finished == s.finished
  {
  }

  lemma LoopFinishesNothing(s: State, step: LoopStep, c: Config)
    requires CanLoop(s, step, c)
    ensures DoLoop(s, step, c).finished == s.finished
  {
    hide RunningKeys;
  }

  lemma TaskFinishesItsKey(s: State, w: Task, step: TaskStep, c: Config)
    requires CanWork(s, w, step, c)
    ensures forall k :: k !in RunningKeys(s.running) ==> (k in DoWork(s, w, step, c).finished <==> k in s.finished)
  {
    if step.Completes? { RunsItsKey(s.running, w); }
    hide RunningKeys;
  }

  lemma UnderwayDoesNotRun(s: State, c: Config, k: Key)
    requires Inv(s, c) && Underway(s, k)
    ensures k !in RunningKeys(s.running)
  {
    assert k in s.queue ==> k in QueuedKeys(s.queue);
    hide HeldKeys, QueuedKeys, RunningKeys, HeldOnce, RunOnce, NoDuplicates, RefillIsFresh;
  }

  lemma RunsItsKey(running: map<Task, Work>, w: Task)
    requires w in running
    ensures running[w].key in RunningKeys(running)
  {
  }

  /** What waits in the queue is completed if and only if it was completed when its offer took the key, and did not
      become due since. */
  lemma {:induction false} QueuedFinishedExactlyIfInserted(s: State, steps: seq<Step>, c: Config, k: Key)
    requires Inv(s, c) && Legal(s, steps, c) && StaysUnderway(s, steps, c, k)
    ensures k in Execute(s, steps, c).finished <==> k in s.finished && ByOutside(BecomesDue(k)) !in steps
    decreases |steps|
  {
    if steps != [] {
      StepIsSound(s, steps[0], c);
      StepKeepsFinished(s, steps[0], c, k);
      hide Inv, Enabled, Apply, Underway;
      assert steps == [steps[0]] + steps[1..];
      QueuedFinishedExactlyIfInserted(Apply(s, steps[0], c), steps[1..], c, k);
    }
  }

  /** An event still due when its offer takes the key is queued, and leaves the queue, unfinished. */
  lemma DueAtInsertIsQueuedUnfinished(s: State, t: Thread, steps: seq<Step>, c: Config)
    requires Inv(s, c) && CanOffer(s, t, Inserts) && s.offers[t].key !in s.keys && s.offers[t].key in s.due
    requires
      var inserted := DoOffer(s, t, Inserts, c);
      Legal(inserted, steps, c) && StaysUnderway(inserted, steps, c, s.offers[t].key)
    ensures s.offers[t].key !in Execute(DoOffer(s, t, Inserts, c), steps, c).finished
  {
    StepIsSound(s, ByOffer(t, Inserts), c);
    assert s.offers[t].key !in s.finished;
    hide Inv, Legal, Execute, StaysUnderway;
    QueuedFinishedExactlyIfInserted(DoOffer(s, t, Inserts, c), steps, c, s.offers[t].key);
  }

  // ---- what a refill does with what it loaded ----

  predicate Accepts(s: State) { s.accepting && !s.shutdown }

  /** The key the loop began to offer in this step. */
  function OfferedNow(s: State, step: Step, c: Config): seq<Key>
    requires Enabled(s, step, c)
  {
    var u := Apply(s, step, c);
    if step == ByLoop(Offers) && LOOP in u.offers then [u.offers[LOOP].key] else []
  }

  function Offered(s: State, steps: seq<Step>, c: Config): seq<Key>
    requires Legal(s, steps, c)
    decreases |steps|
  {
    if steps == [] then [] else OfferedNow(s, steps[0], c) + Offered(Apply(s, steps[0], c), steps[1..], c)
  }

  lemma StepOffers(s: State, step: Step, c: Config)
    requires s.phase.Offering? && Enabled(s, step, c) && step != ByLoop(RefillEnds)
    ensures Apply(s, step, c).phase.Offering?
    ensures OfferedNow(s, step, c) + Apply(s, step, c).phase.rest == s.phase.rest || !Accepts(s)
    ensures !Accepts(s) ==> OfferedNow(s, step, c) == [] && !Accepts(Apply(s, step, c))
  {
    hide RunningKeys;
    match step
    case ByOffer(t, o) => assert DoOffer(s, t, o, c).phase == s.phase && Accepts(DoOffer(s, t, o, c)) == Accepts(s);
    case ByTask(w, o) => assert DoWork(s, w, o, c).phase == s.phase && Accepts(DoWork(s, w, o, c)) == Accepts(s);
    case ByLoop(o) => assert o.Offers?;
    case ByOutside(o) =>
  }

  /** Whatever the other threads do: the loop offers what it loaded, each key once and in order, and stops early only
      if the dispatcher stops accepting. */
  lemma {:induction false} OffersFollow(s: State, steps: seq<Step>, c: Config)
    requires s.phase.Offering? && Legal(s, steps, c) && ByLoop(RefillEnds) !in steps
    ensures
      var t := Execute(s, steps, c);
      && t.phase.Offering? && Offered(s, steps, c) <= s.phase.rest
      && (Accepts(t) ==> Offered(s, steps, c) + t.phase.rest == s.phase.rest)
      && (!Accepts(s) ==> Offered(s, steps, c) == [] && !Accepts(t))
    decreases |steps|
  {
    if steps != [] {
      StepOffers(s, steps[0], c);
      hide Apply, Enabled, OfferedNow, Accepts;
      assert steps == [steps[0]] + steps[1..];
      var u := Apply(s, steps[0], c);
      OffersFollow(u, steps[1..], c);
      if Accepts(s) {
        var t := Execute(u, steps[1..], c);
        Glue(OfferedNow(s, steps[0], c), Offered(u, steps[1..], c), t.phase.rest, u.phase.rest, s.phase.rest);
      }
    }
  }

  lemma Glue(a: seq<Key>, b: seq<Key>, left: seq<Key>, rest: seq<Key>, all: seq<Key>)
    requires a + rest == all && b <= rest
    ensures a + b <= all && (b + left == rest ==> (a + b) + left == all)
  {
    assert a + b == all[..|a + b|];
    assert (a + b) + left == a + (b + left);
  }

  /** From the load to the end of the refill. */
  lemma RefillOffersEverything(s: State, steps: seq<Step>, c: Config)
    requires CanLoop(s, LoadReturns, c)
    requires
      var loaded := DoLoop(s, LoadReturns, c);
      && Legal(loaded, steps, c) && ByLoop(RefillEnds) !in steps
      && CanLoop(Execute(loaded, steps, c), RefillEnds, c) && Accepts(Execute(loaded, steps, c))
    ensures Offered(DoLoop(s, LoadReturns, c), steps, c) == s.phase.loaded
  {
    OffersFollow(DoLoop(s, LoadReturns, c), steps, c);
  }

  // ---- the undisturbed refill ----

  /** Queue and keys after the loop alone offered `ks`: what is scheduled is passed over, what does not fit is refused
      and released. */
  function Settle(queue: seq<Key>, keys: set<Key>, ks: seq<Key>, capacity: nat): (seq<Key>, set<Key>)
    decreases |ks|
  {
    if ks == [] then (queue, keys)
    else if ks[0] in keys || |queue| >= capacity then Settle(queue, keys, ks[1..], capacity)
    else Settle(queue + [ks[0]], keys + {ks[0]}, ks[1..], capacity)
  }

  /** What is still to come of an undisturbed refill. */
  function Outcome(s: State, c: Config): (seq<Key>, set<Key>)
    requires s.phase.Offering?
  {
    if LOOP !in s.offers then Settle(s.queue, s.keys, s.phase.rest, c.queueCapacity)
    else
      match s.offers[LOOP]
      case Checked(k) => Settle(s.queue, s.keys, [k] + s.phase.rest, c.queueCapacity)
      case Holding(k) =>
        if |s.queue| < c.queueCapacity then Settle(s.queue + [k], s.keys, s.phase.rest, c.queueCapacity)
        else Settle(s.queue, s.keys - {k}, s.phase.rest, c.queueCapacity)
      case Refused(k) => Settle(s.queue, s.keys - {k}, s.phase.rest, c.queueCapacity)
  }

  /** The loop's own steps. */
  predicate IsOwn(step: Step) { step.ByLoop? || (step.ByOffer? && step.thread == LOOP) }

  lemma OwnOfferKeepsOutcome(s: State, o: OfferStep, c: Config)
    requires s.phase.Offering? && !s.closed && CanOffer(s, LOOP, o)
    requires s.offers[LOOP].Refused? ==> |s.queue| >= c.queueCapacity
    ensures
      var u := DoOffer(s, LOOP, o, c);
      && u.phase == s.phase && !u.closed && u.accepting == s.accepting && u.shutdown == s.shutdown
      && Outcome(u, c) == Outcome(s, c)
      && (LOOP in u.offers && u.offers[LOOP].Refused? ==> |u.queue| >= c.queueCapacity)
  {
    var k, rest := s.offers[LOOP].key, s.phase.rest;
    assert ([k] + rest)[1..] == rest;
    if o.Inserts? && k !in s.keys { assert s.keys + {k} - {k} == s.keys; }
  }

  ghost predicate AllOwn(steps: seq<Step>) {
    forall i :: 0 <= i < |steps| ==> IsOwn(steps[i]) && steps[i] != ByLoop(RefillEnds)
  }

  lemma OwnStepKeepsOutcome(s: State, step: Step, c: Config)
    requires s.phase.Offering? && !s.closed && Accepts(s) && Enabled(s, step, c)
    requires IsOwn(step) && step != ByLoop(RefillEnds)
    requires LOOP in s.offers && s.offers[LOOP].Refused? ==> |s.queue| >= c.queueCapacity
    ensures
      var u := Apply(s, step, c);
      && u.phase.Offering? && !u.closed && Accepts(u) && Outcome(u, c) == Outcome(s, c)
      && (LOOP in u.offers && u.offers[LOOP].Refused? ==> |u.queue| >= c.queueCapacity)
  {
    if step.ByOffer? {
      OwnOfferKeepsOutcome(s, step.offer, c);
      hide DoOffer, Outcome;
    } else {
      assert step.loop.Offers?;
      assert s.phase.rest == [s.phase.rest[0]] + s.phase.rest[1..];
    }
  }

  lemma {:induction false} OwnRunKeepsOutcome(s: State, steps: seq<Step>, c: Config)
    requires s.phase.Offering? && !s.closed && Accepts(s) && Legal(s, steps, c) && AllOwn(steps)
    requires LOOP in s.offers && s.offers[LOOP].Refused? ==> |s.queue| >= c.queueCapacity
    ensures
      var t := Execute(s, steps, c);
      t.phase.Offering? && Outcome(t, c) == Outcome(s, c)
    decreases |steps|
  {
    if steps != [] {
      OwnStepKeepsOutcome(s, steps[0], c);
      hide Apply, Enabled, Outcome, Accepts;
      OwnRunKeepsOutcome(Apply(s, steps[0], c), steps[1..], c);
    }
  }

  /** The keys that are not scheduled yet. */
  function Unscheduled(ks: seq<Key>, keys: set<Key>): seq<Key> {
    if ks == [] then [] else (if ks[0] in keys then [] else [ks[0]]) + Unscheduled(ks[1..], keys)
  }

  lemma {:induction false} UnscheduledAvoids(ks: seq<Key>, keys: set<Key>, k: Key)
    requires k !in ks
    ensures Unscheduled(ks, keys + {k}) == Unscheduled(ks, keys)
  {
    if ks != [] {
      assert ks[0] in ks && forall x :: x in ks[1..] ==> x in ks;
      UnscheduledAvoids(ks[1..], keys, k);
    }
  }

  function Room(queue: seq<Key>, capacity: nat, n: nat): nat {
    if |queue| >= capacity then 0 else Min(n, capacity - |queue|)
  }

  lemma {:induction false} SettleFull(queue: seq<Key>, keys: set<Key>, ks: seq<Key>, capacity: nat)
    requires |queue| >= capacity
    ensures Settle(queue, keys, ks, capacity) == (queue, keys)
    decreases |ks|
  {
    if ks != [] { SettleFull(queue, keys, ks[1..], capacity); }
  }

  lemma TakeOne(queue: seq<Key>, keys: set<Key>, k: Key, todo: seq<Key>, n: nat)
    requires n <= |todo|
    ensures (queue + [k]) + todo[..n] == queue + ([k] + todo)[..n + 1]
    ensures (keys + {k}) + QueuedKeys(todo[..n]) == keys + QueuedKeys(([k] + todo)[..n + 1])
  {
    assert ([k] + todo)[..n + 1] == [k] + todo[..n];
    assert QueuedKeys([k] + todo[..n]) == {k} + QueuedKeys(todo[..n]);
  }

  lemma TakeNone(queue: seq<Key>, keys: set<Key>, todo: seq<Key>)
    ensures queue + todo[..0] == queue && keys + QueuedKeys(todo[..0]) == keys
  {
    assert QueuedKeys(todo[..0]) == {};
  }

  lemma {:induction false} SettleIs(queue: seq<Key>, keys: set<Key>, ks: seq<Key>, capacity: nat)
    requires NoDuplicates(ks)
    ensures
      var todo := Unscheduled(ks, keys);
      var n := Room(queue, capacity, |todo|);
      Settle(queue, keys, ks, capacity) == (queue + todo[..n], keys + QueuedKeys(todo[..n]))
    decreases |ks|
  {
    hide QueuedKeys;
    if ks == [] || |queue| >= capacity {
      SettleFull(queue, keys, ks, if |queue| >= capacity then capacity else |queue|);
      TakeNone(queue, keys, Unscheduled(ks, keys));
    } else {
      var k, rest := ks[0], ks[1..];
      var todo := Unscheduled(rest, keys);
      if k in keys {
        assert Unscheduled(ks, keys) == todo;
        hide Unscheduled;
        SettleIs(queue, keys, rest, capacity);
      } else {
        assert k !in rest;
        UnscheduledAvoids(rest, keys, k);
        assert Unscheduled(ks, keys) == [k] + todo;
        hide Unscheduled;
        SettleIs(queue + [k], keys + {k}, rest, capacity);
        TakeOne(queue, keys, k, todo, Room(queue + [k], capacity, |todo|));
      }
    }
  }

  /** An undisturbed refill from the load to its end: the queue is what it was and, in the loaded order, as many of the
      loaded keys that were not scheduled as there is room for; the rest are refused and released. */
  lemma UndisturbedRefillQueues(s: State, steps: seq<Step>, c: Config)
    requires Inv(s, c) && CanLoop(s, LoadReturns, c) && Accepts(s) && !s.closed
    requires
      var loaded := DoLoop(s, LoadReturns, c);
      Legal(loaded, steps, c) && AllOwn(steps) && CanLoop(Execute(loaded, steps, c), RefillEnds, c)
    ensures
      var t := Execute(DoLoop(s, LoadReturns, c), steps, c);
      var todo := Unscheduled(s.phase.loaded, s.keys);
      var n := Room(s.queue, c.queueCapacity, |todo|);
      t.queue == s.queue + todo[..n] && t.keys == s.keys + QueuedKeys(todo[..n])
  {
    var loaded := DoLoop(s, LoadReturns, c);
    assert LOOP !in s.offers && NoDuplicates(s.phase.loaded);
    hide Inv, Execute, Legal, Unscheduled, QueuedKeys, Settle, NoDuplicates;
    OwnRunKeepsOutcome(loaded, steps, c);
    SettleIs(s.queue, s.keys, s.phase.loaded, c.queueCapacity);
  }

  lemma {:induction false} AllUnscheduled(ks: seq<Key>, keys: set<Key>)
    requires forall k :: k in ks ==> k !in keys
    ensures Unscheduled(ks, keys) == ks
  {
    if ks != [] {
      assert ks == [ks[0]] + ks[1..];
      AllUnscheduled(ks[1..], keys);
    }
  }

  /** Refill asks for no more than the target leaves room for, and for no less unless the batch is smaller. */
  lemma WantedFits(s: State, c: Config)
    requires CanLoop(s, Measures, c)
    ensures
      var wanted := DoLoop(s, Measures, c).phase.wanted;
      && |s.queue| + wanted <= c.refillTarget && wanted <= c.refillBatch
      && (wanted == c.refillBatch || |s.queue| + wanted == c.refillTarget)
  {
  }

  /** Where nothing was scheduled since the snapshot and the target is within the capacity, all that was loaded is
      queued. */
  lemma UndisturbedRefillQueuesAll(s: State, steps: seq<Step>, c: Config)
    requires Inv(s, c) && CanLoop(s, LoadReturns, c) && Accepts(s) && !s.closed
    requires s.keys == s.phase.excluded && |s.queue| + |s.phase.loaded| <= c.queueCapacity
    requires
      var loaded := DoLoop(s, LoadReturns, c);
      Legal(loaded, steps, c) && AllOwn(steps) && CanLoop(Execute(loaded, steps, c), RefillEnds, c)
    ensures Execute(DoLoop(s, LoadReturns, c), steps, c).queue == s.queue + s.phase.loaded
  {
    forall k | k in s.phase.loaded ensures k !in s.keys { assert k in Loaded(s.phase); }
    AllUnscheduled(s.phase.loaded, s.keys);
    UndisturbedRefillQueues(s, steps, c);
    var todo := Unscheduled(s.phase.loaded, s.keys);
    assert todo[..|todo|] == todo;
  }

  // ---- the queue is a queue ----

  function SentNow(s: State, step: Step, c: Config): seq<Key>
    requires Enabled(s, step, c)
  {
    var u := Apply(s, step, c);
    if step.ByOffer? && |u.queue| > |s.queue| then [u.queue[|u.queue| - 1]] else []
  }

  function StartedNow(s: State, step: Step, c: Config): seq<Key>
    requires Enabled(s, step, c)
  {
    var u := Apply(s, step, c);
    if step.ByTask? && step.task !in s.running && step.task in u.running then [u.running[step.task].key] else []
  }

  function Sent(s: State, steps: seq<Step>, c: Config): seq<Key>
    requires Legal(s, steps, c)
    decreases |steps|
  {
    if steps == [] then [] else SentNow(s, steps[0], c) + Sent(Apply(s, steps[0], c), steps[1..], c)
  }

  function Started(s: State, steps: seq<Step>, c: Config): seq<Key>
    requires Legal(s, steps, c)
    decreases |steps|
  {
    if steps == [] then [] else StartedNow(s, steps[0], c) + Started(Apply(s, steps[0], c), steps[1..], c)
  }

  lemma StepIsFifo(s: State, step: Step, c: Config)
    requires Enabled(s, step, c)
    ensures StartedNow(s, step, c) + Apply(s, step, c).queue == s.queue + SentNow(s, step, c)
  {
    hide RunningKeys;
    match step
    case ByOffer(t, o) => OfferIsFifo(s, t, o, c);
    case ByTask(w, o) => assert o.Spawns? ==> s.queue == [s.queue[0]] + s.queue[1..];
    case ByLoop(o) => assert DoLoop(s, o, c).queue == s.queue;
    case ByOutside(o) =>
  }

  lemma OfferIsFifo(s: State, t: Thread, o: OfferStep, c: Config)
    requires CanOffer(s, t, o)
    ensures
      var u := DoOffer(s, t, o, c);
      u.queue == s.queue + if |u.queue| > |s.queue| then [u.queue[|u.queue| - 1]] else []
  {
  }

  /** Over every run events start in exactly the order in which they were queued. */
  lemma {:induction false} QueueIsFifo(s: State, steps: seq<Step>, c: Config)
    requires Legal(s, steps, c)
    ensures Started(s, steps, c) + Execute(s, steps, c).queue == s.queue + Sent(s, steps, c)
    decreases |steps|
  {
    if steps != [] {
      var u := Apply(s, steps[0], c);
      StepIsFifo(s, steps[0], c);
      hide Apply, Enabled, StartedNow, SentNow;
      QueueIsFifo(u, steps[1..], c);
      Chain(StartedNow(s, steps[0], c), u.queue, s.queue, SentNow(s, steps[0], c), Started(u, steps[1..], c),
            Execute(u, steps[1..], c).queue, Sent(u, steps[1..], c));
    }
  }

  lemma Chain(a: seq<Key>, q: seq<Key>, p: seq<Key>, b: seq<Key>, a': seq<Key>, r: seq<Key>, b': seq<Key>)
    requires a + q == p + b && a' + r == q + b'
    ensures (a + a') + r == p + (b + b')
  {
    assert (a + a') + r == a + (a' + r);
    assert a + (q + b') == (a + q) + b';
    assert p + (b + b') == (p + b) + b';
  }

  // ---- after shutdown began ----

  lemma StepStaysClosed(s: State, step: Step, c: Config)
    requires Enabled(s, step, c)
    ensures s.closed ==> Apply(s, step, c).closed && SentNow(s, step, c) == []
    ensures !Accepts(s) ==> !Accepts(Apply(s, step, c))
    ensures !Accepts(s) ==> !(step.ByOffer? && step.offer.Checks?) && OfferedNow(s, step, c) == []
  {
    hide RunningKeys;
    match step
    case ByOffer(t, o) => assert DoOffer(s, t, o, c).closed == s.closed && Accepts(DoOffer(s, t, o, c)) == Accepts(s);
    case ByTask(w, o) => assert DoWork(s, w, o, c).closed == s.closed && Accepts(DoWork(s, w, o, c)) == Accepts(s);
    case ByLoop(o) =>
    case ByOutside(o) =>
  }

  /** Once the queue is closed nothing is queued any more: what starts, and what is left, is what was queued then. */
  lemma {:induction false} ClosedQueueOnlyDrains(s: State, steps: seq<Step>, c: Config)
    requires s.closed && Legal(s, steps, c)
    ensures Execute(s, steps, c).closed && Sent(s, steps, c) == []
    ensures Started(s, steps, c) + Execute(s, steps, c).queue == s.queue
    decreases |steps|
  {
    QueueIsFifo(s, steps, c);
    if steps != [] {
      StepStaysClosed(s, steps[0], c);
      hide Apply, Enabled, SentNow, StartedNow;
      ClosedQueueOnlyDrains(Apply(s, steps[0], c), steps[1..], c);
    }
    assert s.queue + [] == s.queue;
  }

  lemma ClosingCloses(s: State, steps: seq<Step>, c: Config)
    requires CanLoop(s, ClosesQueue, c) && Legal(DoLoop(s, ClosesQueue, c), steps, c)
    ensures
      var closed := DoLoop(s, ClosesQueue, c);
      Started(closed, steps, c) + Execute(closed, steps, c).queue == s.queue
  {
    ClosedQueueOnlyDrains(DoLoop(s, ClosesQueue, c), steps, c);
  }

  /** Once the dispatcher stopped accepting no offer begins any more. */
  lemma {:induction false} StoppedAcceptsNothing(s: State, steps: seq<Step>, c: Config)
    requires !Accepts(s) && Legal(s, steps, c)
    ensures !Accepts(Execute(s, steps, c))
    ensures forall i :: 0 <= i < |steps| ==> !(steps[i].ByOffer? && steps[i].offer.Checks?)
    ensures Offered(s, steps, c) == []
    decreases |steps|
  {
    if steps != [] {
      StepStaysClosed(s, steps[0], c);
      hide Apply, Enabled, Accepts, OfferedNow;
      StoppedAcceptsNothing(Apply(s, steps[0], c), steps[1..], c);
      forall i | 0 <= i < |steps| ensures !(steps[i].ByOffer? && steps[i].offer.Checks?) {
        if i > 0 { assert steps[i] == steps[1..][i - 1]; }
      }
    }
  }
}
