/** The shutdown drain of `dispatcher.rs`: the queue is closed, so nothing is added any more. */
module DispatcherDrain {
  import opened Dispatcher

  /** What `timeout_at(deadline, join_next())` gives: some task ended, having completed durably or not and
      having returned or failed; or the deadline, by which some of the running tasks had completed. */
  datatype Tick = Ended(durable: bool, returned: bool) | Deadline(completed: set<Key>)

  /** Every event of `all` is in exactly one place, once: queued, running or joined. */
  ghost predicate OnePlace(all: set<Key>, queue: seq<Key>, running: set<Key>, joined: seq<Key>) {
    && NoDuplicates(queue) && NoDuplicates(joined)
    && all == QueuedKeys(queue) + running + QueuedKeys(joined)
    && QueuedKeys(queue) !! running && QueuedKeys(queue) !! QueuedKeys(joined) && running !! QueuedKeys(joined)
  }

  lemma SpawnKeepsPlaces(all: set<Key>, queue: seq<Key>, running: set<Key>, joined: seq<Key>)
    requires OnePlace(all, queue, running, joined) && queue != []
    ensures queue[0] !in running && OnePlace(all, queue[1..], running + {queue[0]}, joined)
  {
    Dequeue(queue);
  }

  lemma JoinKeepsPlaces(all: set<Key>, queue: seq<Key>, running: set<Key>, joined: seq<Key>, k: Key)
    requires OnePlace(all, queue, running, joined) && k in running
    ensures OnePlace(all, queue, running - {k}, joined + [k])
  {
    Enqueue(joined, k);
  }

  class Drain {
    var keys: set<Key>
    var queue: seq<Key>
    var running: set<Key>
    var backlog: set<Key>
    const concurrency: nat

    // What happened: the events handed to a handler, the tasks joined, the events a handler completed
    // durably, and the most that ran at once.
    ghost var started: seq<Key>
    ghost var joined: seq<Key>
    ghost var completed: set<Key>
    ghost var peak: nat

    constructor (keys: set<Key>, queue: seq<Key>, running: set<Key>, backlog: set<Key>, concurrency: nat)
      ensures this.keys == keys && this.queue == queue && this.running == running && this.backlog == backlog
      ensures this.concurrency == concurrency && started == [] && joined == []
      ensures completed == {} && peak == |running|
    {
      this.keys, this.queue, this.running, this.backlog := keys, queue, running, backlog;
      this.concurrency := concurrency;
      started, joined, completed, peak := [], [], {}, |running|;
    }

    ghost predicate Valid(all: set<Key>) reads this {
      && 1 <= concurrency && |running| <= concurrency && peak <= concurrency
      && OnePlace(all, queue, running, joined)
    }

    /** Spawns from the head of the queue until the workers are busy or the queue is empty. */
    method Fill(ghost all: set<Key>)
      requires Valid(all)
      modifies `queue, `running, `started, `peak
      ensures Valid(all)
      ensures started + queue == old(started + queue)
      ensures |queue| + |running| == old(|queue| + |running|)
      ensures queue == [] || |running| == concurrency
    {
      hide OnePlace;
      while |running| < concurrency && queue != []
        invariant Valid(all)
        invariant started + queue == old(started + queue)
        invariant |queue| + |running| == old(|queue| + |running|)
        decreases |queue|
      {
        SpawnKeepsPlaces(all, queue, running, joined);
        var k := queue[0];
        assert queue == [k] + queue[1..];
        queue, running, started := queue[1..], running + {k}, started + [k];
        peak := if peak < |running| then |running| else peak;
      }
    }

    /** `complete_work` for whichever task ended. */
    method Join(tick: Tick, ghost all: set<Key>) returns (k: Key)
      requires Valid(all) && running != {} && tick.Ended?
      modifies `keys, `running, `backlog, `joined, `completed
      ensures k in old(running) && running == old(running) - {k} && joined == old(joined) + [k]
      ensures Valid(all) && |running| == |old(running)| - 1
      ensures completed == (if tick.durable then old(completed) + {k} else old(completed))
      ensures backlog == (if tick.durable then old(backlog) - {k} else old(backlog))
      ensures keys == (if tick.returned then old(keys) - {k} else old(keys))
    {
      hide OnePlace;
      k :| k in running;
      JoinKeepsPlaces(all, queue, running, joined, k);
      running := running - {k};
      joined := joined + [k];
      if tick.durable {
        backlog := backlog - {k};
        completed := completed + {k};
      }
      if tick.returned { keys := keys - {k}; }
    }

    /** `abort_all` at the deadline: no key is released, and of the running events only those that a handler
        had completed by then have left the backlog. */
    method Abort(done: set<Key>, ghost all: set<Key>) returns (ghost aborted: set<Key>)
      requires Valid(all)
      modifies `running, `backlog, `completed
      ensures running == {} && aborted == old(running) && OnePlace(all, queue, aborted, joined)
      ensures completed == old(completed) + (done * aborted) && backlog == old(backlog) - (done * aborted)
    {
      hide OnePlace;
      completed := completed + (done * running);
      backlog := backlog - (done * running);
      aborted := running;
      running := {};
    }

    /** Ends with everything done, or at the deadline. Either way exactly the events that a handler completed
        have left the backlog, and none of those is still queued. Each round joins a task, so queued plus
        running shrinks. */
    method Run(ticks: seq<Tick>, ghost all: set<Key>) returns (timely: bool, ghost aborted: set<Key>)
      requires Valid(all) && started == [] && joined == [] && completed == {}
      modifies `keys, `queue, `running, `backlog, `started, `joined, `completed, `peak
      ensures peak <= concurrency && running == {}
      ensures started + queue == old(queue) && OnePlace(all, queue, aborted, joined)
      ensures timely ==> queue == [] && aborted == {}
      ensures backlog == old(backlog) - completed && completed <= QueuedKeys(joined) + aborted
      ensures old(keys) - QueuedKeys(joined) <= keys <= old(keys)
      ensures |joined| <= |ticks| && completed == CompletedIn(ticks, joined) + (AtDeadline(ticks, |joined|) * aborted)
    {
      hide OnePlace, Accounted, QueuedKeys, CompletedIn;
      var i := 0;
      NothingJoined(backlog, keys, ticks);
      while running != {} || queue != []
        invariant Valid(all) && i == |joined| <= |ticks|
        invariant started + queue == old(queue)
        invariant Accounted(old(backlog), old(keys), backlog, keys, completed, QueuedKeys(joined))
        invariant completed == CompletedIn(ticks, joined)
        decreases |queue| + |running|
      {
        Fill(all);
        ghost var b, before := backlog, completed;
        if i == |ticks| || ticks[i].Deadline? {
          var done := if i == |ticks| then {} else ticks[i].completed;
          aborted := Abort(done, all);
          AbortAccounts(old(backlog), old(keys), b, keys, before, QueuedKeys(joined), backlog, completed,
                        aborted, done);
          return false, aborted;
        }
        ghost var ks, js := keys, joined;
        var k := Join(ticks[i], all);
        JoinAccounts(old(backlog), old(keys), b, ks, before, js, k, ticks[i], backlog, keys, completed);
        CompletedMore(ticks, js, k);
        i := i + 1;
      }
      aborted := {};
      AbortAccounts(old(backlog), old(keys), backlog, keys, completed, QueuedKeys(joined), backlog, completed, {}, {});
      return true, aborted;
    }
  }

  /** The joined events whose handler had completed them: the ticks decide, one join after the other. */
  ghost function CompletedIn(ticks: seq<Tick>, joined: seq<Key>): set<Key>
    requires |joined| <= |ticks|
  {
    set i | 0 <= i < |joined| && ticks[i].Ended? && ticks[i].durable :: joined[i]
  }

  /** What the handlers had completed by the deadline, if that ended the drain. */
  ghost function AtDeadline(ticks: seq<Tick>, n: nat): set<Key> {
    if n < |ticks| && ticks[n].Deadline? then ticks[n].completed else {}
  }

  lemma CompletedMore(ticks: seq<Tick>, joined: seq<Key>, k: Key)
    requires |joined| < |ticks| && ticks[|joined|].Ended?
    ensures CompletedIn(ticks, joined + [k]) ==
            if ticks[|joined|].durable then CompletedIn(ticks, joined) + {k} else CompletedIn(ticks, joined)
  {
    var more := joined + [k];
    forall x | x in CompletedIn(ticks, joined) ensures x in CompletedIn(ticks, more) {
      var i :| 0 <= i < |joined| && ticks[i].Ended? && ticks[i].durable && joined[i] == x;
      assert more[i] == x;
    }
    assert more[|joined|] == k;
    forall x | x in CompletedIn(ticks, more)
      ensures x in CompletedIn(ticks, joined) || (ticks[|joined|].durable && x == k)
    {
      var i :| 0 <= i < |more| && ticks[i].Ended? && ticks[i].durable && more[i] == x;
      if i < |joined| { assert joined[i] == x; }
    }
  }

  predicate NoCompletion(tick: Tick) { if tick.Ended? then !tick.durable else tick.completed == {} }

  /** What a drain means for the next start: an event of the backlog is still there unless a tick said that its
      handler had completed it, and an event that was never started is still there in any case. */
  method Shutdown(drain: Drain, ticks: seq<Tick>, ghost all: set<Key>) returns (timely: bool, ghost aborted: set<Key>)
    requires drain.Valid(all) && drain.started == [] && drain.joined == [] && drain.completed == {}
    modifies drain
    ensures forall k :: k in old(drain.backlog) && k !in drain.backlog ==>
      || (exists i :: 0 <= i < |drain.joined| <= |ticks| && drain.joined[i] == k && ticks[i].Ended? && ticks[i].durable)
      || (k in aborted && k in AtDeadline(ticks, |drain.joined|))
    ensures forall k :: k in old(drain.backlog) && k in drain.queue ==> k in drain.backlog
    ensures (forall i :: 0 <= i < |ticks| ==> NoCompletion(ticks[i])) ==> drain.backlog == old(drain.backlog)
  {
    timely, aborted := drain.Run(ticks, all);
    forall k | k in drain.queue ensures k !in drain.completed {
      assert k in QueuedKeys(drain.queue);
    }
  }

  /** Exactly the completed events have left the backlog, and only joined ones are completed or released. */
  ghost predicate Accounted(backlog0: set<Key>, keys0: set<Key>, backlog: set<Key>, keys: set<Key>,
                            completed: set<Key>, joined: set<Key>) {
    && backlog == backlog0 - completed && completed <= joined
    && keys0 - joined <= keys <= keys0
  }

  lemma NothingJoined(backlog: set<Key>, keys: set<Key>, ticks: seq<Tick>)
    ensures Accounted(backlog, keys, backlog, keys, {}, QueuedKeys([])) && CompletedIn(ticks, []) == {}
  {
  }

  lemma JoinAccounts(backlog0: set<Key>, keys0: set<Key>, backlog: set<Key>, keys: set<Key>, completed: set<Key>,
                     joined: seq<Key>, k: Key, tick: Tick, backlog': set<Key>, keys': set<Key>, completed': set<Key>)
    requires Accounted(backlog0, keys0, backlog, keys, completed, QueuedKeys(joined)) && tick.Ended?
    requires completed' == (if tick.durable then completed + {k} else completed)
    requires backlog' == (if tick.durable then backlog - {k} else backlog)
    requires keys' == (if tick.returned then keys - {k} else keys)
    ensures Accounted(backlog0, keys0, backlog', keys', completed', QueuedKeys(joined + [k]))
  {
    assert QueuedKeys(joined + [k]) == QueuedKeys(joined) + {k};
    hide QueuedKeys;
  }

  lemma AbortAccounts(backlog0: set<Key>, keys0: set<Key>, backlog: set<Key>, keys: set<Key>, completed: set<Key>,
                      joined: set<Key>, backlog': set<Key>, completed': set<Key>, aborted: set<Key>, done: set<Key>)
    requires Accounted(backlog0, keys0, backlog, keys, completed, joined)
    requires completed' == completed + (done * aborted) && backlog' == backlog - (done * aborted)
    ensures backlog' == backlog0 - completed' && completed' <= joined + aborted
    ensures keys0 - joined <= keys <= keys0
  {
  }

  /** The drain takes over where the dispatcher closes its queue: all events are then in exactly one place. */
  lemma ClosedDispatcherIsReady(s: State, c: Config)
    requires Inv(s, c) && CanLoop(s, ClosesQueue, c)
    ensures
      var closed := DoLoop(s, ClosesQueue, c);
      && OnePlace(QueuedKeys(closed.queue) + RunningKeys(closed.running), closed.queue, RunningKeys(closed.running), [])
      && QueuedKeys(closed.queue) + RunningKeys(closed.running) <= closed.keys
      && |RunningKeys(closed.running)| <= c.workerConcurrency
  {
    hide RunningKeys, QueuedKeys, HeldKeys, NoDuplicates, RunOnce, HeldOnce, RefillIsFresh;
    RunningSize(s.running);
    PlacesOfPartition(s.keys, s.queue, RunningKeys(s.running), HeldKeys(s.offers), s.lost);
  }

  lemma PlacesOfPartition(keys: set<Key>, queue: seq<Key>, running: set<Key>, held: set<Key>, lost: set<Key>)
    requires Partition(keys, QueuedKeys(queue), running, held, lost) && NoDuplicates(queue)
    ensures OnePlace(QueuedKeys(queue) + running, queue, running, []) && QueuedKeys(queue) + running <= keys
  {
    assert QueuedKeys([]) == {};
    hide QueuedKeys;
  }
}
