/** The login rate limiter of `auth.rs`: a bounded map of fixed windows whose eviction order is a
    lazily invalidated FIFO of (key, generation) pairs, with generations that wrap around. */
module LoginLimiter {
  import opened Common

  // Generations run through 1..=u64::MAX and then start over at 1.
  const GENERATIONS: nat := 0xFFFF_FFFF_FFFF_FFFF
  const U32_MAX: nat := 0xFFFF_FFFF
  const I64_MAX: int := 0x7FFF_FFFF_FFFF_FFFF

  type Digest = nat

  /** What a `Timestamp` can hold: the years 1 to 9999. */
  type Timestamp = t: int | -62_135_596_800_000 <= t <= 253_402_300_799_999

  /** `window` is the window in whole milliseconds, which is how `increment` uses it. */
  datatype Config = Config(maxAttempts: nat, window: nat, capacity: nat) {
    /** What `LoginRateLimiter::new` accepts, plus the range of the machine types. The capacity bound
        is the one under which 2 * capacity + 1 queue elements can exist at all. */
    ghost predicate Valid() {
      0 < maxAttempts <= U32_MAX && 2 <= capacity && 2 * capacity + 1 <= GENERATIONS
    }
  }

  datatype RateEntry = RateEntry(attempts: nat, windowEnd: int, generation: nat)

  /** The value of a `RateState`. */
  datatype Rate = Rate(entries: map<Digest, RateEntry>, order: seq<(Digest, nat)>, generation: nat)

  const EMPTY := Rate(map[], [], 1)

  function NextGeneration(g: nat): nat {
    if g + 1 > GENERATIONS then 1 else g + 1
  }

  /** The generation handed out `k` increments before `g`. */
  function Back(g: nat, k: nat): int {
    if k < g then g - k else g - k + GENERATIONS
  }

  function OpenWindow(now: int, window: nat): int {
    Min(now + window, I64_MAX)
  }

  // ---- the operations on values ----

  function Evict(r: Rate): Rate {
    if r.order == [] then r
    else
      var (key, generation) := r.order[0];
      var entries :=
        if key in r.entries && r.entries[key].generation == generation then r.entries - {key} else r.entries;
      r.(order := r.order[1..], entries := entries)
  }

  function TrimEntries(r: Rate, capacity: nat): Rate
    decreases |r.order|
  {
    if |r.entries| <= capacity || r.order == [] then r else TrimEntries(Evict(r), capacity)
  }

  function TrimOrder(r: Rate, capacity: nat): Rate
    decreases |r.order|
  {
    if |r.order| <= 2 * capacity then r else TrimOrder(Evict(r), capacity)
  }

  /** The entry `increment` leaves for `key`. */
  function Counted(r: Rate, key: Digest, now: int, c: Config): RateEntry {
    var open := key in r.entries && now < r.entries[key].windowEnd;
    RateEntry(
      if open then Min(r.entries[key].attempts + 1, U32_MAX) else 1,
      if open then r.entries[key].windowEnd else OpenWindow(now, c.window),
      r.generation)
  }

  /** `increment` up to its eviction loops. */
  function Touch(r: Rate, key: Digest, now: int, c: Config): Rate {
    Rate(r.entries[key := Counted(r, key, now, c)], r.order + [(key, r.generation)], NextGeneration(r.generation))
  }

  function Increment(r: Rate, key: Digest, now: int, c: Config): Rate {
    TrimOrder(TrimEntries(Touch(r, key, now, c), c.capacity), c.capacity)
  }

  function Allows(r: Rate, key: Digest, now: int, c: Config): bool {
    Counted(r, key, now, c).attempts <= c.maxAttempts
  }

  function Reset(r: Rate, key: Digest): Rate {
    r.(entries := r.entries - {key})
  }

  // ---- the invariant ----

  /** The queue's generations are the consecutive cyclic window that ends just before `generation`. */
  ghost predicate Consecutive(r: Rate) {
    && 1 <= r.generation <= GENERATIONS
    && |r.order| <= GENERATIONS
    && forall i :: 0 <= i < |r.order| ==> r.order[i].1 == Back(r.generation, |r.order| - i)
  }

  /** Every live entry's pair is queued. */
  ghost predicate Linked(r: Rate) {
    forall k :: k in r.entries ==> (k, r.entries[k].generation) in r.order
  }

  ghost predicate Sound(r: Rate) {
    Consecutive(r) && Linked(r)
  }

  /** What holds between two operations. */
  ghost predicate Valid(r: Rate, capacity: nat) {
    Sound(r) && |r.entries| <= capacity && |r.order| <= 2 * capacity
  }

  lemma GenerationsAreUnique(r: Rate, i: nat, j: nat)
    requires Consecutive(r)
    requires i < j < |r.order|
    ensures r.order[i].1 != r.order[j].1
  {
    assert r.order[i].1 == Back(r.generation, |r.order| - i);
    assert r.order[j].1 == Back(r.generation, |r.order| - j);
  }

  ghost predicate OnlyAt(order: seq<(Digest, nat)>, pair: (Digest, nat), i: nat)
    requires i < |order|
  {
    order[i] == pair && forall j :: 0 <= j < |order| && j != i ==> order[j] != pair
  }

  /** Each live entry's pair occurs exactly once in the queue. */
  lemma QueuedExactlyOnce(r: Rate, k: Digest)
    requires Sound(r) && k in r.entries
    ensures exists i :: 0 <= i < |r.order| && OnlyAt(r.order, (k, r.entries[k].generation), i)
  {
    var i :| 0 <= i < |r.order| && r.order[i] == (k, r.entries[k].generation);
    forall j | 0 <= j < |r.order| && j != i
      ensures r.order[j] != (k, r.entries[k].generation)
    {
      if i < j { GenerationsAreUnique(r, i, j); } else { GenerationsAreUnique(r, j, i); }
    }
    assert OnlyAt(r.order, (k, r.entries[k].generation), i);
  }

  lemma EvictIsSound(r: Rate)
    requires Sound(r) && r.order != []
    ensures Sound(Evict(r)) && Evict(r).order == r.order[1..]
    ensures |r.entries| <= |Evict(r).entries| + 1
  {
    var e := Evict(r);
    forall k | k in e.entries ensures (k, e.entries[k].generation) in e.order {
      assert (k, r.entries[k].generation) in r.order;
      assert r.order == [r.order[0]] + r.order[1..];
    }
    assert r.entries.Keys <= e.entries.Keys + {r.order[0].0};
    CardinalityOfUnion(r.entries.Keys, e.entries.Keys, r.order[0].0);
  }

  lemma CardinalityOfUnion<T>(a: set<T>, b: set<T>, x: T)
    requires a <= b + {x}
    ensures |a| <= |b| + 1
  {
    SubsetCardinality(a, b + {x});
  }

  /** Why the first loop cannot run the queue dry: there are never more entries than queued pairs. */
  lemma {:induction false} EntriesAreQueued(r: Rate)
    requires Sound(r)
    ensures |r.entries| <= |r.order|
    decreases |r.order|
  {
    if r.order == [] {
      assert r.entries.Keys == {};
    } else {
      EvictIsSound(r);
      EntriesAreQueued(Evict(r));
    }
  }

  /** `k` is live and its pair is the `m`-th from the back. */
  ghost predicate LiveAt(r: Rate, k: Digest, m: nat) {
    && k in r.entries && 1 <= m <= |r.order|
    && r.order[|r.order| - m] == (k, r.entries[k].generation)
  }

  lemma EvictKeepsLater(r: Rate, k: Digest, m: nat)
    requires Sound(r) && LiveAt(r, k, m) && m < |r.order|
    ensures LiveAt(Evict(r), k, m) && Evict(r).entries[k] == r.entries[k]
  {
    GenerationsAreUnique(r, 0, |r.order| - m);
  }

  lemma {:induction false} TrimEntriesIsSound(r: Rate, capacity: nat)
    requires Sound(r)
    ensures var t := TrimEntries(r, capacity);
      && Sound(t) && |t.entries| <= capacity && |t.order| <= |r.order| && t.generation == r.generation
      && t.entries.Items <= r.entries.Items
    decreases |r.order|
  {
    EntriesAreQueued(r);
    if |r.entries| > capacity {
      EvictIsSound(r);
      TrimEntriesIsSound(Evict(r), capacity);
    }
  }

  lemma {:induction false} TrimEntriesKeeps(r: Rate, capacity: nat, k: Digest, m: nat)
    requires Sound(r) && LiveAt(r, k, m) && m <= capacity
    ensures LiveAt(TrimEntries(r, capacity), k, m) && TrimEntries(r, capacity).entries[k] == r.entries[k]
    decreases |r.order|
  {
    EntriesAreQueued(r);
    if |r.entries| > capacity {
      EvictIsSound(r);
      EvictKeepsLater(r, k, m);
      TrimEntriesKeeps(Evict(r), capacity, k, m);
    }
  }

  lemma {:induction false} TrimOrderIsSound(r: Rate, capacity: nat)
    requires Sound(r) && |r.entries| <= capacity
    ensures var t := TrimOrder(r, capacity);
      && Sound(t) && |t.entries| <= capacity && |t.order| <= 2 * capacity && t.generation == r.generation
      && t.entries.Items <= r.entries.Items
    decreases |r.order|
  {
    if |r.order| > 2 * capacity {
      EvictIsSound(r);
      SubsetCardinality(Evict(r).entries.Keys, r.entries.Keys);
      TrimOrderIsSound(Evict(r), capacity);
    }
  }

  lemma {:induction false} TrimOrderKeeps(r: Rate, capacity: nat, k: Digest, m: nat)
    requires Sound(r) && LiveAt(r, k, m) && m <= capacity
    ensures LiveAt(TrimOrder(r, capacity), k, m) && TrimOrder(r, capacity).entries[k] == r.entries[k]
    decreases |r.order|
  {
    if |r.order| > 2 * capacity {
      EvictIsSound(r);
      EvictKeepsLater(r, k, m);
      TrimOrderKeeps(Evict(r), capacity, k, m);
    }
  }

  lemma TouchIsSound(r: Rate, key: Digest, now: int, c: Config)
    requires c.Valid() && Valid(r, c.capacity)
    ensures Sound(Touch(r, key, now, c)) && LiveAt(Touch(r, key, now, c), key, 1)
  {
    var t := Touch(r, key, now, c);
    assert t.order[..|r.order|] == r.order;
    assert t.order[|r.order|] == (key, r.generation);
    forall i | 0 <= i < |t.order| ensures t.order[i].1 == Back(t.generation, |t.order| - i) {
      if i < |r.order| {
        assert r.order[i].1 == Back(r.generation, |r.order| - i);
      }
    }
    forall k | k in t.entries ensures (k, t.entries[k].generation) in t.order {
      if k != key { assert (k, r.entries[k].generation) in r.order; }
    }
  }

  /** One increment keeps the invariant, and the key it counted is never the one it evicts. */
  lemma IncrementIsValid(r: Rate, key: Digest, now: int, c: Config)
    requires c.Valid() && Valid(r, c.capacity)
    ensures Valid(Increment(r, key, now, c), c.capacity)
    ensures LiveAt(Increment(r, key, now, c), key, 1)
    ensures Increment(r, key, now, c).entries[key] == Counted(r, key, now, c)
    ensures forall k :: k in Increment(r, key, now, c).entries && k != key ==>
      k in r.entries && Increment(r, key, now, c).entries[k] == r.entries[k]
    ensures Increment(r, key, now, c).generation == NextGeneration(r.generation)
  {
    var t := Touch(r, key, now, c);
    TouchIsSound(r, key, now, c);
    var u := TrimEntries(t, c.capacity);
    TrimEntriesIsSound(t, c.capacity);
    TrimEntriesKeeps(t, c.capacity, key, 1);
    TrimOrderIsSound(u, c.capacity);
    TrimOrderKeeps(u, c.capacity, key, 1);
    var v := TrimOrder(u, c.capacity);
    forall k | k in v.entries && k != key ensures k in r.entries && v.entries[k] == r.entries[k] {
      assert (k, v.entries[k]) in v.entries.Items;
      assert (k, v.entries[k]) in t.entries.Items;
    }
  }

  lemma TouchKeeps(r: Rate, key: Digest, now: int, c: Config, k: Digest, m: nat)
    requires LiveAt(r, k, m) && k != key
    ensures LiveAt(Touch(r, key, now, c), k, m + 1)
  {
    var t := Touch(r, key, now, c);
    assert t.order[|t.order| - (m + 1)] == r.order[|r.order| - m];
  }

  /** A live key moves one place away from the back, and survives while it is within `capacity` of it. */
  lemma IncrementKeepsRecent(r: Rate, key: Digest, now: int, c: Config, k: Digest, m: nat)
    requires c.Valid() && Valid(r, c.capacity) && LiveAt(r, k, m) && k != key && m + 1 <= c.capacity
    ensures LiveAt(Increment(r, key, now, c), k, m + 1)
  {
    TouchKeeps(r, key, now, c, k, m);
    TouchIsSound(r, key, now, c);
    TrimKeeps(Touch(r, key, now, c), c.capacity, k, m + 1);
  }

  lemma TrimKeeps(t: Rate, capacity: nat, k: Digest, m: nat)
    requires Sound(t) && LiveAt(t, k, m) && m <= capacity
    ensures LiveAt(TrimOrder(TrimEntries(t, capacity), capacity), k, m)
  {
    TrimEntriesIsSound(t, capacity);
    TrimEntriesKeeps(t, capacity, k, m);
    TrimOrderKeeps(TrimEntries(t, capacity), capacity, k, m);
  }

  // ---- runs ----

  /** `check` is two attempts, `success` one reset. */
  datatype Op = Attempt(key: Digest, now: Timestamp) | Success(key: Digest)

  function Apply(r: Rate, op: Op, c: Config): Rate {
    match op
    case Attempt(key, now) => Increment(r, key, now, c)
    case Success(key) => Reset(r, key)
  }

  function Run(ops: seq<Op>, c: Config): Rate {
    if ops == [] then EMPTY else Apply(Run(ops[..|ops| - 1], c), ops[|ops| - 1], c)
  }

  lemma ResetIsValid(r: Rate, key: Digest, capacity: nat)
    requires Valid(r, capacity)
    ensures Valid(Reset(r, key), capacity)
  {
    SubsetCardinality(Reset(r, key).entries.Keys, r.entries.Keys);
  }

  lemma {:induction false} RunIsValid(ops: seq<Op>, c: Config)
    requires c.Valid()
    ensures Valid(Run(ops, c), c.capacity)
  {
    if ops != [] {
      var rest, op := ops[..|ops| - 1], ops[|ops| - 1];
      RunIsValid(rest, c);
      match op
      case Attempt(key, now) => IncrementIsValid(Run(rest, c), key, now, c);
      case Success(key) => ResetIsValid(Run(rest, c), key, c.capacity);
    }
  }

  function Attempts(ops: seq<Op>): nat {
    if ops == [] then 0
    else Attempts(ops[..|ops| - 1]) + if ops[|ops| - 1].Attempt? then 1 else 0
  }

  ghost predicate LiveWithin(r: Rate, k: Digest, n: nat) {
    exists m :: 1 <= m <= n && LiveAt(r, k, m)
  }

  lemma ApplyKeepsRecent(r: Rate, op: Op, c: Config, k: Digest, n: nat)
    requires c.Valid() && Valid(r, c.capacity) && LiveWithin(r, k, n) && op != Success(k)
    requires op.Attempt? ==> n + 1 <= c.capacity
    ensures LiveWithin(Apply(r, op, c), k, if op.Attempt? then n + 1 else n)
  {
    var m :| 1 <= m <= n && LiveAt(r, k, m);
    match op
    case Attempt(key, now) =>
      if key == k {
        IncrementIsValid(r, k, now, c);
        assert LiveAt(Apply(r, op, c), k, 1);
      } else {
        IncrementKeepsRecent(r, key, now, c, k, m);
        assert LiveAt(Apply(r, op, c), k, m + 1);
      }
    case Success(key) =>
      assert LiveAt(Apply(r, op, c), k, m);
  }

  /** Eviction is a true FIFO over wrap-around: a key attempted within the last `capacity` attempts and
      not reset since is still counted. In particular the account and the network of one `check` both are. */
  lemma {:induction false} RecentlyAttemptedIsLive(ops: seq<Op>, c: Config, i: nat)
    requires c.Valid() && i < |ops| && ops[i].Attempt?
    requires forall j :: i < j < |ops| ==> ops[j] != Success(ops[i].key)
    requires Attempts(ops[i..]) <= c.capacity
    ensures LiveWithin(Run(ops, c), ops[i].key, Attempts(ops[i..]))
    decreases |ops|
  {
    var k, rest, op := ops[i].key, ops[..|ops| - 1], ops[|ops| - 1];
    RunIsValid(rest, c);
    assert ops[i..][..|ops[i..]| - 1] == rest[i..];
    if i == |ops| - 1 {
      IncrementIsValid(Run(rest, c), k, op.now, c);
      assert LiveAt(Run(ops, c), k, 1);
    } else {
      RecentlyAttemptedIsLive(rest, c, i);
      ApplyKeepsRecent(Run(rest, c), op, c, k, Attempts(rest[i..]));
    }
  }

  // ---- windows ----

  /** The clock never goes back. */
  ghost predicate Monotone(ops: seq<Op>) {
    forall i, j :: 0 <= i < j < |ops| && ops[i].Attempt? && ops[j].Attempt? ==> ops[i].now <= ops[j].now
  }

  /** The number of attempts of `k` at or after `from`. */
  function CountSince(ops: seq<Op>, k: Digest, from: int): nat {
    if ops == [] then 0
    else
      var op := ops[|ops| - 1];
      CountSince(ops[..|ops| - 1], k, from) + if op.Attempt? && op.key == k && from <= op.now then 1 else 0
  }

  lemma {:induction false} CountSinceGrows(ops: seq<Op>, k: Digest, from: int, earlier: int)
    requires earlier <= from
    ensures CountSince(ops, k, from) <= CountSince(ops, k, earlier)
  {
    if ops != [] { CountSinceGrows(ops[..|ops| - 1], k, from, earlier); }
  }

  /** The entry's window was opened by an attempt of `k` at time `s`, and all it counts came since. */
  ghost predicate OpenedAt(ops: seq<Op>, c: Config, k: Digest, e: RateEntry, s: Timestamp) {
    && Attempt(k, s) in ops
    && e.windowEnd == OpenWindow(s, c.window)
    && e.attempts <= CountSince(ops, k, s)
  }

  ghost predicate Opened(ops: seq<Op>, c: Config, k: Digest, e: RateEntry) {
    exists s: Timestamp :: OpenedAt(ops, c, k, e, s)
  }

  lemma OpenedStays(ops: seq<Op>, op: Op, c: Config, k: Digest, e: RateEntry)
    requires Opened(ops, c, k, e)
    ensures Opened(ops + [op], c, k, e)
  {
    var s: Timestamp :| OpenedAt(ops, c, k, e, s);
    assert (ops + [op])[..|ops|] == ops;
    assert OpenedAt(ops + [op], c, k, e, s);
  }

  lemma CountedIsOpened(ops: seq<Op>, c: Config, k: Digest, now: Timestamp, r: Rate)
    requires Monotone(ops + [Attempt(k, now)])
    requires k in r.entries ==> Opened(ops, c, k, r.entries[k])
    ensures Opened(ops + [Attempt(k, now)], c, k, Counted(r, k, now, c))
  {
    var all, e := ops + [Attempt(k, now)], Counted(r, k, now, c);
    assert all[..|ops|] == ops && all[|ops|] == Attempt(k, now);
    if k in r.entries && now < r.entries[k].windowEnd {
      var s: Timestamp :| OpenedAt(ops, c, k, r.entries[k], s);
      var i :| 0 <= i < |ops| && ops[i] == Attempt(k, s);
      assert all[i] == Attempt(k, s);
      assert OpenedAt(all, c, k, e, s);
    } else {
      assert OpenedAt(all, c, k, e, now);
    }
  }

  lemma {:induction false} LiveEntriesAreOpened(ops: seq<Op>, c: Config, k: Digest)
    requires c.Valid() && Monotone(ops) && k in Run(ops, c).entries
    ensures Opened(ops, c, k, Run(ops, c).entries[k])
  {
    var rest, op := ops[..|ops| - 1], ops[|ops| - 1];
    var r := Run(rest, c);
    assert ops == rest + [op];
    RunIsValid(rest, c);
    if op.Attempt? {
      IncrementIsValid(r, op.key, op.now, c);
    }
    if k in r.entries { LiveEntriesAreOpened(rest, c, k); }
    if op.Attempt? && op.key == k {
      CountedIsOpened(rest, c, k, op.now, r);
    } else {
      OpenedStays(rest, op, c, k, r.entries[k]);
    }
  }

  lemma DenialCounts(ops: seq<Op>, c: Config, k: Digest, now: Timestamp, e: RateEntry)
    requires Monotone(ops + [Attempt(k, now)]) && Opened(ops, c, k, e)
    requires now < e.windowEnd
    ensures CountSince(ops + [Attempt(k, now)], k, now - c.window + 1) >= e.attempts + 1
  {
    var all := ops + [Attempt(k, now)];
    assert all[..|ops|] == ops && all[|ops|] == Attempt(k, now);
    var s: Timestamp :| OpenedAt(ops, c, k, e, s);
    var i :| 0 <= i < |ops| && ops[i] == Attempt(k, s);
    assert all[i].now <= all[|ops|].now;
    CountSinceGrows(all, k, s, now - c.window + 1);
  }

  lemma MonotonePrefix(ops: seq<Op>, op: Op)
    requires Monotone(ops + [op])
    ensures Monotone(ops)
  {
    forall i, j | 0 <= i < j < |ops| && ops[i].Attempt? && ops[j].Attempt? ensures ops[i].now <= ops[j].now {
      assert (ops + [op])[i].now <= (ops + [op])[j].now;
    }
  }

  /** A denial is always earned: more than `maxAttempts` attempts of the key, this one included, lie in
      the window-long span that ends now. */
  lemma DeniedOnlyAfterTooMany(ops: seq<Op>, c: Config, k: Digest, now: Timestamp)
    requires c.Valid() && Monotone(ops + [Attempt(k, now)])
    requires !Allows(Run(ops, c), k, now, c)
    ensures CountSince(ops + [Attempt(k, now)], k, now - c.window + 1) > c.maxAttempts
  {
    MonotonePrefix(ops, Attempt(k, now));
    LiveEntriesAreOpened(ops, c, k);
    DenialCounts(ops, c, k, now, Run(ops, c).entries[k]);
  }

  /** `new` accepts a window below one millisecond, and such a limiter denies nothing. */
  lemma SubMillisecondWindowNeverDenies(ops: seq<Op>, c: Config, k: Digest, now: Timestamp)
    requires c.Valid() && c.window == 0 && Monotone(ops + [Attempt(k, now)])
    ensures Allows(Run(ops, c), k, now, c)
  {
    hide Run;
    if !Allows(Run(ops, c), k, now, c) {
      DeniedOnlyAfterTooMany(ops, c, k, now);
      NoneLater(ops + [Attempt(k, now)], k, now + 1);
    }
  }

  lemma {:induction false} NoneLater(ops: seq<Op>, k: Digest, from: int)
    requires forall i :: 0 <= i < |ops| && ops[i].Attempt? ==> ops[i].now < from
    ensures CountSince(ops, k, from) == 0
  {
    if ops != [] { NoneLater(ops[..|ops| - 1], k, from); }
  }

  /** The attempts of `k` among `ops[i..j]` that were allowed. */
  function AllowedBetween(ops: seq<Op>, c: Config, k: Digest, i: nat, j: nat): nat
    requires i <= j <= |ops|
    decreases j
  {
    if i == j then 0
    else
      var op := ops[j - 1];
      AllowedBetween(ops, c, k, i, j - 1)
        + if op.Attempt? && op.key == k && Allows(Run(ops[..j - 1], c), k, op.now, c) then 1 else 0
  }

  ghost predicate SameWindow(a: Rate, b: Rate, k: Digest) {
    k in a.entries && k in b.entries && a.entries[k].windowEnd == b.entries[k].windowEnd
  }

  /** From `i` to `j` the key is neither evicted nor reset and stays in one window. */
  ghost predicate OneWindow(ops: seq<Op>, c: Config, k: Digest, i: nat, j: nat)
    requires i <= j <= |ops|
  {
    forall m :: i <= m <= j ==> SameWindow(Run(ops[..i], c), Run(ops[..m], c), k)
  }

  function CappedAttempts(r: Rate, c: Config, k: Digest): int {
    if k in r.entries then Min(r.entries[k].attempts, c.maxAttempts) else 0
  }

  /** One operation within a window: the capped counter grows by one exactly when it allows an attempt. */
  lemma CappedGrowth(ops: seq<Op>, c: Config, k: Digest, j: nat)
    requires c.Valid() && c.window >= 1 && c.maxAttempts < U32_MAX && 0 < j <= |ops|
    requires SameWindow(Run(ops[..j - 1], c), Run(ops[..j], c), k)
    ensures CappedAttempts(Run(ops[..j], c), c, k) == CappedAttempts(Run(ops[..j - 1], c), c, k)
      + if ops[j - 1].Attempt? && ops[j - 1].key == k && Allows(Run(ops[..j - 1], c), k, ops[j - 1].now, c)
        then 1 else 0
  {
    assert ops[..j][..j - 1] == ops[..j - 1];
    RunIsValid(ops[..j - 1], c);
    if ops[j - 1].Attempt? {
      IncrementIsValid(Run(ops[..j - 1], c), ops[j - 1].key, ops[j - 1].now, c);
    }
  }

  /** The counter saturates at the limit `u32::MAX` and never exceeds it. */
  lemma HighestLimitNeverDenies(r: Rate, k: Digest, now: int, c: Config)
    requires c.maxAttempts >= U32_MAX
    ensures Allows(r, k, now, c)
  {
  }

  predicate Limits(c: Config) { c.window >= 1 && c.maxAttempts < U32_MAX }

  /** What callers do: a check counts its account and its network, a success resets the account. */
  datatype Call = Checked(account: Digest, network: Digest, now: Timestamp) | Succeeded(account: Digest)

  function OpsOf(calls: seq<Call>): seq<Op> {
    if calls == [] then []
    else
      var last := calls[|calls| - 1];
      OpsOf(calls[..|calls| - 1])
      + if last.Checked? then [Attempt(last.account, last.now), Attempt(last.network, last.now)]
        else [Success(last.account)]
  }

  /** The answer of `check` in a state. */
  predicate CheckAllows(r: Rate, account: Digest, network: Digest, now: int, c: Config) {
    Allows(r, account, now, c) && Allows(Increment(r, account, now, c), network, now, c)
  }

  /** After these calls, under a clock that does not go back, the next check is denied. */
  ghost predicate Denies(calls: seq<Call>, c: Config, account: Digest, network: Digest, now: Timestamp) {
    && Monotone(OpsOf(calls + [Checked(account, network, now)]))
    && !CheckAllows(Run(OpsOf(calls), c), account, network, now, c)
  }

  function Burst(account: Digest, network: Digest, n: nat): seq<Call> { seq(n, _ => Checked(account, network, 0)) }

  lemma RunCheck(ops: seq<Op>, c: Config, account: Digest, network: Digest, now: Timestamp)
    ensures Run(ops + [Attempt(account, now), Attempt(network, now)], c) ==
            Increment(Increment(Run(ops, c), account, now, c), network, now, c)
  {
    var one := ops + [Attempt(account, now)];
    var both := ops + [Attempt(account, now), Attempt(network, now)];
    assert both[..|both| - 1] == one && one[..|one| - 1] == ops;
  }

  /** One check counts its account once, and the network does not push it out. */
  lemma CheckCounts(r: Rate, c: Config, account: Digest, network: Digest, now: int)
    requires c.Valid() && Valid(r, c.capacity) && account != network
    ensures
      var u := Increment(Increment(r, account, now, c), network, now, c);
      Valid(u, c.capacity) && account in u.entries && u.entries[account] == Counted(r, account, now, c)
  {
    IncrementIsValid(r, account, now, c);
    var t := Increment(r, account, now, c);
    IncrementIsValid(t, network, now, c);
    IncrementKeepsRecent(t, network, now, c, account, 1);
  }

  lemma {:induction false} BurstCounts(c: Config, account: Digest, network: Digest, n: nat)
    requires c.Valid() && c.window >= 1 && 1 <= n <= U32_MAX && account != network
    ensures
      var r := Run(OpsOf(Burst(account, network, n)), c);
      && account in r.entries && r.entries[account].attempts == n
      && r.entries[account].windowEnd == OpenWindow(0, c.window)
  {
    var calls, rest := Burst(account, network, n), Burst(account, network, n - 1);
    assert calls[..n - 1] == rest && calls[n - 1] == Checked(account, network, 0);
    RunIsValid(OpsOf(rest), c);
    RunCheck(OpsOf(rest), c, account, network, 0);
    CheckCounts(Run(OpsOf(rest), c), c, account, network, 0);
    if n == 1 {
      assert rest == [];
    } else {
      BurstCounts(c, account, network, n - 1);
    }
  }

  lemma {:induction false} BurstIsMonotone(account: Digest, network: Digest, n: nat)
    ensures forall i :: 0 <= i < |OpsOf(Burst(account, network, n))| ==>
      OpsOf(Burst(account, network, n))[i].Attempt? && OpsOf(Burst(account, network, n))[i].now == 0
  {
    if n > 0 {
      var calls := Burst(account, network, n);
      assert calls[..n - 1] == Burst(account, network, n - 1) && calls[n - 1] == Checked(account, network, 0);
      BurstIsMonotone(account, network, n - 1);
    }
  }

  /** A configuration that `new` accepts can deny a check at all if and only if its window is at least a millisecond
      and its limit is below `u32::MAX`. */
  lemma DenialIsPossibleExactly(c: Config)
    requires c.Valid()
    ensures Limits(c) <==> exists calls, account, network, now: Timestamp :: Denies(calls, c, account, network, now)
  {
    if Limits(c) {
      var n := c.maxAttempts;
      BurstCounts(c, 0, 1, n);
      BurstIsMonotone(0, 1, n + 1);
      assert Burst(0, 1, n) + [Checked(0, 1, 0)] == Burst(0, 1, n + 1);
      assert Denies(Burst(0, 1, n), c, 0, 1, 0);
    } else {
      forall calls, account, network, now: Timestamp | Monotone(OpsOf(calls + [Checked(account, network, now)]))
        ensures CheckAllows(Run(OpsOf(calls), c), account, network, now, c)
      {
        NeverDeniesCheck(calls, c, account, network, now);
      }
    }
  }

  lemma NeverDeniesCheck(calls: seq<Call>, c: Config, account: Digest, network: Digest, now: Timestamp)
    requires c.Valid() && !Limits(c) && Monotone(OpsOf(calls + [Checked(account, network, now)]))
    ensures CheckAllows(Run(OpsOf(calls), c), account, network, now, c)
  {
    var ops, one := OpsOf(calls), OpsOf(calls) + [Attempt(account, now)];
    assert (calls + [Checked(account, network, now)])[..|calls|] == calls;
    assert OpsOf(calls + [Checked(account, network, now)]) == one + [Attempt(network, now)];
    MonotonePrefix(one, Attempt(network, now));
    NeverDenies(ops, c, account, now);
    NeverDenies(one, c, network, now);
    assert one[..|ops|] == ops;
  }

  lemma NeverDenies(ops: seq<Op>, c: Config, k: Digest, now: Timestamp)
    requires c.Valid() && !Limits(c) && Monotone(ops + [Attempt(k, now)])
    ensures Allows(Run(ops, c), k, now, c)
  {
    if c.window == 0 {
      SubMillisecondWindowNeverDenies(ops, c, k, now);
    } else {
      HighestLimitNeverDenies(Run(ops, c), k, now, c);
    }
  }

  /** All attempts of `k` among `ops[i..j]`. */
  function AttemptsBetween(ops: seq<Op>, k: Digest, i: nat, j: nat): nat
    requires i <= j <= |ops|
    decreases j
  {
    if i == j then 0
    else AttemptsBetween(ops, k, i, j - 1) + if ops[j - 1].Attempt? && ops[j - 1].key == k then 1 else 0
  }

  lemma {:induction false} CounterGrows(ops: seq<Op>, c: Config, k: Digest, i: nat, j: nat)
    requires c.Valid() && Limits(c) && i <= j <= |ops| && OneWindow(ops, c, k, i, j)
    ensures SameWindow(Run(ops[..i], c), Run(ops[..j], c), k)
    ensures AllowedBetween(ops, c, k, i, j)
      == CappedAttempts(Run(ops[..j], c), c, k) - CappedAttempts(Run(ops[..i], c), c, k)
    decreases j
  {
    hide Run;
    assert SameWindow(Run(ops[..i], c), Run(ops[..j], c), k);
    if i < j {
      assert SameWindow(Run(ops[..i], c), Run(ops[..j - 1], c), k);
      CounterGrows(ops, c, k, i, j - 1);
      CappedGrowth(ops, c, k, j);
    }
  }

  lemma {:induction false} AllAllowed(ops: seq<Op>, c: Config, k: Digest, i: nat, j: nat)
    requires c.Valid() && !Limits(c) && Monotone(ops) && i <= j <= |ops|
    ensures AllowedBetween(ops, c, k, i, j) == AttemptsBetween(ops, k, i, j)
    decreases j
  {
    if i < j {
      AllAllowed(ops, c, k, i, j - 1);
      if ops[j - 1].Attempt? && ops[j - 1].key == k {
        assert ops[..j] == ops[..j - 1] + [Attempt(k, ops[j - 1].now)];
        NeverDenies(ops[..j - 1], c, k, ops[j - 1].now);
      }
    }
  }

  /** While a key stays in one window, neither evicted nor reset, exactly the first `maxAttempts` of its attempts
      are allowed: the number allowed between two points is the growth of its counter, cut off at `maxAttempts`.
      A configuration that cannot deny allows them all. */
  lemma OneWindowAllowsExactly(ops: seq<Op>, c: Config, k: Digest, i: nat, j: nat)
    requires c.Valid() && Monotone(ops) && i <= j <= |ops| && OneWindow(ops, c, k, i, j)
    ensures AllowedBetween(ops, c, k, i, j) ==
      if Limits(c) then CappedAttempts(Run(ops[..j], c), c, k) - CappedAttempts(Run(ops[..i], c), c, k)
      else AttemptsBetween(ops, k, i, j)
    ensures Limits(c) ==> AllowedBetween(ops, c, k, i, j) <= c.maxAttempts
  {
    if Limits(c) {
      CounterGrows(ops, c, k, i, j);
      hide Run;
    } else {
      AllAllowed(ops, c, k, i, j);
    }
  }

  // ---- the limiter in times ----

  /** A fixed window of a key as its callers see it: when it began, and how many attempts it has. */
  datatype Window = Window(begin: int, count: nat)

  /** The first attempt opens a window, and so does the first one that is a whole window later. */
  function Attempted(w: Option<Window>, now: int, window: nat): Window {
    if w.None? || now >= w.value.begin + window then Window(now, 1) else Window(w.value.begin, w.value.count + 1)
  }

  /** The textbook limiter, with room for every key; a success forgets the key. */
  function Ideal(ops: seq<Op>, k: Digest, window: nat): Option<Window> {
    if ops == [] then None
    else
      var before, op := Ideal(ops[..|ops| - 1], k, window), ops[|ops| - 1];
      if op == Success(k) then None
      else if op.Success? || op.key != k then before
      else Some(Attempted(before, op.now, window))
  }

  /** The key was never evicted: whenever it should be known it is. */
  ghost predicate NeverEvicted(ops: seq<Op>, c: Config, k: Digest) {
    forall i :: 0 <= i <= |ops| && Ideal(ops[..i], k, c.window).Some? ==> k in Run(ops[..i], c).entries
  }

  /** The entry counts the window of the textbook limiter and ends with it. */
  ghost predicate Follows(entries: map<Digest, RateEntry>, k: Digest, w: Option<Window>, window: nat) {
    if k !in entries then w.None?
    else
      && w.Some? && entries[k].attempts == Min(w.value.count, U32_MAX)
      && entries[k].windowEnd == Min(w.value.begin + window, I64_MAX)
  }

  lemma CountFollows(r: Rate, k: Digest, now: Timestamp, c: Config, w: Option<Window>)
    requires Follows(r.entries, k, w, c.window)
    ensures
      var counted, next := Counted(r, k, now, c), Attempted(w, now, c.window);
      counted.attempts == Min(next.count, U32_MAX) && counted.windowEnd == Min(next.begin + c.window, I64_MAX)
  {
  }

  /** A key that is never evicted is limited exactly as by the textbook limiter. */
  lemma {:induction false} FollowsIdeal(ops: seq<Op>, c: Config, k: Digest)
    requires c.Valid() && NeverEvicted(ops, c, k)
    ensures Follows(Run(ops, c).entries, k, Ideal(ops, k, c.window), c.window)
  {
    if ops != [] {
      var rest, op := ops[..|ops| - 1], ops[|ops| - 1];
      assert ops[..|ops|] == ops && (Ideal(ops, k, c.window).Some? ==> k in Run(ops[..|ops|], c).entries);
      forall i | 0 <= i <= |rest| ensures rest[..i] == ops[..i] {}
      FollowsIdeal(rest, c, k);
      RunIsValid(rest, c);
      hide NeverEvicted, Increment, Attempted, Follows, Valid;
      if op.Success? { ResetFollows(Run(rest, c), op.key, k, Ideal(rest, k, c.window), c.window); }
      if op.Attempt? { AttemptFollows(Run(rest, c), op.key, op.now, c, k, Ideal(rest, k, c.window)); }
    }
  }

  lemma ResetFollows(r: Rate, key: Digest, k: Digest, w: Option<Window>, window: nat)
    requires Follows(r.entries, k, w, window)
    ensures Follows(Reset(r, key).entries, k, if key == k then None else w, window)
  {
  }

  lemma AttemptFollows(r: Rate, key: Digest, now: Timestamp, c: Config, k: Digest, w: Option<Window>)
    requires c.Valid() && Valid(r, c.capacity) && Follows(r.entries, k, w, c.window)
    requires key != k && w.Some? ==> k in Increment(r, key, now, c).entries
    ensures
      var next := if key == k then Some(Attempted(w, now, c.window)) else w;
      Follows(Increment(r, key, now, c).entries, k, next, c.window)
  {
    IncrementIsValid(r, key, now, c);
    hide Increment, Valid, Counted;
    if key == k { CountFollows(r, k, now, c, w); }
  }

  lemma AllowsIdeally(ops: seq<Op>, c: Config, k: Digest, now: Timestamp)
    requires c.Valid() && Limits(c) && NeverEvicted(ops, c, k)
    ensures Allows(Run(ops, c), k, now, c) <==> Attempted(Ideal(ops, k, c.window), now, c.window).count <= c.maxAttempts
  {
    FollowsIdeal(ops, c, k);
    CountFollows(Run(ops, c), k, now, c, Ideal(ops, k, c.window));
  }

  /** An attempt at `i` begins a window: the key is unknown, or its last window is over. */
  predicate Begins(ops: seq<Op>, k: Digest, window: nat, i: nat)
    requires i < |ops|
  {
    && ops[i].Attempt? && ops[i].key == k
    && var w := Ideal(ops[..i], k, window);
    w.None? || ops[i].now >= w.value.begin + window
  }

  /** From `i` to `j` all attempts of the key are less than a window after the one at `i`, and none was reset. */
  ghost predicate Within(ops: seq<Op>, k: Digest, window: nat, i: nat, j: nat)
    requires i < j <= |ops| && ops[i].Attempt?
  {
    forall m :: i < m < j ==>
      ops[m] != Success(k) && (ops[m].Attempt? && ops[m].key == k ==> ops[m].now < ops[i].now + window)
  }

  lemma {:induction false} WindowCounts(ops: seq<Op>, k: Digest, window: nat, i: nat, j: nat)
    requires i < j <= |ops| && Begins(ops, k, window, i) && Within(ops, k, window, i, j)
    ensures Ideal(ops[..j], k, window) == Some(Window(ops[i].now, AttemptsBetween(ops, k, i, j)))
    decreases j
  {
    assert ops[..j][..j - 1] == ops[..j - 1];
    if j == i + 1 {
      assert AttemptsBetween(ops, k, i, i) == 0;
    } else {
      WindowCounts(ops, k, window, i, j - 1);
    }
  }

  /** In times alone: of the attempts less than a window after the one that began it exactly the first `maxAttempts`
      are allowed, and the first attempt a whole window or more after it is allowed again. */
  lemma WindowAllowsTheFirst(ops: seq<Op>, c: Config, k: Digest, i: nat, j: nat)
    requires c.Valid() && Limits(c) && i < j < |ops| && Begins(ops, k, c.window, i) && Within(ops, k, c.window, i, j)
    requires NeverEvicted(ops[..j], c, k) && ops[j].Attempt? && ops[j].key == k
    ensures Allows(Run(ops[..j], c), k, ops[j].now, c) <==>
      (ops[j].now >= ops[i].now + c.window || AttemptsBetween(ops, k, i, j + 1) <= c.maxAttempts)
  {
    WindowCounts(ops, k, c.window, i, j);
    AllowsIdeally(ops[..j], c, k, ops[j].now);
    hide Run, Ideal, Allows;
  }

  /** The attempt that begins a window is allowed. */
  lemma BeginningIsAllowed(ops: seq<Op>, c: Config, k: Digest, i: nat)
    requires c.Valid() && Limits(c) && i < |ops| && Begins(ops, k, c.window, i) && NeverEvicted(ops[..i], c, k)
    ensures Allows(Run(ops[..i], c), k, ops[i].now, c)
  {
    AllowsIdeally(ops[..i], c, k, ops[i].now);
  }

  // ---- the objects ----

  class RateState {
    var entries: map<Digest, RateEntry>
    var order: seq<(Digest, nat)>
    var generation: nat
    const capacity: nat

    ghost function Value(): Rate reads this { Rate(entries, order, generation) }

    constructor (capacity: nat)
      ensures this.capacity == capacity && Value() == EMPTY
    {
      this.capacity := capacity;
      entries, order, generation := map[], [], 1;
    }

    method EvictOldest()
      modifies this
      ensures Value() == Evict(old(Value()))
    {
      if order != [] {
        var (key, generation) := order[0];
        order := order[1..];
        if key in entries && entries[key].generation == generation {
          entries := entries - {key};
        }
      }
    }

    /** `increment` up to its eviction loops. */
    method Count(key: Digest, now: Timestamp, c: Config) returns (allowed: bool)
      requires 1 <= generation <= GENERATIONS
      modifies this
      ensures Value() == Touch(old(Value()), key, now, c) && allowed == Allows(old(Value()), key, now, c)
    {
      var g := generation;
      generation := if generation == GENERATIONS then 1 else generation + 1;
      var entry := if key in entries then entries[key] else RateEntry(0, OpenWindow(now, c.window), g);
      if now >= entry.windowEnd {
        entry := entry.(attempts := 0, windowEnd := OpenWindow(now, c.window));
      }
      entry := entry.(attempts := Min(entry.attempts + 1, U32_MAX), generation := g);
      entries := entries[key := entry];
      allowed := entry.attempts <= c.maxAttempts;
      order := order + [(key, g)];
    }

    method Bump(key: Digest, now: Timestamp, c: Config) returns (allowed: bool)
      requires c.Valid() && c.capacity == capacity && Valid(Value(), capacity)
      modifies this
      ensures Value() == Increment(old(Value()), key, now, c) && allowed == Allows(old(Value()), key, now, c)
      ensures Valid(Value(), capacity) && key in entries
    {
      ghost var before := Value();
      allowed := Count(key, now, c);
      TouchIsSound(before, key, now, c);
      while |entries| > capacity
        invariant Sound(Value())
        invariant TrimEntries(Value(), capacity) == TrimEntries(Touch(before, key, now, c), capacity)
        decreases |order|
      {
        EntriesAreQueued(Value());
        EvictIsSound(Value());
        EvictOldest();
      }
      TrimEntriesIsSound(Touch(before, key, now, c), capacity);
      while |order| > 2 * capacity
        invariant TrimOrder(Value(), capacity) == Increment(before, key, now, c)
        decreases |order|
      {
        EvictOldest();
      }
      IncrementIsValid(before, key, now, c);
    }
  }

  class LoginRateLimiter {
    const config: Config
    const state: RateState

    constructor (config: Config)
      requires config.Valid()
      ensures this.config == config && fresh(state) && state.Value() == EMPTY && state.capacity == config.capacity
    {
      this.config := config;
      state := new RateState(config.capacity);
    }

    ghost predicate Ready() reads state {
      config.Valid() && state.capacity == config.capacity && Valid(state.Value(), config.capacity)
    }

    /** Both keys are counted even when the account is already denied, and both stay counted. */
    method Check(account: Digest, network: Digest, now: Timestamp) returns (allowed: bool)
      requires Ready()
      modifies state
      ensures Ready()
      ensures state.Value() ==
        Increment(Increment(old(state.Value()), account, now, config), network, now, config)
      ensures allowed ==
        (Allows(old(state.Value()), account, now, config)
         && Allows(Increment(old(state.Value()), account, now, config), network, now, config))
      ensures account in state.entries && network in state.entries
    {
      ghost var before := state.Value();
      var accountAllowed := state.Bump(account, now, config);
      IncrementIsValid(before, account, now, config);
      if account != network {
        IncrementKeepsRecent(state.Value(), network, now, config, account, 1);
      }
      var networkAllowed := state.Bump(network, now, config);
      allowed := accountAllowed && networkAllowed;
    }

    method Succeed(account: Digest)
      requires Ready()
      modifies state
      ensures Ready() && state.Value() == Reset(old(state.Value()), account)
    {
      ResetIsValid(state.Value(), account, config.capacity);
      state.entries := state.entries - {account};
    }
  }
}
