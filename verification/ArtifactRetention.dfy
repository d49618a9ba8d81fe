/** The retention pass of `artifact_retention.rs` over a store that other writers use at the same time.

    What the others do is an arbitrary script: before each storage call the store takes the next tick of
    the script, which publishes bundles and may make the call fail. Every interleaving of whole store
    calls is some script, and the empty script is the undisturbed run. */
module ArtifactRetention {
  import opened Common
  import opened RetentionPolicy

  datatype StoreError = NotFound | Unavailable
  datatype Result<+T> = Ok(value: T) | Err(error: StoreError)
  datatype Tick = Tick(publish: Bundles, error: Option<StoreError>)
  datatype Mode = Off | Report | Enforce

  /** A bundle as a page shows it. */
  datatype Listed = Listed(id: BundleId, bundle: Bundle) {
    function Position(): Position { (bundle.uploadedAt, id) }
  }

  /** A binding that was removed, with the store right before the removal. */
  datatype Removal = Removal(id: BundleId, binding: Binding, at: Bundles)

  /** A call to the stores, and the error it ended with as the pass sees it. */
  datatype Request =
    | AllProjects
    | BundlesOf(project: ProjectId)
    | ReleaseOf(release: ReleaseId)
    | Removing(id: BundleId)

  datatype Call = Call(request: Request, error: Option<StoreError>)

  datatype Counts = Counts(bundles: nat, staleBundles: nat, staleBindings: nat, removedBindings: nat)

  predicate Below(before: Option<Position>, position: Position) {
    before.None? || Less(position, before.value)
  }

  /** Publishing again moves the upload time forward only and adds bindings. */
  function Published(s: Bundles, fresher: Bundles): Bundles {
    map id | id in s.Keys + fresher.Keys ::
      if id !in fresher then s[id]
      else if id !in s then fresher[id]
      else Bundle(if s[id].uploadedAt < fresher[id].uploadedAt then fresher[id].uploadedAt else s[id].uploadedAt,
                  s[id].bindings + fresher[id].bindings)
  }

  ghost predicate Grew(s: Bundles, t: Bundles) {
    forall id :: id in s ==> id in t && s[id].uploadedAt <= t[id].uploadedAt && s[id].bindings <= t[id].bindings
  }

  /** From `s` to `t` time went forward and every lost binding is one of the logged removals. */
  ghost predicate Explained(s: Bundles, t: Bundles, log: seq<Removal>) {
    forall id :: id in s ==>
      id in t && s[id].uploadedAt <= t[id].uploadedAt && LostIsLogged(s[id].bindings, t[id].bindings, log, id)
  }

  ghost predicate LostIsLogged(before: set<Binding>, after: set<Binding>, log: seq<Removal>, id: BundleId) {
    forall x :: x in before ==> x in after || Logged(log, id, x)
  }

  ghost predicate Logged(log: seq<Removal>, id: BundleId, x: Binding) {
    exists i :: 0 <= i < |log| && log[i].id == id && log[i].binding == x
  }

  lemma ExplainedStep(s: Bundles, t: Bundles, u: Bundles, log: seq<Removal>, more: seq<Removal>)
    requires Explained(s, t, log) && Explained(t, u, log + more)
    ensures Explained(s, u, log + more)
  {
    forall id, x | id in s && x in s[id].bindings ensures x in u[id].bindings || Logged(log + more, id, x) {
      if Logged(log, id, x) {
        var i :| 0 <= i < |log| && log[i].id == id && log[i].binding == x;
        assert (log + more)[i] == log[i];
      }
    }
  }

  /** What `project_bundles` returns: the newest `limit` bundles of the project below the position. */
  ghost predicate IsPage(s: Bundles, p: ProjectId, before: Option<Position>, limit: nat, page: seq<Listed>) {
    && |page| <= limit
    && (forall i :: 0 <= i < |page| ==>
          && page[i].id in s && page[i].bundle == s[page[i].id]
          && Binds(page[i].bundle, p) && Below(before, page[i].Position()))
    && Descending(page)
    && (forall id :: id in s && Binds(s[id], p) && Below(before, PositionOf(s, id)) && !Lists(page, id) ==>
          |page| == limit && forall i :: 0 <= i < |page| ==> Less(PositionOf(s, id), page[i].Position()))
  }

  ghost predicate Descending(page: seq<Listed>) {
    forall i, j :: 0 <= i < j < |page| ==> Less(page[j].Position(), page[i].Position())
  }

  ghost predicate Lists(page: seq<Listed>, id: BundleId) {
    exists i :: 0 <= i < |page| && page[i].id == id
  }

  method Newest(s: Bundles, ids: set<BundleId>) returns (id: BundleId)
    requires ids != {} && ids <= s.Keys
    ensures id in ids && forall y :: y in ids && y != id ==> Less(PositionOf(s, y), PositionOf(s, id))
  {
    id :| id in ids;
    var rest := ids - {id};
    while rest != {}
      invariant id in ids && rest <= ids && id !in rest
      invariant forall y :: y in ids && y != id && y !in rest ==> Less(PositionOf(s, y), PositionOf(s, id))
      decreases rest
    {
      var y :| y in rest;
      if Less(PositionOf(s, id), PositionOf(s, y)) { id := y; }
      rest := rest - {y};
    }
  }

  /** `page` lists the newest of `all`, and `rest` is what it does not list yet. */
  ghost predicate Selected(s: Bundles, all: set<BundleId>, rest: set<BundleId>, page: seq<Listed>) {
    && all <= s.Keys && rest <= all && Descending(page)
    && (forall i :: 0 <= i < |page| ==> page[i].id in all && page[i].bundle == s[page[i].id])
    && (forall id :: id in all && id !in rest ==> Lists(page, id))
    && (forall id, i :: id in rest && 0 <= i < |page| ==> Less(PositionOf(s, id), page[i].Position()))
  }

  lemma SelectOne(s: Bundles, all: set<BundleId>, rest: set<BundleId>, page: seq<Listed>, id: BundleId)
    requires Selected(s, all, rest, page)
    requires id in rest && forall y :: y in rest && y != id ==> Less(PositionOf(s, y), PositionOf(s, id))
    ensures Selected(s, all, rest - {id}, page + [Listed(id, s[id])])
  {
    var longer := page + [Listed(id, s[id])];
    assert longer[|page|].id == id;
    forall y | y in all && y !in rest - {id} ensures Lists(longer, y) {
      if y != id { ListsMore(page, longer, y); }
    }
  }

  lemma ListsMore(page: seq<Listed>, longer: seq<Listed>, id: BundleId)
    requires page <= longer && Lists(page, id)
    ensures Lists(longer, id)
  {
    var i :| 0 <= i < |page| && page[i].id == id;
    assert longer[i].id == id;
  }

  /** Filters, sorts and truncates. */
  method SelectPage(s: Bundles, p: ProjectId, before: Option<Position>, limit: nat) returns (page: seq<Listed>)
    ensures IsPage(s, p, before, limit, page)
  {
    var all := set id | id in s && Binds(s[id], p) && Below(before, PositionOf(s, id));
    var rest := all;
    page := [];
    while |page| < limit && rest != {}
      invariant |page| <= limit && Selected(s, all, rest, page)
      decreases rest
    {
      var id := Newest(s, rest);
      SelectOne(s, all, rest, page, id);
      page := page + [Listed(id, s[id])];
      rest := rest - {id};
    }
  }

  ghost predicate IsListingOf(items: seq<ProjectId>, all: set<ProjectId>) {
    && (forall p :: p in items <==> p in all)
    && (forall i, j :: 0 <= i < j < |items| ==> items[i] != items[j])
  }

  method ListProjects(all: set<ProjectId>) returns (items: seq<ProjectId>)
    ensures IsListingOf(items, all)
  {
    items := [];
    var rest := all;
    while rest != {}
      invariant rest <= all && IsListingOf(items, all - rest)
      decreases rest
    {
      var p :| p in rest;
      items := items + [p];
      rest := rest - {p};
    }
  }

  class ArtifactStore {
    var bundles: Bundles
    var script: seq<Tick>
    ghost var removals: seq<Removal>
    ghost var listed: seq<Listed>
    ghost var calls: seq<Call>

    constructor (bundles: Bundles, script: seq<Tick>)
      ensures this.bundles == bundles && this.script == script && removals == [] && listed == [] && calls == []
    {
      this.bundles, this.script, removals, listed, calls := bundles, script, [], [], [];
    }

    /** Lets the others act. Any failure to load a release is one answer to the pass. */
    method Advance(request: Request) returns (error: Option<StoreError>)
      modifies `bundles, `script, `calls
      ensures removals == old(removals) && Grew(old(bundles), bundles)
      ensures calls == old(calls) + [Call(request, error)]
      ensures old(script) == [] ==> error.None? && bundles == old(bundles) && script == []
      ensures old(script) != [] ==>
        && |script| < |old(script)| && error.Some? == old(script)[0].error.Some?
        && (error.Some? ==> error.value == if request.ReleaseOf? then Unavailable else old(script)[0].error.value)
    {
      error := None;
      if script != [] {
        if script[0].error.Some? {
          error := Some(if request.ReleaseOf? then Unavailable else script[0].error.value);
        }
        bundles := Published(bundles, script[0].publish);
        script := script[1..];
      }
      calls := calls + [Call(request, error)];
    }

    method ProjectBundles(p: ProjectId, before: Option<Position>, limit: nat) returns (r: Result<seq<Listed>>)
      modifies this
      ensures removals == old(removals) && Grew(old(bundles), bundles)
      ensures listed == old(listed) + if r.Ok? then r.value else []
      ensures calls == old(calls) + [Call(BundlesOf(p), if r.Err? then Some(r.error) else None)]
      ensures old(script) == [] ==> r.Ok? && bundles == old(bundles) && script == []
      ensures old(script) != [] ==> |script| < |old(script)|
      ensures r.Ok? ==> IsPage(bundles, p, before, limit, r.value)
    {
      var error := Advance(BundlesOf(p));
      if error.Some? { return Err(error.value); }
      var page := SelectPage(bundles, p, before, limit);
      listed := listed + page;
      return Ok(page);
    }

    method BoundProjects() returns (r: Result<seq<ProjectId>>)
      modifies `bundles, `script, `calls
      ensures calls == old(calls) + [Call(AllProjects, if r.Err? then Some(r.error) else None)]
      ensures Grew(old(bundles), bundles) && |script| <= |old(script)|
      ensures old(script) == [] ==> r.Ok? && bundles == old(bundles) && script == []
      ensures r.Ok? ==> IsListingOf(r.value, Projects(bundles))
    {
      var error := Advance(AllProjects);
      if error.Some? { return Err(error.value); }
      var projects := ListProjects(set id, x | id in bundles && x in bundles[id].bindings :: x.project);
      return Ok(projects);
    }

    /** Removes the binding while the bundle keeps the upload time the caller saw. */
    method RemoveBinding(id: BundleId, x: Binding, uploadedAt: Timestamp) returns (r: Result<bool>, ghost at: Bundles)
      modifies `bundles, `script, `removals, `calls
      ensures calls == old(calls) + [Call(Removing(id), if r.Err? then Some(r.error) else None)]
      ensures Grew(old(bundles), at) && |script| <= |old(script)|
      ensures old(script) == [] ==> r.Ok? && at == old(bundles) && script == []
      ensures
        var applies := r.Ok? && id in at && at[id].uploadedAt == uploadedAt && x in at[id].bindings;
        && (r.Ok? ==> r.value == applies)
        && bundles == (if applies then at[id := at[id].(bindings := at[id].bindings - {x})] else at)
        && removals == old(removals) + (if applies then [Removal(id, x, at)] else [])
    {
      var error := Advance(Removing(id));
      at := bundles;
      if error.Some? { return Err(error.value), at; }
      if id in bundles && bundles[id].uploadedAt == uploadedAt && x in bundles[id].bindings {
        removals := removals + [Removal(id, x, bundles)];
        bundles := bundles[id := bundles[id].(bindings := bundles[id].bindings - {x})];
        return Ok(true), at;
      }
      return Ok(false), at;
    }
  }

  // ---- what a pass keeps, whatever the others do ----

  /** Each removal in the log beyond the first `from` was of a binding stale in the store at that moment. */
  ghost predicate Justified(log: seq<Removal>, from: nat, p: ProjectId, policy: Policy) {
    forall i :: from <= i < |log| ==> Stale(log[i].at, p, policy, log[i].id, log[i].binding)
  }

  ghost predicate Progress(s: Bundles, log: seq<Removal>, t: Bundles, longer: seq<Removal>, p: ProjectId,
                           policy: Policy) {
    log <= longer && Justified(longer, |log|, p, policy) && Explained(s, t, longer[|log|..])
  }

  lemma ProgressStep(s: Bundles, a: seq<Removal>, t: Bundles, b: seq<Removal>, u: Bundles, c: seq<Removal>,
                     p: ProjectId, policy: Policy)
    requires Progress(s, a, t, b, p, policy) && Progress(t, b, u, c, p, policy)
    ensures Progress(s, a, u, c, p, policy)
  {
    assert c[|a|..] == b[|a|..] + c[|b|..];
    forall i | |a| <= i < |c| ensures Stale(c[i].at, p, policy, c[i].id, c[i].binding) {
      if i < |b| { assert c[i] == b[i]; }
    }
    ExplainedMore(t, u, c[|b|..], b[|a|..] + c[|b|..]);
    ExplainedStep(s, t, u, b[|a|..], c[|b|..]);
  }

  lemma ExplainedMore(s: Bundles, t: Bundles, log: seq<Removal>, more: seq<Removal>)
    requires Explained(s, t, log) && forall i :: 0 <= i < |log| ==> log[i] in more
    ensures Explained(s, t, more)
  {
    forall id, x | id in s && x in s[id].bindings && x !in t[id].bindings ensures Logged(more, id, x) {
      assert LostIsLogged(s[id].bindings, t[id].bindings, log, id);
      var i :| 0 <= i < |log| && log[i].id == id && log[i].binding == x;
      var j :| 0 <= j < |more| && more[j] == log[i];
    }
  }

  lemma GrowthIsProgress(s: Bundles, log: seq<Removal>, t: Bundles, p: ProjectId, policy: Policy)
    requires Grew(s, t)
    ensures Progress(s, log, t, log, p, policy)
  {
  }

  /** `keepers` are `keepLatest` bundles of the project above the listed position of `item`. */
  ghost predicate Guarded(s: Bundles, p: ProjectId, item: Listed, keepers: set<BundleId>, keepLatest: nat) {
    && |keepers| >= keepLatest
    && forall k :: k in keepers ==> k != item.id && k in s && Binds(s[k], p) && Less(item.Position(), PositionOf(s, k))
  }

  lemma GuardedGrows(s: Bundles, t: Bundles, p: ProjectId, item: Listed, keepers: set<BundleId>, keepLatest: nat)
    requires Guarded(s, p, item, keepers, keepLatest) && GrewExcept(s, t, item.id)
    ensures Guarded(t, p, item, keepers, keepLatest)
  {
    forall k | k in keepers ensures Binds(t[k], p) {
      var x :| x in s[k].bindings && x.project == p;
      assert x in t[k].bindings;
    }
  }

  lemma GuardedIsStale(s: Bundles, p: ProjectId, policy: Policy, item: Listed, keepers: set<BundleId>, x: Binding)
    requires Guarded(s, p, item, keepers, policy.keepLatest)
    requires item.id in s && s[item.id].uploadedAt == item.bundle.uploadedAt < policy.cutoff
    requires x in s[item.id].bindings && x.project == p && !Active(policy, x)
    ensures Stale(s, p, policy, item.id, x)
  {
    SubsetCardinality(keepers, Newer(s, p, item.id));
  }

  /** Everything but one bundle only grew, and that one kept its upload time moving forward. */
  ghost predicate GrewExcept(s: Bundles, t: Bundles, id: BundleId) {
    forall y :: y in s ==>
      y in t && s[y].uploadedAt <= t[y].uploadedAt && (y != id ==> s[y].bindings <= t[y].bindings)
  }

  /** Nothing changed but bindings that went away. */
  ghost predicate Shrunk(s: Bundles, t: Bundles) {
    && s.Keys == t.Keys
    && forall id :: id in s ==> t[id].uploadedAt == s[id].uploadedAt && t[id].bindings <= s[id].bindings
  }

  lemma ShrunkStep(s: Bundles, t: Bundles, u: Bundles)
    ensures Shrunk(s, t) && Shrunk(t, u) ==> Shrunk(s, u)
  {
  }

  lemma RemovedOneMore(start: Bundles, item: Listed, before: set<Binding>, x: Binding)
    ensures
      var s := start[item.id := item.bundle.(bindings := item.bundle.bindings - before)];
      s[item.id := s[item.id].(bindings := s[item.id].bindings - {x})]
        == start[item.id := item.bundle.(bindings := item.bundle.bindings - (before + {x}))]
  {
    assert item.bundle.bindings - before - {x} == item.bundle.bindings - (before + {x});
  }

  lemma GrewExceptStep(s: Bundles, t: Bundles, u: Bundles, id: BundleId)
    requires GrewExcept(s, t, id) && GrewExcept(t, u, id)
    ensures GrewExcept(s, u, id)
  {
  }

  /** The project's bindings of a bundle that no active release keeps. */
  function Removable(policy: Policy, p: ProjectId, b: Bundle): set<Binding> {
    set x | x in b.bindings && x.project == p && !Active(policy, x)
  }

  type Cache = map<ReleaseId, Option<Option<Timestamp>>>

  /** `None` marks a release that does not exist. */
  function Lookup(policy: Policy, release: ReleaseId): Option<Option<Timestamp>> {
    if release in policy.releases then Some(policy.releases[release]) else None
  }

  ghost predicate CacheValid(policy: Policy, cache: Cache) {
    forall r :: r in cache ==> cache[r] == Lookup(policy, r)
  }

  /** Since `before` all calls succeeded, or the last one alone did not, with this error. */
  ghost predicate Ended(before: seq<Call>, calls: seq<Call>, error: Option<StoreError>) {
    && before <= calls
    && (forall i :: |before| <= i < |calls| ==> !calls[i].request.AllProjects?)
    && (forall i :: |before| <= i < |calls| - 1 ==> calls[i].error.None?)
    && if error.None? then |before| < |calls| ==> calls[|calls| - 1].error.None?
       else |before| < |calls| && calls[|calls| - 1].error == error
  }

  function Failure<T>(r: Result<T>): Option<StoreError> { if r.Err? then Some(r.error) else None }

  lemma EndedStep(a: seq<Call>, b: seq<Call>, c: seq<Call>, error: Option<StoreError>)
    requires Ended(a, b, None) && Ended(b, c, error)
    ensures Ended(a, c, error)
  {
    forall i | |a| <= i < |c| ensures !c[i].request.AllProjects? && (i < |c| - 1 ==> c[i].error.None?) {
      if i < |b| { assert c[i] == b[i]; }
    }
    if |c| == |b| { assert c == b; }
  }

  lemma EndedGrows(before: seq<Call>, calls: seq<Call>, error: Option<StoreError>)
    requires Ended(before, calls, error)
    ensures before <= calls
  {
  }

  /** The project's bundles were asked for since. */
  ghost predicate Asked(before: seq<Call>, calls: seq<Call>, p: ProjectId) {
    exists i :: |before| <= i < |calls| && calls[i].request == BundlesOf(p)
  }

  lemma NotEnded(calls: seq<Call>)
    ensures Ended(calls, calls, None)
  {
  }

  lemma EndedNow(calls: seq<Call>, call: Call)
    requires !call.request.AllProjects?
    ensures Ended(calls, calls + [call], call.error)
  {
  }

  /** An error that ends a pass: a project that is not there any more is passed over instead. */
  predicate Fatal(call: Call) { call.error.Some? && (call.request.AllProjects? || call.error.value != NotFound) }

  ghost predicate NoneFatal(before: seq<Call>, calls: seq<Call>) {
    before <= calls && forall i :: |before| <= i < |calls| ==> !Fatal(calls[i])
  }

  /** The last call alone ended the pass, with this error. */
  ghost predicate Died(before: seq<Call>, calls: seq<Call>, error: StoreError) {
    && |before| < |calls| && NoneFatal(before, calls[..|calls| - 1])
    && Fatal(calls[|calls| - 1]) && calls[|calls| - 1].error == Some(error)
  }

  lemma FatalStep(a: seq<Call>, b: seq<Call>, c: seq<Call>, error: Option<StoreError>)
    requires NoneFatal(a, b) && Ended(b, c, error)
    ensures if error.None? || error.value == NotFound then NoneFatal(a, c) else Died(a, c, error.value)
  {
    forall i | |a| <= i < |c| ensures i < |c| - 1 ==> !Fatal(c[i]) {
      if i < |b| { assert c[i] == b[i]; }
    }
    if error.None? || error.value == NotFound {
      forall i | |a| <= i < |c| ensures !Fatal(c[i]) {
        if i < |b| { assert c[i] == b[i]; }
      }
    } else {
      var d := c[..|c| - 1];
      forall i | |a| <= i < |d| ensures !Fatal(d[i]) { assert d[i] == c[i]; }
    }
  }

  lemma AskedStays(before: seq<Call>, calls: seq<Call>, more: seq<Call>, p: ProjectId)
    requires Asked(before, calls, p) && calls <= more
    ensures Asked(before, more, p)
  {
    var i :| |before| <= i < |calls| && calls[i].request == BundlesOf(p);
    assert more[i] == calls[i];
  }

  lemma AskedEarlier(before: seq<Call>, later: seq<Call>, calls: seq<Call>, p: ProjectId)
    requires Asked(later, calls, p) && |before| <= |later|
    ensures Asked(before, calls, p)
  {
  }

  class Retention {
    const store: ArtifactStore
    const policy: Policy
    const mode: Mode
    const pageSize: nat

    constructor (store: ArtifactStore, policy: Policy, mode: Mode, pageSize: nat)
      ensures this.store == store && this.policy == policy && this.mode == mode && this.pageSize == pageSize
    {
      this.store, this.policy, this.mode, this.pageSize := store, policy, mode, pageSize;
    }

    method LoadRelease(release: ReleaseId, cache: Cache) returns (r: Result<Option<Option<Timestamp>>>, cache': Cache)
      requires CacheValid(policy, cache)
      modifies store`bundles, store`script, store`removals, store`calls
      ensures CacheValid(policy, cache') && store.removals == old(store.removals)
      ensures Grew(old(store.bundles), store.bundles) && |store.script| <= |old(store.script)|
      ensures old(store.script) == [] ==> r.Ok? && store.bundles == old(store.bundles) && store.script == []
      ensures r.Ok? ==> r.value == Lookup(policy, release)
      ensures Ended(old(store.calls), store.calls, Failure(r))
    {
      cache' := cache;
      if release !in cache {
        var error := store.Advance(ReleaseOf(release));
        EndedNow(old(store.calls), Call(ReleaseOf(release), error));
        if error.Some? { return Err(error.value), cache'; }
        cache' := cache[release := Lookup(policy, release)];
      }
      return Ok(cache'[release]), cache';
    }

    method StaleOf(p: ProjectId, item: Listed, cache: Cache) returns (r: Result<set<Binding>>, cache': Cache)
      requires CacheValid(policy, cache)
      modifies store`bundles, store`script, store`removals, store`calls
      ensures CacheValid(policy, cache') && store.removals == old(store.removals)
      ensures Grew(old(store.bundles), store.bundles) && |store.script| <= |old(store.script)|
      ensures old(store.script) == [] ==> r.Ok? && store.bundles == old(store.bundles) && store.script == []
      ensures r.Ok? ==> r.value == Removable(policy, p, item.bundle)
      ensures Ended(old(store.calls), store.calls, Failure(r))
    {
      hide Ended;
      NotEnded(store.calls);
      cache' := cache;
      var stale: set<Binding> := {};
      var mine := set x | x in item.bundle.bindings && x.project == p;
      var rest := mine;
      while rest != {}
        invariant rest <= mine && CacheValid(policy, cache') && store.removals == old(store.removals)
        invariant Grew(old(store.bundles), store.bundles) && |store.script| <= |old(store.script)|
        invariant old(store.script) == [] ==> store.bundles == old(store.bundles) && store.script == []
        invariant Ended(old(store.calls), store.calls, None)
        invariant stale == set x | x in mine - rest && !Active(policy, x)
        decreases rest
      {
        var x :| x in rest;
        rest := rest - {x};
        var seen: Option<Option<Timestamp>> := None;
        if x.release.Some? {
          var loaded;
          ghost var before := store.calls;
          loaded, cache' := LoadRelease(x.release.value, cache');
          EndedStep(old(store.calls), before, store.calls, Failure(loaded));
          if loaded.Err? { return Err(loaded.error), cache'; }
          seen := loaded.value;
        }
        if !(seen.Some? && seen.value.Some? && seen.value.value >= policy.cutoff) {
          stale := stale + {x};
        }
      }
      return Ok(stale), cache';
    }

    /** Removes the bindings while the bundle keeps the upload time the page showed. */
    method RemoveAll(p: ProjectId, item: Listed, stale: set<Binding>, ghost keepers: set<BundleId>)
      returns (removed: nat, error: Option<StoreError>)
      requires item.bundle.uploadedAt < policy.cutoff && stale == Removable(policy, p, item.bundle)
      requires Guarded(store.bundles, p, item, keepers, policy.keepLatest)
      modifies store`bundles, store`script, store`removals, store`calls
      ensures Progress(old(store.bundles), old(store.removals), store.bundles, store.removals, p, policy)
      ensures GrewExcept(old(store.bundles), store.bundles, item.id) && |store.script| <= |old(store.script)|
      ensures removed == |store.removals| - |old(store.removals)|
      ensures Ended(old(store.calls), store.calls, error)
      ensures old(store.script) == [] ==> Shrunk(old(store.bundles), store.bundles)
      ensures old(store.script) == [] && item.id in old(store.bundles) && old(store.bundles)[item.id] == item.bundle ==>
        && error.None? && store.script == [] && removed == |stale|
        && store.bundles == old(store.bundles)[item.id := item.bundle.(bindings := item.bundle.bindings - stale)]
    {
      hide Progress, Guarded, Grew, GrewExcept, Shrunk, Ended;
      NotEnded(store.calls);
      removed, error := 0, None;
      var rest := stale;
      ghost var quiet := store.script == [] && item.id in store.bundles && store.bundles[item.id] == item.bundle;
      ghost var start, log := store.bundles, store.removals;
      NothingRemoved(start, log, p, item);
      assert stale - rest == {} && item.bundle.bindings - {} == item.bundle.bindings;
      while rest != {}
        invariant rest <= stale && |store.script| <= |old(store.script)|
        invariant Ended(old(store.calls), store.calls, None)
        invariant Progress(start, log, store.bundles, store.removals, p, policy)
        invariant GrewExcept(start, store.bundles, item.id) && removed == |store.removals| - |log|
        invariant old(store.script) == [] ==> store.script == [] && Shrunk(start, store.bundles)
        invariant Guarded(store.bundles, p, item, keepers, policy.keepLatest)
        invariant quiet ==> store.script == [] && removed == |stale - rest|
        invariant quiet ==>
          store.bundles == start[item.id := item.bundle.(bindings := item.bundle.bindings - (stale - rest))]
        decreases rest
      {
        ghost var s, l := store.bundles, store.removals;
        var x :| x in rest;
        ghost var calls := store.calls;
        var r, at := store.RemoveBinding(item.id, x, item.bundle.uploadedAt);
        EndedNow(calls, Call(Removing(item.id), Failure(r)));
        EndedStep(old(store.calls), calls, store.calls, Failure(r));
        RemovalIsProgress(s, l, at, store.bundles, store.removals, p, item, keepers, x);
        GrewExceptStep(start, s, store.bundles, item.id);
        ShrunkStep(start, s, store.bundles);
        ProgressStep(start, log, s, l, store.bundles, store.removals, p, policy);
        if r.Err? { return removed, Some(r.error); }
        ghost var before := stale - rest;
        rest := rest - {x};
        assert stale - rest == before + {x};
        if r.value { removed := removed + 1; }
        if quiet { RemovedOneMore(start, item, before, x); }
      }
      assert stale - rest == stale;
    }

    lemma NothingRemoved(s: Bundles, l: seq<Removal>, p: ProjectId, item: Listed)
      ensures Progress(s, l, s, l, p, policy) && GrewExcept(s, s, item.id) && Shrunk(s, s)
    {
    }

    lemma RemovalIsProgress(s: Bundles, l: seq<Removal>, at: Bundles, t: Bundles, l': seq<Removal>, p: ProjectId,
                            item: Listed, keepers: set<BundleId>, x: Binding)
      requires Guarded(s, p, item, keepers, policy.keepLatest) && Grew(s, at)
      requires item.bundle.uploadedAt < policy.cutoff && x.project == p && !Active(policy, x)
      requires
        || (t == at && l' == l)
        || (&& item.id in at && at[item.id].uploadedAt == item.bundle.uploadedAt && x in at[item.id].bindings
            && t == at[item.id := at[item.id].(bindings := at[item.id].bindings - {x})]
            && l' == l + [Removal(item.id, x, at)])
      ensures Progress(s, l, t, l', p, policy) && GrewExcept(s, t, item.id)
      ensures Guarded(t, p, item, keepers, policy.keepLatest)
      ensures at == s ==> Shrunk(s, t)
    {
      GuardedGrows(s, t, p, item, keepers, policy.keepLatest);
      if t == at && l' == l {
        GrowthIsProgress(s, l, t, p, policy);
      } else {
        GuardedGrows(s, at, p, item, keepers, policy.keepLatest);
        GuardedIsStale(at, p, policy, item, keepers, x);
        assert l'[|l|..] == [Removal(item.id, x, at)];
        assert Logged(l'[|l|..], item.id, x) by { assert l'[|l|..][0] == Removal(item.id, x, at); }
      }
    }

    /** Handles the project's bindings of a bundle past the newest and before the cutoff. */
    method RetainBundle(p: ProjectId, item: Listed, counts: Counts, cache: Cache, ghost keepers: set<BundleId>)
      returns (counts': Counts, cache': Cache, error: Option<StoreError>)
      requires item.bundle.uploadedAt < policy.cutoff && CacheValid(policy, cache)
      requires Guarded(store.bundles, p, item, keepers, policy.keepLatest)
      modifies store`bundles, store`script, store`removals, store`calls
      ensures CacheValid(policy, cache')
      ensures Progress(old(store.bundles), old(store.removals), store.bundles, store.removals, p, policy)
      ensures GrewExcept(old(store.bundles), store.bundles, item.id) && |store.script| <= |old(store.script)|
      ensures Ended(old(store.calls), store.calls, error)
      ensures counts'.removedBindings - counts.removedBindings == |store.removals| - |old(store.removals)|
      ensures !mode.Enforce? ==> store.removals == old(store.removals)
      ensures old(store.script) == [] ==> Shrunk(old(store.bundles), store.bundles)
      ensures old(store.script) == [] && item.id in old(store.bundles) && old(store.bundles)[item.id] == item.bundle ==>
        && error.None? && store.script == []
        && counts' == Add(counts, |Removable(policy, p, item.bundle)|, mode)
        && store.bundles == Without(old(store.bundles), item, Removable(policy, p, item.bundle), mode)
    {
      hide Ended;
      counts', error := counts, None;
      ghost var start, log := store.bundles, store.removals;
      var stale;
      stale, cache' := StaleOf(p, item, cache);
      GrowthIsProgress(start, log, store.bundles, p, policy);
      if stale.Err? { return counts', cache', Some(stale.error); }
      if stale.value == {} {
        assert item.bundle.(bindings := item.bundle.bindings - stale.value) == item.bundle;
        return;
      }
      counts' := counts.(staleBundles := counts.staleBundles + 1,
                        staleBindings := counts.staleBindings + |stale.value|);
      if mode != Enforce { return; }
      ghost var mid := store.bundles;
      GuardedGrows(start, mid, p, item, keepers, policy.keepLatest);
      var removed;
      ghost var calls := store.calls;
      removed, error := RemoveAll(p, item, stale.value, keepers);
      EndedStep(old(store.calls), calls, store.calls, error);
      ProgressStep(start, log, mid, log, store.bundles, store.removals, p, policy);
      counts' := counts'.(removedBindings := counts'.removedBindings + removed);
    }

    /** One page: every bundle is counted, those past the newest and before the cutoff are handled. */
    method RetainPage(p: ProjectId, page: seq<Listed>, rank: nat, counts: Counts,
                      ghost seen: seq<Listed>, ghost run: Undisturbed)
      returns (counts': Counts, error: Option<StoreError>)
      requires rank == |seen| && Ranked(seen + page, store.bundles, p, policy.keepLatest)
      requires run.active ==> store.script == [] && run.At(p, policy, mode, seen + page, |seen|, store.bundles, counts)
      modifies store`bundles, store`script, store`removals, store`calls
      ensures Ranked(seen + page, store.bundles, p, policy.keepLatest)
      ensures Progress(old(store.bundles), old(store.removals), store.bundles, store.removals, p, policy)
      ensures |store.script| <= |old(store.script)|
      ensures Ended(old(store.calls), store.calls, error)
      ensures counts'.removedBindings - counts.removedBindings == |store.removals| - |old(store.removals)|
      ensures !mode.Enforce? ==> store.removals == old(store.removals)
      ensures old(store.script) == [] ==> Shrunk(old(store.bundles), store.bundles)
      ensures run.active ==>
        error.None? && store.script == [] && run.At(p, policy, mode, seen + page, |seen + page|, store.bundles, counts')
    {
      hide Progress, Ranked, Undisturbed.At, GrewExcept, Ended;
      NotEnded(store.calls);
      counts', error := counts, None;
      var cache: Cache := map[];
      ghost var all, start, log := seen + page, store.bundles, store.removals;
      GrowthIsProgress(start, log, start, p, policy);
      for i := 0 to |page|
        invariant error.None? && CacheValid(policy, cache) && Ended(old(store.calls), store.calls, None)
        invariant Ranked(all, store.bundles, p, policy.keepLatest)
        invariant Progress(start, log, store.bundles, store.removals, p, policy)
        invariant |store.script| <= |old(store.script)|
        invariant counts'.removedBindings - counts.removedBindings == |store.removals| - |log|
        invariant !mode.Enforce? ==> store.removals == old(store.removals)
        invariant old(store.script) == [] ==> store.script == [] && Shrunk(start, store.bundles)
        invariant run.active ==> store.script == [] && run.At(p, policy, mode, all, rank + i, store.bundles, counts')
      {
        ghost var s, l, before := store.bundles, store.removals, counts';
        counts' := counts'.(bundles := counts'.bundles + 1);
        if rank + i + 1 > policy.keepLatest && page[i].bundle.uploadedAt < policy.cutoff {
          assert all[rank + i] == page[i];
          KeepersGuard(all, s, p, policy.keepLatest, rank + i);
          ghost var calls := store.calls;
          counts', cache, error := RetainBundle(p, page[i], counts', cache, Ids(all[..policy.keepLatest]));
          EndedStep(old(store.calls), calls, store.calls, error);
          RankedAfter(all, s, store.bundles, p, policy.keepLatest, rank + i);
          ProgressStep(start, log, s, l, store.bundles, store.removals, p, policy);
          if run.active { run.Handled(p, policy, mode, all, rank + i, s, before); }
          if error.Some? { return; }
        } else if run.active {
          run.Passed(p, policy, mode, all, rank + i, s, before);
        }
      }
    }

    /** One project, page by page. */
    method RetainProject(p: ProjectId, counts: Counts) returns (counts': Counts, error: Option<StoreError>)
      requires pageSize >= 1
      modifies store
      ensures Progress(old(store.bundles), old(store.removals), store.bundles, store.removals, p, policy)
      ensures Ended(old(store.calls), store.calls, error) && Asked(old(store.calls), store.calls, p)
      ensures counts'.removedBindings - counts.removedBindings == |store.removals| - |old(store.removals)|
      ensures !mode.Enforce? ==> store.removals == old(store.removals)
      ensures old(store.listed) <= store.listed && Distinct(store.listed[|old(store.listed)|..])
      ensures |store.script| <= |old(store.script)|
      ensures old(store.script) == [] ==>
        && error.None? && store.script == []
        && store.bundles == After(old(store.bundles), p, policy, mode, old(store.bundles).Keys)
        && counts' == Totals(old(store.bundles), p, policy, mode, counts)
    {
      hide Progress, Ranked, Undisturbed.At, IsPage, Grew, Totals, After, Shrunk, GrewExcept, Ended;
      NotEnded(store.calls);
      ghost var first := true;
      counts', error := counts, None;
      var before: Option<Position> := None;
      var rank := 0;
      ghost var start, log, listing := store.bundles, store.removals, store.listed;
      ghost var seen: seq<Listed> := [];
      ghost var run := Undisturbed(store.script == [], start, counts);
      GrowthIsProgress(start, log, start, p, policy);
      run.Begins(p, policy, mode);
      RankedBegins(start, p, policy.keepLatest);
      while true
        invariant rank == |seen| && error.None?
        invariant Ranked(seen, store.bundles, p, policy.keepLatest) && AtCursor(seen, before)
        invariant Progress(start, log, store.bundles, store.removals, p, policy)
        invariant counts'.removedBindings - counts.removedBindings == |store.removals| - |log|
        invariant !mode.Enforce? ==> store.removals == old(store.removals)
        invariant store.listed == listing + seen
        invariant Ended(old(store.calls), store.calls, None) && old(store.calls) <= store.calls
        invariant first || Asked(old(store.calls), store.calls, p)
        invariant |store.script| <= |old(store.script)|
        invariant run.active ==> store.script == [] && run.At(p, policy, mode, seen, |seen|, store.bundles, counts')
        decreases |store.script|, |BelowCursor(store.bundles, p, before)|
      {
        ghost var s, l := store.bundles, store.removals;
        RankedIsDistinct(seen, s, p, policy.keepLatest);
        assert store.listed[|listing|..] == seen;
        ghost var calls := store.calls;
        var loaded := store.ProjectBundles(p, before, pageSize);
        EndedNow(calls, Call(BundlesOf(p), Failure(loaded)));
        EndedStep(old(store.calls), calls, store.calls, Failure(loaded));
        assert store.calls[|calls|].request == BundlesOf(p);
        first, calls := false, store.calls;
        ghost var t := store.bundles;
        GrowthIsProgress(s, l, t, p, policy);
        ProgressStep(start, log, s, l, t, l, p, policy);
        if loaded.Err? { return counts', Some(loaded.error); }
        var page := loaded.value;
        RankedPage(seen, s, t, p, policy.keepLatest, page, before, pageSize);
        if run.active { run.ListsPage(p, policy, mode, seen, page, before, pageSize, s, counts'); }
        ghost var more, c := seen + page, counts';
        assert store.listed[|listing|..] == more;
        counts', error := RetainPage(p, page, rank, counts', seen, run);
        EndedStep(old(store.calls), calls, store.calls, error);
        EndedGrows(calls, store.calls, error);
        ProgressStep(start, log, t, l, store.bundles, store.removals, p, policy);
        RankedIsDistinct(more, store.bundles, p, policy.keepLatest);
        if error.Some? { return; }
        if page == [] || |page| < pageSize {
          if run.active { run.Finishes(p, policy, mode, seen, page, before, pageSize, t, c, store.bundles, counts'); }
          return;
        }
        PageShrinks(t, store.bundles, p, before, pageSize, page);
        before := Some(page[|page| - 1].Position());
        rank := rank + |page|;
        seen := more;
        CursorMoves(seen, before);
      }
    }

    /** Every bound project once. A project that enters deletion during the pass is skipped, any other
        storage error ends the pass. */
    method RunOnce() returns (r: Result<Counts>, ghost projects: seq<ProjectId>, ghost at: Bundles)
      requires pageSize >= 1
      modifies store
      ensures mode.Off? ==> unchanged(store) && r == Ok(ZERO)
      ensures AnyProgress(old(store.bundles), old(store.removals), store.bundles, store.removals, policy)
      ensures r.Ok? ==> r.value.removedBindings == |store.removals| - |old(store.removals)|
      ensures !mode.Enforce? ==> store.removals == old(store.removals)
      ensures !mode.Off? ==>
        if r.Err? then Died(old(store.calls), store.calls, r.error) else NoneFatal(old(store.calls), store.calls)
      ensures !mode.Off? && r.Ok? ==>
        && Grew(old(store.bundles), at) && IsListingOf(projects, Projects(at))
        && forall i :: 0 <= i < |projects| ==> Asked(old(store.calls), store.calls, projects[i])
      ensures old(store.script) == [] && !mode.Off? ==>
        && r.Ok? && store.script == []
        && store.bundles == AfterAll(old(store.bundles), Projects(old(store.bundles)), policy, mode)
        && IsTotalOf(r.value, old(store.bundles), Projects(old(store.bundles)), policy, mode)
    {
      hide AnyProgress, Progress, AfterAll, IsTotalOf, Totals, After, Ended, NoneFatal, Died, Asked;
      projects, at := [], store.bundles;
      ghost var start, log, quiet, begun := store.bundles, store.removals, store.script == [], store.calls;
      NoProgress(start, log, policy);
      if mode == Off { return Ok(ZERO), projects, at; }
      var listed := store.BoundProjects();
      GrowthIsAnyProgress(start, log, store.bundles, policy);
      ListingEnds(begun, Failure(listed));
      if listed.Err? { return Err(listed.error), projects, at; }
      projects, at := listed.value, store.bundles;
      var all, counts := listed.value, ZERO;
      NothingVisited(start, policy, mode);
      assert Visited(projects, 0) == {};
      for i := 0 to |all|
        invariant AnyProgress(start, log, store.bundles, store.removals, policy)
        invariant counts.removedBindings == |store.removals| - |log|
        invariant !mode.Enforce? ==> store.removals == log
        invariant NoneFatal(begun, store.calls) && begun <= store.calls
        invariant forall j :: 0 <= j < i ==> Asked(begun, store.calls, all[j])
        invariant quiet ==> store.script == []
        invariant quiet ==> store.bundles == AfterAll(start, Visited(all, i), policy, mode)
        invariant quiet ==> IsTotalOf(counts, start, Visited(all, i), policy, mode)
      {
        ghost var s, l, c, calls := store.bundles, store.removals, counts, store.calls;
        var error;
        counts, error := RetainProject(all[i], counts);
        AnyProgressStep(start, log, s, l, store.bundles, store.removals, all[i], policy);
        if quiet { VisitOne(start, policy, mode, all, i, c); }
        FatalStep(begun, calls, store.calls, error);
        EndedGrows(calls, store.calls, error);
        if error.Some? && error.value != NotFound { return Err(error.value), projects, at; }
        AskedEarlier(begun, calls, store.calls, all[i]);
        forall j | 0 <= j < i ensures Asked(begun, store.calls, all[j]) {
          AskedStays(begun, calls, store.calls, all[j]);
        }
      }
      if quiet { assert Visited(all, |all|) == Projects(start); }
      return Ok(counts), projects, at;
    }
  }

  lemma ListingEnds(calls: seq<Call>, error: Option<StoreError>)
    ensures
      var more := calls + [Call(AllProjects, error)];
      if error.None? then NoneFatal(calls, more) else Died(calls, more, error.value)
  {
    var more := calls + [Call(AllProjects, error)];
    assert more[..|calls|] == calls;
  }

  /** Two passes in a row with nobody else at work: the first leaves the one-shot sweep, the second removes
      nothing and leaves the store alone. */
  method PassTwice(store: ArtifactStore, policy: Policy, pageSize: nat) returns (first: Result<Counts>,
                   second: Result<Counts>)
    requires pageSize >= 1 && store.script == []
    modifies store
    ensures first.Ok?
    ensures first.value.removedBindings == |StalePairsOf(old(store.bundles), Projects(old(store.bundles)), policy)|
    ensures second.Ok? && second.value.removedBindings == 0
    ensures store.bundles == SweptAtOnce(old(store.bundles), Projects(old(store.bundles)), policy)
  {
    ghost var s := store.bundles;
    SweepingAgainChangesNothing(s, policy);
    hide SweptAtOnce, StalePairsOf, Projects, AnyProgress;
    var retention := new Retention(store, policy, Enforce, pageSize);
    ghost var projects, at;
    first, projects, at := retention.RunOnce();
    second, projects, at := retention.RunOnce();
  }

  const ZERO := Counts(0, 0, 0, 0)

  /** Every removal took a binding that was stale for its project at that moment, and nothing else was lost. */
  ghost predicate AnyProgress(s: Bundles, log: seq<Removal>, t: Bundles, longer: seq<Removal>, policy: Policy) {
    && log <= longer && Explained(s, t, longer[|log|..])
    && forall i :: |log| <= i < |longer| ==>
         Stale(longer[i].at, longer[i].binding.project, policy, longer[i].id, longer[i].binding)
  }

  lemma NoProgress(s: Bundles, log: seq<Removal>, policy: Policy)
    ensures AnyProgress(s, log, s, log, policy)
  {
  }

  lemma GrowthIsAnyProgress(s: Bundles, log: seq<Removal>, t: Bundles, policy: Policy)
    requires Grew(s, t)
    ensures AnyProgress(s, log, t, log, policy)
  {
  }

  lemma AnyProgressStep(s: Bundles, a: seq<Removal>, t: Bundles, b: seq<Removal>, u: Bundles, c: seq<Removal>,
                        p: ProjectId, policy: Policy)
    requires AnyProgress(s, a, t, b, policy) && Progress(t, b, u, c, p, policy)
    ensures AnyProgress(s, a, u, c, policy)
  {
    assert c[|a|..] == b[|a|..] + c[|b|..];
    forall i | |a| <= i < |c| ensures Stale(c[i].at, c[i].binding.project, policy, c[i].id, c[i].binding) {
      if i < |b| { assert c[i] == b[i]; } else { assert Stale(c[i].at, p, policy, c[i].id, c[i].binding); }
    }
    ExplainedMore(t, u, c[|b|..], b[|a|..] + c[|b|..]);
    ExplainedStep(s, t, u, b[|a|..], c[|b|..]);
  }

  ghost function Visited(projects: seq<ProjectId>, i: nat): set<ProjectId>
    requires i <= |projects|
  {
    set j | 0 <= j < i :: projects[j]
  }

  ghost function AfterAll(s: Bundles, ps: set<ProjectId>, policy: Policy, mode: Mode): Bundles {
    if mode.Enforce? then SweptAtOnce(s, ps, policy) else s
  }

  /** A report predicts what enforcing removes: both count the same set. */
  ghost predicate IsTotalOf(counts: Counts, s: Bundles, ps: set<ProjectId>, policy: Policy, mode: Mode) {
    && counts.staleBindings == |StalePairsOf(s, ps, policy)|
    && counts.removedBindings == if mode.Enforce? then |StalePairsOf(s, ps, policy)| else 0
  }

  lemma NothingVisited(s: Bundles, policy: Policy, mode: Mode)
    ensures AfterAll(s, {}, policy, mode) == s && IsTotalOf(ZERO, s, {}, policy, mode)
  {
    var t := SweptAtOnce(s, {}, policy);
    forall id | id in s ensures t[id] == s[id] { assert t[id].bindings == s[id].bindings; }
    assert t == s;
    assert StalePairsOf(s, {}, policy) == {};
  }

  lemma VisitOne(s: Bundles, policy: Policy, mode: Mode, projects: seq<ProjectId>, i: nat, counts: Counts)
    requires i < |projects| && forall j, k :: 0 <= j < k < |projects| ==> projects[j] != projects[k]
    requires IsTotalOf(counts, s, Visited(projects, i), policy, mode)
    ensures
      var t := AfterAll(s, Visited(projects, i), policy, mode);
      && After(t, projects[i], policy, mode, t.Keys) == AfterAll(s, Visited(projects, i + 1), policy, mode)
      && IsTotalOf(Totals(t, projects[i], policy, mode, counts), s, Visited(projects, i + 1), policy, mode)
  {
    var done, q := Visited(projects, i), projects[i];
    assert Visited(projects, i + 1) == done + {q};
    SweepOneMore(s, done, policy, q);
    StaleCountsAdd(s, done, policy, q);
  }

  ghost predicate AtCursor(seen: seq<Listed>, before: Option<Position>) {
    before == if seen == [] then None else Some(seen[|seen| - 1].Position())
  }

  lemma CursorMoves(seen: seq<Listed>, before: Option<Position>)
    requires seen != [] && before == Some(seen[|seen| - 1].Position())
    ensures AtCursor(seen, before)
  {
  }

  /** What the next pages can still list. */
  ghost function BelowCursor(s: Bundles, p: ProjectId, before: Option<Position>): set<BundleId> {
    set id | id in s && Binds(s[id], p) && Below(before, PositionOf(s, id))
  }

  lemma PageShrinks(s: Bundles, t: Bundles, p: ProjectId, before: Option<Position>, limit: nat, page: seq<Listed>)
    requires IsPage(s, p, before, limit, page) && page != []
    ensures Shrunk(s, t) ==>
      |BelowCursor(t, p, Some(page[|page| - 1].Position()))| < |BelowCursor(s, p, before)|
  {
    if Shrunk(s, t) {
      var last := page[|page| - 1];
      var after := BelowCursor(t, p, Some(last.Position()));
      forall id | id in after ensures id in BelowCursor(s, p, before) - {last.id} {
        var x :| x in t[id].bindings && x.project == p;
        assert x in s[id].bindings;
      }
      assert last.id in BelowCursor(s, p, before);
      SubsetCardinality(after, BelowCursor(s, p, before) - {last.id});
    }
  }

  lemma RankedBegins(s: Bundles, p: ProjectId, keepLatest: nat)
    ensures Ranked([], s, p, keepLatest)
  {
  }

  lemma RankedIsDistinct(seen: seq<Listed>, s: Bundles, p: ProjectId, keepLatest: nat)
    requires Ranked(seen, s, p, keepLatest)
    ensures Distinct(seen)
  {
  }

  /** No page lists a bundle again: what was listed is at or above the cursor and only moves up. */
  lemma RankedPage(seen: seq<Listed>, s: Bundles, t: Bundles, p: ProjectId, keepLatest: nat, page: seq<Listed>,
                   before: Option<Position>, limit: nat)
    requires Ranked(seen, s, p, keepLatest) && AtCursor(seen, before) && Grew(s, t)
    requires IsPage(t, p, before, limit, page)
    ensures Ranked(seen + page, t, p, keepLatest)
  {
    var all := seen + page;
    forall i | 0 <= i < |seen| && i < keepLatest ensures Binds(t[seen[i].id], p) {
      assert Binds(s[seen[i].id], p);
      var x :| x in s[seen[i].id].bindings && x.project == p;
      assert x in t[seen[i].id].bindings;
    }
    forall i, j | 0 <= i < j < |all|
      ensures Less(all[j].Position(), all[i].Position()) && all[i].id != all[j].id
    {
      if j < |seen| {
      } else if i < |seen| {
        assert Below(before, page[j - |seen|].Position());
        if i < |seen| - 1 { assert Less(seen[|seen| - 1].Position(), seen[i].Position()); }
        assert page[j - |seen|].bundle == t[page[j - |seen|].id];
      } else {
        assert Less(page[j - |seen|].Position(), page[i - |seen|].Position());
        assert page[j - |seen|].bundle == t[page[j - |seen|].id] && page[i - |seen|].bundle == t[page[i - |seen|].id];
      }
    }
  }

  ghost function Ids(items: seq<Listed>): set<BundleId> {
    set i | 0 <= i < |items| :: items[i].id
  }

  ghost predicate Distinct(items: seq<Listed>) {
    forall i, j :: 0 <= i < j < |items| ==> items[i].id != items[j].id
  }

  lemma {:induction false} DistinctIds(items: seq<Listed>)
    requires Distinct(items)
    ensures |Ids(items)| == |items|
  {
    if items == [] {
      assert Ids(items) == {};
    } else {
      var n := |items| - 1;
      DistinctIds(items[..n]);
      assert items[..n + 1] == items;
      IdsGrow(items, n);
    }
  }

  /** `seen` are the bundles listed so far, newest first: their upload times only moved forward since, no
      bundle is there twice, and the first `keepLatest` are still bound to the project. */
  ghost predicate Ranked(seen: seq<Listed>, s: Bundles, p: ProjectId, keepLatest: nat) {
    && Descending(seen) && Distinct(seen)
    && (forall i :: 0 <= i < |seen| ==> seen[i].id in s && seen[i].bundle.uploadedAt <= s[seen[i].id].uploadedAt)
    && (forall i :: 0 <= i < |seen| && i < keepLatest ==> Binds(s[seen[i].id], p))
  }

  lemma KeepersGuard(seen: seq<Listed>, s: Bundles, p: ProjectId, keepLatest: nat, i: nat)
    requires Ranked(seen, s, p, keepLatest) && keepLatest <= i < |seen|
    ensures Guarded(s, p, seen[i], Ids(seen[..keepLatest]), keepLatest)
  {
    DistinctIds(seen[..keepLatest]);
    forall k | k in Ids(seen[..keepLatest])
      ensures k != seen[i].id && k in s && Binds(s[k], p) && Less(seen[i].Position(), PositionOf(s, k))
    {
      var j :| 0 <= j < keepLatest && seen[..keepLatest][j].id == k;
      assert seen[j].id == k;
    }
  }

  lemma RankedAfter(seen: seq<Listed>, s: Bundles, t: Bundles, p: ProjectId, keepLatest: nat, i: nat)
    requires Ranked(seen, s, p, keepLatest) && keepLatest <= i < |seen| && GrewExcept(s, t, seen[i].id)
    ensures Ranked(seen, t, p, keepLatest)
  {
    forall j | 0 <= j < |seen| && j < keepLatest ensures Binds(t[seen[j].id], p) {
      assert Binds(s[seen[j].id], p);
      var x :| x in s[seen[j].id].bindings && x.project == p;
      assert x in t[seen[j].id].bindings;
    }
  }

  /** The undisturbed run: `start` is the store it began with, `base` the counts before the project. */
  ghost function After(s: Bundles, p: ProjectId, policy: Policy, mode: Mode, done: set<BundleId>): Bundles {
    if mode.Enforce? then SweptOver(s, p, policy, done) else s
  }

  ghost function Tally(s: Bundles, p: ProjectId, policy: Policy, mode: Mode, items: seq<Listed>, base: Counts): Counts {
    if items == [] then base
    else
      var c := Tally(s, p, policy, mode, items[..|items| - 1], base);
      var id := items[|items| - 1].id;
      Add(c.(bundles := c.bundles + 1), if id in s then |StaleBindings(s, p, policy, id)| else 0, mode)
  }

  /** `all` is the beginning of the project's listing in `s`. */
  ghost predicate Covered(s: Bundles, p: ProjectId, all: seq<Listed>) {
    && Descending(all)
    && (forall i :: 0 <= i < |all| ==> all[i].id in s && all[i].bundle == s[all[i].id] && Binds(s[all[i].id], p))
    && (forall id, i :: id in s && Binds(s[id], p) && !Lists(all, id) && 0 <= i < |all| ==>
          Less(PositionOf(s, id), all[i].Position()))
  }

  lemma RankIsCount(s: Bundles, p: ProjectId, all: seq<Listed>, k: nat)
    requires Covered(s, p, all) && k < |all|
    ensures Newer(s, p, all[k].id) == Ids(all[..k]) && |Ids(all[..k])| == k
    ensures all[k].id !in Ids(all[..k])
  {
    DistinctIds(all[..k]);
    var id := all[k].id;
    forall y | y in Newer(s, p, id) ensures y in Ids(all[..k]) {
      assert Lists(all, y);
      var i :| 0 <= i < |all| && all[i].id == y;
      assert all[..k][i].id == y;
    }
    forall y | y in Ids(all[..k]) ensures y in Newer(s, p, id) {
      var i :| 0 <= i < k && all[..k][i].id == y;
      assert Less(all[k].Position(), all[i].Position());
    }
  }

  lemma IdsGrow(all: seq<Listed>, k: nat)
    requires k < |all|
    ensures Ids(all[..k + 1]) == Ids(all[..k]) + {all[k].id}
  {
    forall id | id in Ids(all[..k + 1]) ensures id in Ids(all[..k]) + {all[k].id} {
      var i :| 0 <= i < k + 1 && all[..k + 1][i].id == id;
      if i < k { assert all[..k][i].id == id; }
    }
    forall id | id in Ids(all[..k]) + {all[k].id} ensures id in Ids(all[..k + 1]) {
      if id == all[k].id { assert all[..k + 1][k].id == id; } else {
        var i :| 0 <= i < k && all[..k][i].id == id;
        assert all[..k + 1][i].id == id;
      }
    }
  }

  datatype Undisturbed = Undisturbed(active: bool, start: Bundles, base: Counts) {

    /** The first `k` of the listing are handled, nothing else is touched, and the counts are theirs. */
    ghost predicate At(p: ProjectId, policy: Policy, mode: Mode, all: seq<Listed>, k: nat, s: Bundles, counts: Counts) {
      && k <= |all| && Covered(start, p, all)
      && s == After(start, p, policy, mode, Ids(all[..k]))
      && counts == Tally(start, p, policy, mode, all[..k], base)
    }

    lemma Begins(p: ProjectId, policy: Policy, mode: Mode)
      ensures At(p, policy, mode, [], 0, start, base)
    {
      assert Ids([]) == {};
    }

    lemma ListsPage(p: ProjectId, policy: Policy, mode: Mode, seen: seq<Listed>, page: seq<Listed>,
                    before: Option<Position>, limit: nat, s: Bundles, counts: Counts)
      requires At(p, policy, mode, seen, |seen|, s, counts)
      requires AtCursor(seen, before) && IsPage(s, p, before, limit, page)
      ensures At(p, policy, mode, seen + page, |seen|, s, counts)
    {
      CoveredPage(start, p, policy, mode, seen, page, before, limit, s);
      assert (seen + page)[..|seen|] == seen && seen[..|seen|] == seen;
    }

    /** After a short page the project is done: the store and the counts are the one-shot ones. */
    lemma Finishes(p: ProjectId, policy: Policy, mode: Mode, seen: seq<Listed>, page: seq<Listed>,
                   before: Option<Position>, limit: nat, t: Bundles, counts: Counts, u: Bundles, counts': Counts)
      requires At(p, policy, mode, seen, |seen|, t, counts)
      requires AtCursor(seen, before) && IsPage(t, p, before, limit, page) && |page| < limit
      requires At(p, policy, mode, seen + page, |seen + page|, u, counts')
      ensures u == After(start, p, policy, mode, start.Keys) && counts' == Totals(start, p, policy, mode, base)
    {
      var all := seen + page;
      assert all[..|all|] == all && seen[..|seen|] == seen;
      ShortPageCompletes(start, p, policy, mode, seen, page, before, limit, t);
      AllHandled(start, p, policy, mode, all);
      TallyIsTotal(start, p, policy, mode, all, base);
    }

    /** A bundle that retention passes over has nothing stale. */
    lemma Passed(p: ProjectId, policy: Policy, mode: Mode, all: seq<Listed>, k: nat, s: Bundles, counts: Counts)
      requires At(p, policy, mode, all, k, s, counts) && k < |all|
      requires k + 1 <= policy.keepLatest || all[k].bundle.uploadedAt >= policy.cutoff
      ensures At(p, policy, mode, all, k + 1, s, counts.(bundles := counts.bundles + 1))
    {
      hide StaleBindings, SweptOver, Covered, Tally;
      StaleAtRank(start, p, policy, all, k);
      IdsGrow(all, k);
      SweepOne(start, p, policy, Ids(all[..k]), all[k].id);
      TallyOne(start, p, policy, mode, all, k, base);
    }

    lemma Handled(p: ProjectId, policy: Policy, mode: Mode, all: seq<Listed>, k: nat, s: Bundles, counts: Counts)
      requires At(p, policy, mode, all, k, s, counts) && k < |all|
      requires k + 1 > policy.keepLatest && all[k].bundle.uploadedAt < policy.cutoff
      ensures all[k].id in s && s[all[k].id] == all[k].bundle
      ensures
        var stale := Removable(policy, p, all[k].bundle);
        At(p, policy, mode, all, k + 1, Without(s, all[k], stale, mode),
           Add(counts.(bundles := counts.bundles + 1), |stale|, mode))
    {
      hide StaleBindings, SweptOver, Covered, Tally;
      StaleAtRank(start, p, policy, all, k);
      IdsGrow(all, k);
      SweepOne(start, p, policy, Ids(all[..k]), all[k].id);
      TallyOne(start, p, policy, mode, all, k, base);
    }
  }

  /** The rest of the listing is as it was, although the handled bundles above the cursor lost bindings. */
  lemma CoveredPage(s: Bundles, p: ProjectId, policy: Policy, mode: Mode, seen: seq<Listed>, page: seq<Listed>,
                    before: Option<Position>, limit: nat, t: Bundles)
    requires Covered(s, p, seen) && t == After(s, p, policy, mode, Ids(seen))
    requires AtCursor(seen, before) && IsPage(t, p, before, limit, page)
    ensures Covered(s, p, seen + page)
  {
    var all := seen + page;
    forall i | 0 <= i < |seen| ensures !Below(before, PositionOf(s, seen[i].id)) {
      assert i < |seen| - 1 ==> Less(seen[|seen| - 1].Position(), seen[i].Position());
    }
    forall i | 0 <= i < |page| ensures page[i].id in s && page[i].bundle == s[page[i].id] {
      assert page[i].bundle.uploadedAt == s[page[i].id].uploadedAt;
    }
    forall i, j | 0 <= i < j < |all| ensures Less(all[j].Position(), all[i].Position()) {
      if i < |seen| <= j {
        assert Below(before, page[j - |seen|].Position());
        if i < |seen| - 1 { assert Less(seen[|seen| - 1].Position(), seen[i].Position()); }
      } else if |seen| <= i {
        assert Less(page[j - |seen|].Position(), page[i - |seen|].Position());
      }
    }
    forall id, i | id in s && Binds(s[id], p) && !Lists(all, id) && 0 <= i < |all|
      ensures Less(PositionOf(s, id), all[i].Position())
    {
      NotListed(seen, page, id);
      assert seen != [] ==> Less(PositionOf(s, id), seen[|seen| - 1].Position());
      assert t[id] == s[id];
    }
  }

  lemma NotListed(seen: seq<Listed>, page: seq<Listed>, id: BundleId)
    requires !Lists(seen + page, id)
    ensures !Lists(seen, id) && !Lists(page, id)
  {
    forall i | 0 <= i < |seen| ensures seen[i].id != id { assert (seen + page)[i] == seen[i]; }
    forall i | 0 <= i < |page| ensures page[i].id != id { assert (seen + page)[|seen| + i] == page[i]; }
  }

  lemma ListedInBoth(seen: seq<Listed>, page: seq<Listed>, id: BundleId)
    requires Lists(seen, id) || Lists(page, id)
    ensures Lists(seen + page, id)
  {
    if !Lists(seen + page, id) { NotListed(seen, page, id); }
  }

  ghost predicate Complete(s: Bundles, p: ProjectId, all: seq<Listed>) {
    forall id :: id in s && Binds(s[id], p) ==> Lists(all, id)
  }

  lemma ShortPageCompletes(s: Bundles, p: ProjectId, policy: Policy, mode: Mode, seen: seq<Listed>, page: seq<Listed>,
                           before: Option<Position>, limit: nat, t: Bundles)
    requires Covered(s, p, seen) && t == After(s, p, policy, mode, Ids(seen))
    requires AtCursor(seen, before) && IsPage(t, p, before, limit, page) && |page| < limit
    ensures Complete(s, p, seen + page)
  {
    forall id | id in s && Binds(s[id], p) && !Lists(seen, id) ensures Lists(page, id) {
      assert id !in Ids(seen);
      assert seen != [] ==> Less(PositionOf(s, id), seen[|seen| - 1].Position());
      assert t[id] == s[id] && Below(before, PositionOf(t, id));
    }
    forall id | Lists(seen, id) || Lists(page, id) ensures Lists(seen + page, id) {
      ListedInBoth(seen, page, id);
    }
  }

  lemma AllHandled(s: Bundles, p: ProjectId, policy: Policy, mode: Mode, all: seq<Listed>)
    requires Covered(s, p, all) && Complete(s, p, all)
    ensures After(s, p, policy, mode, Ids(all)) == After(s, p, policy, mode, s.Keys)
    ensures Ids(all) == BoundTo(s, p)
  {
    forall id | id in s && !Binds(s[id], p) ensures s[id].bindings - StaleBindings(s, p, policy, id) == s[id].bindings {
      assert StaleBindings(s, p, policy, id) == {};
    }
    forall id | id in s && Binds(s[id], p) ensures id in Ids(all) {
      assert Lists(all, id);
    }
  }

  ghost function BoundTo(s: Bundles, p: ProjectId): set<BundleId> {
    set id | id in s && Binds(s[id], p)
  }

  ghost function StaleIds(s: Bundles, p: ProjectId, policy: Policy, done: set<BundleId>): set<BundleId> {
    set id | id in done && id in s && StaleBindings(s, p, policy, id) != {}
  }

  ghost function PairsOver(s: Bundles, p: ProjectId, policy: Policy, done: set<BundleId>): set<(BundleId, Binding)> {
    set id, x | id in done && id in s && x in StaleBindings(s, p, policy, id) :: (id, x)
  }

  /** The counts of one project, from the one-shot rule alone. */
  ghost function Totals(s: Bundles, p: ProjectId, policy: Policy, mode: Mode, base: Counts): Counts {
    Counts(base.bundles + |BoundTo(s, p)|,
           base.staleBundles + |StaleIds(s, p, policy, s.Keys)|,
           base.staleBindings + StaleCount(s, p, policy),
           base.removedBindings + if mode.Enforce? then StaleCount(s, p, policy) else 0)
  }

  lemma {:induction false} PairsOfOne(id: BundleId, xs: set<Binding>)
    ensures |set x | x in xs :: (id, x)| == |xs|
  {
    var pairs := set x | x in xs :: (id, x);
    if xs == {} {
      assert pairs == {};
    } else {
      var x :| x in xs;
      PairsOfOne(id, xs - {x});
      assert pairs == (set y | y in xs - {x} :: (id, y)) + {(id, x)};
    }
  }

  lemma {:induction false} TallyCounts(s: Bundles, p: ProjectId, policy: Policy, mode: Mode, all: seq<Listed>, k: nat,
                                       base: Counts)
    requires Covered(s, p, all) && k <= |all|
    ensures
      var done := Ids(all[..k]);
      var n := |PairsOver(s, p, policy, done)|;
      Tally(s, p, policy, mode, all[..k], base)
        == Counts(base.bundles + k, base.staleBundles + |StaleIds(s, p, policy, done)|,
                  base.staleBindings + n, base.removedBindings + if mode.Enforce? then n else 0)
  {
    hide Covered, StaleBindings, Removable, PairsOver, StaleIds, Ids;
    if k == 0 {
      NothingCounted(s, p, policy, all);
    } else {
      TallyCounts(s, p, policy, mode, all, k - 1, base);
      StaleAtRank(s, p, policy, all, k - 1);
      TallyOne(s, p, policy, mode, all, k - 1, base);
      IdsGrow(all, k - 1);
      CountOne(s, p, policy, Ids(all[..k - 1]), all[k - 1].id);
    }
  }

  lemma NothingCounted(s: Bundles, p: ProjectId, policy: Policy, all: seq<Listed>)
    ensures var done := Ids(all[..0]); PairsOver(s, p, policy, done) == {} && StaleIds(s, p, policy, done) == {}
  {
    assert Ids(all[..0]) == {};
  }

  lemma CountOne(s: Bundles, p: ProjectId, policy: Policy, done: set<BundleId>, id: BundleId)
    requires id in s && id !in done
    ensures |PairsOver(s, p, policy, done + {id})|
      == |PairsOver(s, p, policy, done)| + |StaleBindings(s, p, policy, id)|
    ensures |StaleIds(s, p, policy, done + {id})|
      == |StaleIds(s, p, policy, done)| + if StaleBindings(s, p, policy, id) == {} then 0 else 1
  {
    hide StaleBindings;
    CountPairs(s, p, policy, done, id);
    var one := if StaleBindings(s, p, policy, id) == {} then {} else {id};
    assert StaleIds(s, p, policy, done + {id}) == StaleIds(s, p, policy, done) + one;
  }

  lemma CountPairs(s: Bundles, p: ProjectId, policy: Policy, done: set<BundleId>, id: BundleId)
    requires id in s && id !in done
    ensures |PairsOver(s, p, policy, done + {id})|
      == |PairsOver(s, p, policy, done)| + |StaleBindings(s, p, policy, id)|
  {
    hide StaleBindings;
    PairsOfOne(id, StaleBindings(s, p, policy, id));
    assert PairsOver(s, p, policy, done + {id})
      == PairsOver(s, p, policy, done) + set x | x in StaleBindings(s, p, policy, id) :: (id, x);
  }

  /** Only bundles bound to the project can have stale bindings of it. */
  lemma StaleIsBound(s: Bundles, p: ProjectId, policy: Policy)
    ensures PairsOver(s, p, policy, BoundTo(s, p)) == StalePairs(s, p, policy)
    ensures StaleIds(s, p, policy, BoundTo(s, p)) == StaleIds(s, p, policy, s.Keys)
  {
    forall id | id in s && StaleBindings(s, p, policy, id) != {} ensures id in BoundTo(s, p) {
      var x :| x in StaleBindings(s, p, policy, id);
      assert x in s[id].bindings && x.project == p;
    }
    forall id, x | (id, x) in StalePairs(s, p, policy) ensures (id, x) in PairsOver(s, p, policy, BoundTo(s, p)) {
      assert x in StaleBindings(s, p, policy, id);
    }
  }

  lemma TallyIsTotal(s: Bundles, p: ProjectId, policy: Policy, mode: Mode, all: seq<Listed>, base: Counts)
    requires Covered(s, p, all) && Complete(s, p, all)
    ensures Tally(s, p, policy, mode, all, base) == Totals(s, p, policy, mode, base)
  {
    assert Distinct(all);
    hide Covered, Complete, StaleBindings, Tally;
    AllHandled(s, p, policy, mode, all);
    TallyCounts(s, p, policy, mode, all, |all|, base);
    assert all[..|all|] == all;
    DistinctIds(all);
    StaleIsBound(s, p, policy);
  }

  lemma StaleAtRank(s: Bundles, p: ProjectId, policy: Policy, all: seq<Listed>, k: nat)
    requires Covered(s, p, all) && k < |all|
    ensures all[k].id in s && s[all[k].id] == all[k].bundle && all[k].id !in Ids(all[..k])
    ensures StaleBindings(s, p, policy, all[k].id)
      == if k + 1 > policy.keepLatest && all[k].bundle.uploadedAt < policy.cutoff
         then Removable(policy, p, all[k].bundle) else {}
  {
    RankIsCount(s, p, all, k);
  }

  lemma SweepOne(s: Bundles, p: ProjectId, policy: Policy, done: set<BundleId>, id: BundleId)
    requires id in s && id !in done
    ensures id in SweptOver(s, p, policy, done) && SweptOver(s, p, policy, done)[id] == s[id]
    ensures SweptOver(s, p, policy, done + {id})
      == SweptOver(s, p, policy, done)[id := s[id].(bindings := s[id].bindings - StaleBindings(s, p, policy, id))]
    ensures StaleBindings(s, p, policy, id) == {} ==>
      SweptOver(s, p, policy, done + {id}) == SweptOver(s, p, policy, done)
  {
    if StaleBindings(s, p, policy, id) == {} {
      assert s[id].(bindings := s[id].bindings - {}) == s[id];
    }
  }

  lemma TallyOne(s: Bundles, p: ProjectId, policy: Policy, mode: Mode, all: seq<Listed>, k: nat, base: Counts)
    requires k < |all| && all[k].id in s
    ensures
      var c := Tally(s, p, policy, mode, all[..k], base);
      Tally(s, p, policy, mode, all[..k + 1], base)
        == Add(c.(bundles := c.bundles + 1), |StaleBindings(s, p, policy, all[k].id)|, mode)
  {
    assert all[..k + 1][..k] == all[..k];
  }

  function Add(counts: Counts, stale: nat, mode: Mode): Counts {
    counts.(staleBundles := counts.staleBundles + (if stale == 0 then 0 else 1),
            staleBindings := counts.staleBindings + stale,
            removedBindings := counts.removedBindings + if mode.Enforce? then stale else 0)
  }

  ghost function Without(s: Bundles, item: Listed, stale: set<Binding>, mode: Mode): Bundles {
    if mode.Enforce? then s[item.id := item.bundle.(bindings := item.bundle.bindings - stale)] else s
  }
}
