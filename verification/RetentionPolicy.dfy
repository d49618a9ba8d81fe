/** What artifact retention means, independent of how `artifact_retention.rs` pages through a project:
    which bindings are stale, and the store a pass should leave behind. */
module RetentionPolicy {
  import opened Common

  type Timestamp = int
  type BundleId = nat
  type ProjectId = nat
  type ReleaseId = nat

  datatype Binding = Binding(project: ProjectId, release: Option<ReleaseId>, dist: Option<string>)

  /** The store keeps a bundle's bindings sorted and without duplicates, so they form a set. */
  datatype Bundle = Bundle(uploadedAt: Timestamp, bindings: set<Binding>)

  type Bundles = map<BundleId, Bundle>

  /** Existing releases with the time of their last Event, if any. */
  type Releases = map<ReleaseId, Option<Timestamp>>

  datatype Policy = Policy(keepLatest: nat, cutoff: Timestamp, releases: Releases)

  type Position = (Timestamp, BundleId)

  predicate Less(a: Position, b: Position) {
    a.0 < b.0 || (a.0 == b.0 && a.1 < b.1)
  }

  function PositionOf(s: Bundles, id: BundleId): Position
    requires id in s
  {
    (s[id].uploadedAt, id)
  }

  predicate Binds(b: Bundle, p: ProjectId) {
    exists x :: x in b.bindings && x.project == p
  }

  /** A release with an Event since the cutoff keeps its bindings. */
  predicate Active(policy: Policy, x: Binding) {
    && x.release.Some? && x.release.value in policy.releases
    && policy.releases[x.release.value].Some?
    && policy.releases[x.release.value].value >= policy.cutoff
  }

  ghost function Newer(s: Bundles, p: ProjectId, id: BundleId): set<BundleId>
    requires id in s
  {
    set y | y in s && Binds(s[y], p) && Less(PositionOf(s, id), PositionOf(s, y))
  }

  /** The one-shot rule: past the newest `keepLatest`, uploaded before the cutoff, no active release. */
  ghost predicate Stale(s: Bundles, p: ProjectId, policy: Policy, id: BundleId, x: Binding) {
    && id in s && x in s[id].bindings && x.project == p
    && |Newer(s, p, id)| >= policy.keepLatest
    && s[id].uploadedAt < policy.cutoff
    && !Active(policy, x)
  }

  ghost function StaleBindings(s: Bundles, p: ProjectId, policy: Policy, id: BundleId): set<Binding>
    requires id in s
  {
    set x | x in s[id].bindings && Stale(s, p, policy, id, x)
  }

  /** The store after the stale bindings of the bundles in `done` are gone. */
  ghost function SweptOver(s: Bundles, p: ProjectId, policy: Policy, done: set<BundleId>): Bundles {
    map id | id in s ::
      if id in done then s[id].(bindings := s[id].bindings - StaleBindings(s, p, policy, id)) else s[id]
  }

  ghost function Swept(s: Bundles, p: ProjectId, policy: Policy): Bundles {
    SweptOver(s, p, policy, s.Keys)
  }

  /** The stale bindings of all projects in `ps`, removed at once. */
  ghost function SweptAtOnce(s: Bundles, ps: set<ProjectId>, policy: Policy): Bundles {
    map id | id in s ::
      s[id].(bindings := set x | x in s[id].bindings && !(x.project in ps && Stale(s, x.project, policy, id, x)))
  }

  ghost function StaleCount(s: Bundles, p: ProjectId, policy: Policy): nat {
    |StalePairs(s, p, policy)|
  }

  ghost function StalePairs(s: Bundles, p: ProjectId, policy: Policy): set<(BundleId, Binding)> {
    set id, x | id in s && x in s[id].bindings && Stale(s, p, policy, id, x) :: (id, x)
  }

  /** All stale bindings of the projects in `ps`. */
  ghost function StalePairsOf(s: Bundles, ps: set<ProjectId>, policy: Policy): set<(BundleId, Binding)> {
    set id, x | id in s && x in s[id].bindings && x.project in ps && Stale(s, x.project, policy, id, x) :: (id, x)
  }

  /** Losing bindings never turns a kept binding stale. */
  lemma StaleIsMonotone(s: Bundles, t: Bundles, p: ProjectId, policy: Policy, id: BundleId, x: Binding)
    requires Stale(t, p, policy, id, x)
    requires t.Keys == s.Keys
    requires forall y :: y in s ==> t[y].uploadedAt == s[y].uploadedAt && t[y].bindings <= s[y].bindings
    ensures Stale(s, p, policy, id, x)
  {
    SubsetCardinality(Newer(t, p, id), Newer(s, p, id));
  }

  /** A sweep converges: nothing is stale after it, although the newest `keepLatest` are counted anew. */
  lemma SweepConverges(s: Bundles, p: ProjectId, policy: Policy)
    ensures StalePairs(Swept(s, p, policy), p, policy) == {}
    ensures Swept(Swept(s, p, policy), p, policy) == Swept(s, p, policy)
  {
    var t := Swept(s, p, policy);
    forall id, x | id in t && x in t[id].bindings ensures !Stale(t, p, policy, id, x) {
      if Stale(t, p, policy, id, x) { StaleIsMonotone(s, t, p, policy, id, x); }
    }
    forall id | id in t ensures Swept(t, p, policy)[id] == t[id] {
      assert StaleBindings(t, p, policy, id) == {};
    }
  }

  /** Sweeping one set of projects does not touch what is stale for another project. */
  lemma OtherProjectsKeepTheirRanks(s: Bundles, ps: set<ProjectId>, policy: Policy, q: ProjectId, id: BundleId,
                                    x: Binding)
    requires q !in ps
    ensures Stale(SweptAtOnce(s, ps, policy), q, policy, id, x) <==> Stale(s, q, policy, id, x)
  {
    var t := SweptAtOnce(s, ps, policy);
    forall y | y in s ensures Binds(t[y], q) <==> Binds(s[y], q) {
      if Binds(s[y], q) {
        var b :| b in s[y].bindings && b.project == q;
        assert b in t[y].bindings;
      }
    }
    if id in s { assert Newer(t, q, id) == Newer(s, q, id); }
  }

  /** Adding one more project to a sweep is the same as sweeping it afterwards. */
  lemma SweepOneMore(s: Bundles, ps: set<ProjectId>, policy: Policy, q: ProjectId)
    ensures q !in ps ==> Swept(SweptAtOnce(s, ps, policy), q, policy) == SweptAtOnce(s, ps + {q}, policy)
    ensures q !in ps ==> StaleCount(SweptAtOnce(s, ps, policy), q, policy) == StaleCount(s, q, policy)
  {
    if q !in ps {
      var t := SweptAtOnce(s, ps, policy);
      forall id, x ensures Stale(t, q, policy, id, x) <==> Stale(s, q, policy, id, x) {
        OtherProjectsKeepTheirRanks(s, ps, policy, q, id, x);
      }
      var u, v := Swept(t, q, policy), SweptAtOnce(s, ps + {q}, policy);
      forall id | id in s ensures u[id] == v[id] {
        forall x ensures x in u[id].bindings <==> x in v[id].bindings {
        }
        assert u[id].bindings == v[id].bindings;
      }
      assert u == v;
      assert StalePairs(t, q, policy) == StalePairs(s, q, policy);
    }
  }

  ghost function Projects(s: Bundles): set<ProjectId> {
    set id, x | id in s && x in s[id].bindings :: x.project
  }

  /** After every bound project was swept, a second pass finds nothing anywhere. */
  lemma SweepOfAllConverges(s: Bundles, policy: Policy, ps: set<ProjectId>)
    ensures forall q :: q in ps ==> StalePairs(SweptAtOnce(s, ps, policy), q, policy) == {}
  {
    forall q | q in ps ensures StalePairs(SweptAtOnce(s, ps, policy), q, policy) == {} {
      assert ps == (ps - {q}) + {q};
      SweepOneMore(s, ps - {q}, policy, q);
      SweepConverges(SweptAtOnce(s, ps - {q}, policy), q, policy);
    }
  }

  /** A second pass over whatever projects are still bound changes nothing and counts nothing. */
  lemma SweepingAgainChangesNothing(s: Bundles, policy: Policy)
    ensures
      var t := SweptAtOnce(s, Projects(s), policy);
      StalePairsOf(t, Projects(t), policy) == {} && SweptAtOnce(t, Projects(t), policy) == t
  {
    var t := SweptAtOnce(s, Projects(s), policy);
    SweepOfAllConverges(s, policy, Projects(s));
    forall id, x | id in t && x in t[id].bindings ensures !Stale(t, x.project, policy, id, x) {
      assert x in s[id].bindings && x.project in Projects(s);
      assert (id, x) !in StalePairs(t, x.project, policy);
    }
    hide Stale;
    var u := SweptAtOnce(t, Projects(t), policy);
    forall id | id in t ensures u[id] == t[id] { assert u[id].bindings == t[id].bindings; }
  }

  lemma StaleCountsAdd(s: Bundles, ps: set<ProjectId>, policy: Policy, q: ProjectId)
    requires q !in ps
    ensures |StalePairsOf(s, ps + {q}, policy)| == |StalePairsOf(s, ps, policy)| + StaleCount(s, q, policy)
  {
    assert StalePairsOf(s, ps + {q}, policy) == StalePairsOf(s, ps, policy) + StalePairs(s, q, policy);
    assert StalePairsOf(s, ps, policy) !! StalePairs(s, q, policy);
  }
}
