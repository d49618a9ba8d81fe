/** The fence-and-drain protocol of `deletion.rs`: ingestion enters a project with a guard, deletion fences
    the project and waits for the guards to go. */
module WorkRegistry {

  type ProjectId = nat
  type GuardId = nat
  type DrainId = nat

  const USIZE_MAX: nat := 0xFFFF_FFFF_FFFF_FFFF

  datatype WorkState = WorkState(fenced: bool, active: nat)

  type Entries = map<ProjectId, WorkState>

  function Entry(e: Entries, p: ProjectId): WorkState {
    if p in e then e[p] else WorkState(false, 0)
  }

  // ---- the registry's operations ----

  function Entered(e: Entries, p: ProjectId): Entries {
    var w := Entry(e, p);
    e[p := if w.fenced then w else w.(active := if w.active < USIZE_MAX then w.active + 1 else USIZE_MAX)]
  }

  function Fenced(e: Entries, p: ProjectId): Entries { e[p := Entry(e, p).(fenced := true)] }

  function Unfenced(e: Entries, p: ProjectId): Entries { if p in e then e[p := e[p].(fenced := false)] else e }

  function Left(e: Entries, p: ProjectId): Entries {
    if p in e then e[p := e[p].(active := if e[p].active == 0 then 0 else e[p].active - 1)] else e
  }

  class ProjectWorkRegistry {
    var entries: Entries

    constructor ()
      ensures entries == map[]
    {
      entries := map[];
    }

    method TryEnter(p: ProjectId) returns (entered: bool)
      modifies this
      ensures entered == !Entry(old(entries), p).fenced && entries == Entered(old(entries), p)
    {
      if p !in entries { entries := entries[p := WorkState(false, 0)]; }
      var entry := entries[p];
      if entry.fenced { return false; }
      var active := if entry.active < USIZE_MAX then entry.active + 1 else USIZE_MAX;
      entries := entries[p := entry.(active := active)];
      return true;
    }

    method Fence(p: ProjectId)
      modifies this
      ensures entries == Fenced(old(entries), p)
    {
      if p !in entries { entries := entries[p := WorkState(false, 0)]; }
      entries := entries[p := entries[p].(fenced := true)];
    }

    method IsDrained(p: ProjectId) returns (drained: bool)
      ensures drained == (Entry(entries, p).active == 0)
    {
      drained := p !in entries || entries[p].active == 0;
    }

    method Unfence(p: ProjectId)
      modifies this
      ensures entries == Unfenced(old(entries), p)
    {
      if p in entries { entries := entries[p := entries[p].(fenced := false)]; }
    }

    /** The drop of a guard. */
    method Leave(p: ProjectId)
      modifies this
      ensures entries == Left(old(entries), p)
    {
      if p in entries {
        var active := entries[p].active;
        entries := entries[p := entries[p].(active := if active == 0 then 0 else active - 1)];
      }
    }
  }

  // ---- the interleavings ----

  /** `guards` are the persists in progress, `drains` the calls of `fence_and_drain` that still wait, and
      `drained` those that returned because they saw no active work. */
  datatype State = State(entries: Entries, guards: map<GuardId, ProjectId>, drains: map<DrainId, ProjectId>,
                         drained: map<DrainId, ProjectId>)

  const EMPTY := State(map[], map[], map[], map[])

  datatype Step =
    | Enters(guard: GuardId, project: ProjectId)
    | Leaves(guard: GuardId)
    | Fences(drain: DrainId, project: ProjectId)
    | SeesZero(drain: DrainId)
    | TimesOut(drain: DrainId)
    | Unfences(project: ProjectId)

  /** A refused entry changes nothing a guard depends on. There is room for one more guard than the
      counter can count in no address space. */
  predicate Enabled(s: State, step: Step) {
    match step
    case Enters(g, p) => g !in s.guards && |s.guards| < USIZE_MAX
    case Leaves(g) => g in s.guards
    case Fences(d, p) => d !in s.drains && d !in s.drained
    case SeesZero(d) => d in s.drains && Entry(s.entries, s.drains[d]).active == 0
    case TimesOut(d) => d in s.drains
    case Unfences(p) => true
  }

  function Apply(s: State, step: Step): State
    requires Enabled(s, step)
  {
    match step
    case Enters(g, p) =>
      s.(entries := Entered(s.entries, p), guards := if Entry(s.entries, p).fenced then s.guards else s.guards[g := p])
    case Leaves(g) => s.(entries := Left(s.entries, s.guards[g]), guards := s.guards - {g})
    case Fences(d, p) => s.(entries := Fenced(s.entries, p), drains := s.drains[d := p])
    case SeesZero(d) => s.(drains := s.drains - {d}, drained := s.drained[d := s.drains[d]])
    case TimesOut(d) => s.(drains := s.drains - {d})
    case Unfences(p) => s.(entries := Unfenced(s.entries, p))
  }

  function GuardsOf(guards: map<GuardId, ProjectId>, p: ProjectId): set<GuardId> {
    set g | g in guards && guards[g] == p
  }

  /** Each project's counter is its number of live guards, so it never saturates. */
  ghost predicate Inv(s: State) {
    && (forall p :: Entry(s.entries, p).active == |GuardsOf(s.guards, p)|)
    && |s.guards| <= USIZE_MAX
  }

  lemma GuardsOfOne(guards: map<GuardId, ProjectId>, p: ProjectId)
    ensures |GuardsOf(guards, p)| <= |guards|
  {
    var mine := GuardsOf(guards, p);
    assert guards.Keys == mine + (guards.Keys - mine);
  }

  lemma OneMoreGuardOf(guards: map<GuardId, ProjectId>, g: GuardId, p: ProjectId, q: ProjectId)
    requires g !in guards
    ensures GuardsOf(guards[g := p], q) == GuardsOf(guards, q) + if q == p then {g} else {}
  {
  }

  lemma OneMoreGuard(guards: map<GuardId, ProjectId>, g: GuardId, p: ProjectId)
    requires g !in guards
    ensures |guards[g := p]| == |guards| + 1
    ensures forall q :: |GuardsOf(guards[g := p], q)| == |GuardsOf(guards, q)| + if q == p then 1 else 0
  {
    assert guards[g := p].Keys == guards.Keys + {g};
    forall q ensures |GuardsOf(guards[g := p], q)| == |GuardsOf(guards, q)| + if q == p then 1 else 0 {
      assert g !in GuardsOf(guards, q);
      hide GuardsOf;
      OneMoreGuardOf(guards, g, p, q);
      if q != p { assert GuardsOf(guards, q) + {} == GuardsOf(guards, q); }
    }
  }

  lemma EnterCounts(s: State, g: GuardId, p: ProjectId)
    requires Inv(s) && Enabled(s, Enters(g, p))
    ensures Inv(Apply(s, Enters(g, p)))
  {
    hide GuardsOf;
    GuardsOfOne(s.guards, p);
    OneMoreGuard(s.guards, g, p);
    var s' := Apply(s, Enters(g, p));
    forall q ensures Entry(s'.entries, q).active == |GuardsOf(s'.guards, q)| {
      assert Entry(s.entries, q).active == |GuardsOf(s.guards, q)|;
    }
  }

  lemma LeaveCounts(s: State, g: GuardId)
    requires Inv(s) && Enabled(s, Leaves(g))
    ensures Inv(Apply(s, Leaves(g)))
  {
    hide GuardsOf;
    var fewer := s.guards - {g};
    OneMoreGuard(fewer, g, s.guards[g]);
    assert fewer[g := s.guards[g]] == s.guards;
  }

  lemma StepIsSound(s: State, step: Step)
    requires Inv(s) && Enabled(s, step)
    ensures Inv(Apply(s, step))
  {
    match step
    case Enters(g, p) => EnterCounts(s, g, p);
    case Leaves(g) => LeaveCounts(s, g);
    case _ =>
      var s' := Apply(s, step);
      assert forall p :: Entry(s'.entries, p).active == Entry(s.entries, p).active;
  }

  predicate Legal(s: State, steps: seq<Step>)
    decreases |steps|
  {
    steps == [] || (Enabled(s, steps[0]) && Legal(Apply(s, steps[0]), steps[1..]))
  }

  function Execute(s: State, steps: seq<Step>): State
    requires Legal(s, steps)
    decreases |steps|
  {
    if steps == [] then s else Execute(Apply(s, steps[0]), steps[1..])
  }

  lemma {:induction false} RunIsSound(s: State, steps: seq<Step>)
    requires Inv(s) && Legal(s, steps)
    ensures Inv(Execute(s, steps))
    decreases |steps|
  {
    hide Inv, Apply, Enabled;
    if steps != [] {
      StepIsSound(s, steps[0]);
      RunIsSound(Apply(s, steps[0]), steps[1..]);
    }
  }

  /** In every interleaving the counter is exact: neither the saturating addition nor the saturating
      subtraction ever saturates. */
  lemma CountersAreExact(steps: seq<Step>, p: ProjectId)
    requires Legal(EMPTY, steps)
    ensures var s := Execute(EMPTY, steps); Entry(s.entries, p).active == |GuardsOf(s.guards, p)|
  {
    assert Inv(EMPTY) by { assert forall q :: GuardsOf(map[], q) == {}; }
    RunIsSound(EMPTY, steps);
    hide Execute, Legal;
  }

  ghost predicate NoUnfence(steps: seq<Step>, p: ProjectId) {
    forall i :: 0 <= i < |steps| ==> steps[i] != Unfences(p)
  }

  /** A fence holds, and once the project is empty it stays empty, until the next unfence. */
  lemma {:induction false} FenceHolds(s: State, steps: seq<Step>, p: ProjectId)
    requires Inv(s) && Legal(s, steps) && NoUnfence(steps, p) && Entry(s.entries, p).fenced
    ensures var t := Execute(s, steps);
      Entry(t.entries, p).fenced && (GuardsOf(s.guards, p) == {} ==> GuardsOf(t.guards, p) == {})
    decreases |steps|
  {
    if steps != [] {
      StepIsSound(s, steps[0]);
      StepKeepsFence(s, steps[0], p);
      hide Apply, Enabled, Inv;
      FenceHolds(Apply(s, steps[0]), steps[1..], p);
    }
  }

  lemma StepKeepsFence(s: State, step: Step, p: ProjectId)
    requires Enabled(s, step) && step != Unfences(p) && Entry(s.entries, p).fenced
    ensures Entry(Apply(s, step).entries, p).fenced
    ensures GuardsOf(Apply(s, step).guards, p) <= GuardsOf(s.guards, p)
  {
  }

  /** `fence_and_drain` that returns because it saw zero: no persist of the project is in progress, and none
      is at any later point before the next unfence, if the project was not unfenced since its fence. */
  lemma DrainedMeansQuiet(s: State, d: DrainId, p: ProjectId, waiting: seq<Step>, later: seq<Step>)
    requires Inv(s) && Enabled(s, Fences(d, p))
    requires var fenced := Apply(s, Fences(d, p));
      && Legal(fenced, waiting) && NoUnfence(waiting, p)
      && d in Execute(fenced, waiting).drains && Execute(fenced, waiting).drains[d] == p
      && Enabled(Execute(fenced, waiting), SeesZero(d))
      && Legal(Apply(Execute(fenced, waiting), SeesZero(d)), later) && NoUnfence(later, p)
    ensures
      var seen := Apply(Execute(Apply(s, Fences(d, p)), waiting), SeesZero(d));
      GuardsOf(seen.guards, p) == {} && GuardsOf(Execute(seen, later).guards, p) == {}
  {
    var fenced := Apply(s, Fences(d, p));
    StepIsSound(s, Fences(d, p));
    RunIsSound(fenced, waiting);
    FenceHolds(fenced, waiting, p);
    var zero := Execute(fenced, waiting);
    StepIsSound(zero, SeesZero(d));
    FenceHolds(Apply(zero, SeesZero(d)), later, p);
  }

  /** What a drain that saw zero may rely on, exactly: no persist begins before the next unfence if and only
      if the project is fenced at the look. */
  lemma QuietExactlyIfFenced(s: State, d: DrainId)
    requires Inv(s) && Enabled(s, SeesZero(d)) && |s.guards| < USIZE_MAX
    ensures
      var p, seen := s.drains[d], Apply(s, SeesZero(d));
      Entry(s.entries, p).fenced <==>
      forall later :: Legal(seen, later) && NoUnfence(later, p) ==> GuardsOf(Execute(seen, later).guards, p) == {}
  {
    var p, seen := s.drains[d], Apply(s, SeesZero(d));
    StepIsSound(s, SeesZero(d));
    assert GuardsOf(s.guards, p) == {};
    if Entry(s.entries, p).fenced {
      forall later | Legal(seen, later) && NoUnfence(later, p) ensures GuardsOf(Execute(seen, later).guards, p) == {} {
        FenceHolds(seen, later, p);
      }
    } else {
      var g := FreshGuard(s.guards);
      var later := [Enters(g, p)];
      var entered := Apply(seen, Enters(g, p));
      assert later[1..] == [] && Legal(entered, []) && Execute(entered, []) == entered;
      assert Legal(seen, later) && NoUnfence(later, p) && Execute(seen, later) == entered;
      assert g in GuardsOf(entered.guards, p);
    }
  }

  lemma FreshGuard(guards: map<GuardId, ProjectId>) returns (g: GuardId)
    ensures g !in guards
  {
    g := Above(guards.Keys);
  }

  lemma {:induction false} Above(ids: set<GuardId>) returns (g: GuardId)
    ensures forall i :: i in ids ==> i < g
  {
    if ids == {} {
      g := 0;
    } else {
      var i :| i in ids;
      var h := Above(ids - {i});
      g := if h <= i then i + 1 else h;
      forall j | j in ids ensures j < g { assert j == i || j in ids - {i}; }
    }
  }

  /** After an unfence an entry succeeds, whatever the registry was and however many guards are active; nothing else
      changes. */
  lemma UnfenceOpens(e: Entries, p: ProjectId)
    ensures !Entry(Unfenced(e, p), p).fenced && Entry(Unfenced(e, p), p).active == Entry(e, p).active
    ensures forall q :: q != p ==> Entry(Unfenced(e, p), q) == Entry(e, q)
    ensures Entry(e, p).active < USIZE_MAX ==> Entry(Entered(Unfenced(e, p), p), p).active == Entry(e, p).active + 1
  {
  }

  lemma UnfenceAdmits(s: State, p: ProjectId, g: GuardId)
    requires Inv(s) && g !in s.guards && |s.guards| < USIZE_MAX
    ensures
      var unfenced := Apply(s, Unfences(p));
      && Enabled(unfenced, Enters(g, p))
      && GuardsOf(Apply(unfenced, Enters(g, p)).guards, p) == GuardsOf(s.guards, p) + {g}
  {
    UnfenceOpens(s.entries, p);
    OneMoreGuardOf(s.guards, g, p, p);
  }

  /** A fenced project admits nobody, and its guards stay as they are. */
  lemma FenceRefuses(s: State, p: ProjectId, g: GuardId)
    requires Enabled(s, Enters(g, p)) && Entry(s.entries, p).fenced
    ensures Apply(s, Enters(g, p)).guards == s.guards
  {
  }

  /** Such a look exists: a cancellation that unfences between the fence and the look at the counter lets a
      persist begin right after the drain returned. */
  lemma UnfenceBeforeTheLookReopens(p: ProjectId)
    ensures
      var steps := [Fences(0, p), Unfences(p), SeesZero(0), Enters(0, p)];
      Legal(EMPTY, steps) && 0 in Execute(EMPTY, steps).drained && GuardsOf(Execute(EMPTY, steps).guards, p) == {0}
  {
    var s1 := Apply(EMPTY, Fences(0, p));
    var s2 := Apply(s1, Unfences(p));
    var s3 := Apply(s2, SeesZero(0));
    var s4 := Apply(s3, Enters(0, p));
    assert Legal(s4, []) && Execute(s4, []) == s4;
    assert Legal(s3, [Enters(0, p)]) && Execute(s3, [Enters(0, p)]) == s4;
    assert Legal(s2, [SeesZero(0), Enters(0, p)]) && Execute(s2, [SeesZero(0), Enters(0, p)]) == s4;
    assert Legal(s1, [Unfences(p), SeesZero(0), Enters(0, p)]);
    assert Execute(s1, [Unfences(p), SeesZero(0), Enters(0, p)]) == s4;
    assert [Fences(0, p), Unfences(p), SeesZero(0), Enters(0, p)][1..] == [Unfences(p), SeesZero(0), Enters(0, p)];
  }
}
