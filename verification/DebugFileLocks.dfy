/** The per-file locks of `debug_files.rs` and the two operations they order: assembly commits a blob and
    then publishes its metadata, deletion removes the metadata and then the blob. */
module DebugFileLocks {
  import opened Common

  type FileId = nat
  type Lock = nat
  type TaskId = nat

  /** A file belongs to a project, but the lock is taken by the file id alone. */
  datatype File = File(project: nat, id: FileId)

  /** How far a task is; from `Waiting` on it keeps the lock object alive, from `Guarded` on it holds it. */
  datatype Progress =
    | Started
    | Waiting(lock: Lock)
    | Guarded(lock: Lock)
    | Committed(lock: Lock)
    | Unlisted(lock: Lock)
  {
    predicate HasLock() { !Started? }
    predicate Holds() { HasLock() && !Waiting? }
  }

  datatype Kind = Assembly | Deletion
  datatype Task = Task(kind: Kind, file: File, at: Progress)

  type Tasks = map<TaskId, Task>

  /** The registry holds weak references: an entry does not keep its lock alive. */
  datatype Registry = Registry(locks: map<FileId, Lock>, next: Lock)

  /** A storage call whose caller is gone may still take effect: a database command is under way, a file is
      removed on the blocking pool. */
  datatype Effect = LateCommit(file: File) | LatePublish(file: File) | LateUnlist(file: File) | LateRemoval(file: File)

  /** `pending` are the effects of abandoned calls that have not landed yet. */
  datatype State = State(registry: Registry, tasks: Tasks, published: set<File>, blobs: set<File>, pending: seq<Effect>)

  const EMPTY := State(Registry(map[], 0), map[], {}, {}, [])

  // ---- lock_for ----

  /** The locks with a strong reference. */
  function Live(tasks: Tasks): set<Lock> {
    set t | t in tasks && tasks[t].at.HasLock() :: tasks[t].at.lock
  }

  function Retained(locks: map<FileId, Lock>, live: set<Lock>): map<FileId, Lock> {
    map id | id in locks && locks[id] in live :: locks[id]
  }

  function LockFor(r: Registry, live: set<Lock>, id: FileId): (Registry, Lock) {
    var locks := Retained(r.locks, live);
    if id in locks then (r.(locks := locks), locks[id])
    else (Registry(locks[id := r.next], r.next + 1), r.next)
  }

  class LockRegistry {
    var locks: map<FileId, Lock>
    var next: Lock

    constructor ()
      ensures Registry(locks, next) == EMPTY.registry
    {
      locks, next := map[], 0;
    }

    /** Forgets the dead entries, then returns the live lock of the file or registers a new one. */
    method Acquire(id: FileId, live: set<Lock>) returns (lock: Lock)
      modifies this
      ensures (Registry(locks, next), lock) == LockFor(old(Registry(locks, next)), live, id)
    {
      var rest := locks.Keys;
      ghost var before := locks;
      while rest != {}
        invariant rest <= before.Keys && next == old(next)
        invariant locks == map i | i in before && (i in rest || before[i] in live) :: before[i]
        decreases rest
      {
        var i :| i in rest;
        if locks[i] !in live { locks := locks - {i}; }
        rest := rest - {i};
      }
      assert locks == Retained(before, live);
      if id in locks {
        lock := locks[id];
      } else {
        lock := next;
        locks, next := locks[id := lock], next + 1;
      }
    }
  }

  // ---- the steps ----

  /** A storage call that fails may have taken effect, and one whose caller is dropped may do so later; a call
      that fails and takes effect later is the same as one that is dropped. */
  datatype Step =
    | Begins(kind: Kind, file: File)
    | TakesLock
    | Enters
    | Commits(ok: bool, effect: bool)
    | Publishes(effect: bool)
    | Unlists(ok: bool, effect: bool)
    | DeletesBlob(effect: bool)
    | IsDropped(late: bool)
    | Lands(index: nat)

  /** The storage call a task is in. */
  function InFlight(task: Task): Option<Effect> {
    match task.at
    case Guarded(_) => Some(if task.kind.Assembly? then LateCommit(task.file) else LateUnlist(task.file))
    case Committed(_) => Some(LatePublish(task.file))
    case Unlisted(_) => Some(LateRemoval(task.file))
    case _ => None
  }

  predicate Enabled(s: State, t: TaskId, step: Step) {
    if step.Begins? then t !in s.tasks
    else if step.Lands? then step.index < |s.pending|
    else
      t in s.tasks &&
      match step
      case TakesLock => s.tasks[t].at.Started?
      case Enters =>
        && s.tasks[t].at.Waiting?
        && forall u :: u in s.tasks ==> !(s.tasks[u].at.Holds() && s.tasks[u].at.lock == s.tasks[t].at.lock)
      case Commits(ok, effect) => s.tasks[t].kind.Assembly? && s.tasks[t].at.Guarded? && (ok ==> effect)
      case Publishes(_) => s.tasks[t].at.Committed?
      case Unlists(ok, effect) => s.tasks[t].kind.Deletion? && s.tasks[t].at.Guarded? && (ok ==> effect)
      case DeletesBlob(_) => s.tasks[t].at.Unlisted?
      case IsDropped(late) => late ==> InFlight(s.tasks[t]).Some?
  }

  function Move(s: State, t: TaskId, at: Progress): State
    requires t in s.tasks
  {
    s.(tasks := s.tasks[t := s.tasks[t].(at := at)])
  }

  /** Dropping a task releases the lock and the reference at once. */
  function Drop(s: State, t: TaskId): State { s.(tasks := s.tasks - {t}) }

  function Apply(s: State, t: TaskId, step: Step): State
    requires Enabled(s, t, step)
  {
    match step
    case Begins(kind, file) => s.(tasks := s.tasks[t := Task(kind, file, Started)])
    case TakesLock =>
      var (registry, lock) := LockFor(s.registry, Live(s.tasks), s.tasks[t].file.id);
      Move(s, t, Waiting(lock)).(registry := registry)
    case Enters => Move(s, t, Guarded(s.tasks[t].at.lock))
    case Commits(ok, effect) =>
      var u := if effect then s.(blobs := s.blobs + {s.tasks[t].file}) else s;
      if ok then Move(u, t, Committed(s.tasks[t].at.lock)) else Drop(u, t)
    case Publishes(effect) =>
      Drop(if effect then s.(published := s.published + {s.tasks[t].file}) else s, t)
    case Unlists(ok, effect) =>
      var u := if effect then s.(published := s.published - {s.tasks[t].file}) else s;
      if ok && s.tasks[t].file in s.published then Move(u, t, Unlisted(s.tasks[t].at.lock)) else Drop(u, t)
    case DeletesBlob(effect) =>
      Drop(if effect then s.(blobs := s.blobs - {s.tasks[t].file}) else s, t)
    case IsDropped(late) =>
      Drop(if late then s.(pending := s.pending + [InFlight(s.tasks[t]).value]) else s, t)
    case Lands(i) => Land(s.(pending := s.pending[..i] + s.pending[i + 1..]), s.pending[i])
  }

  function Land(s: State, e: Effect): State {
    match e
    case LateCommit(file) => s.(blobs := s.blobs + {file})
    case LatePublish(file) => s.(published := s.published + {file})
    case LateUnlist(file) => s.(published := s.published - {file})
    case LateRemoval(file) => s.(blobs := s.blobs - {file})
  }

  /** Giving up a publication or a blob removal that is under way. */
  predicate Abandons(s: State, t: TaskId, step: Step)
    requires Enabled(s, t, step)
  {
    step == IsDropped(true) && (s.tasks[t].at.Committed? || s.tasks[t].at.Unlisted?)
  }

  // ---- the invariant ----

  /** Whoever has a lock of a file id has the one the registry names. */
  ghost predicate OneLockPerFile(r: Registry, tasks: Tasks) {
    forall t :: t in tasks && tasks[t].at.HasLock() ==>
      tasks[t].file.id in r.locks && r.locks[tasks[t].file.id] == tasks[t].at.lock
  }

  /** No two files share a lock object. */
  ghost predicate OneFilePerLock(r: Registry) {
    && (forall i :: i in r.locks ==> r.locks[i] < r.next)
    && (forall i, j :: i in r.locks && j in r.locks && i != j ==> r.locks[i] != r.locks[j])
  }

  ghost predicate Exclusive(tasks: Tasks) {
    forall t, u :: t in tasks && u in tasks && t != u && tasks[t].at.Holds() && tasks[u].at.Holds() ==>
      tasks[t].at.lock != tasks[u].at.lock
  }

  ghost predicate Stored(s: State) {
    && s.published <= s.blobs
    && (forall t :: t in s.tasks && s.tasks[t].at.Committed? ==> s.tasks[t].file in s.blobs)
    && (forall t :: t in s.tasks && s.tasks[t].at.Unlisted? ==> s.tasks[t].file !in s.published)
  }

  /** Only a late publication or removal could do harm. */
  ghost predicate Harmless(pending: seq<Effect>) {
    forall i :: 0 <= i < |pending| ==> pending[i].LateCommit? || pending[i].LateUnlist?
  }

  /** The lock state alone; what is stored does not matter to it. */
  ghost predicate Locked(s: State) {
    OneLockPerFile(s.registry, s.tasks) && OneFilePerLock(s.registry) && Exclusive(s.tasks)
  }

  ghost predicate Inv(s: State) {
    Locked(s) && Stored(s) && Harmless(s.pending)
  }

  lemma LockForIsSound(s: State, t: TaskId)
    requires Locked(s) && Enabled(s, t, TakesLock)
    ensures Locked(Apply(s, t, TakesLock))
  {
    var live, id := Live(s.tasks), s.tasks[t].file.id;
    forall u | u in s.tasks && s.tasks[u].at.HasLock() ensures s.tasks[u].at.lock in live {}
    var (registry, lock) := LockFor(s.registry, live, id);
    assert registry.locks[id] == lock;
  }

  /** Each call forgets the locks nobody has any more, so the registry stays as small as what is in use. */
  lemma RegistryHoldsOnlyLive(r: Registry, live: set<Lock>, id: FileId)
    ensures
      var (after, lock) := LockFor(r, live, id);
      && (forall i :: i in after.locks ==> after.locks[i] in live || i == id)
      && (forall i :: i in r.locks && r.locks[i] in live ==> i in after.locks && after.locks[i] == r.locks[i])
      && id in after.locks && after.locks[id] == lock
  {
  }

  /** Two tasks that hold the lock of the same file id are the same task. */
  lemma HoldersAreOne(s: State, t: TaskId, u: TaskId)
    requires Locked(s) && t in s.tasks && u in s.tasks && s.tasks[t].at.Holds() && s.tasks[u].at.Holds()
    requires s.tasks[t].file.id == s.tasks[u].file.id
    ensures t == u
  {
  }

  /** Publishing and deleting the blob of one file cannot both be next. */
  lemma StorageIsSound(s: State, t: TaskId, step: Step)
    requires Inv(s) && Enabled(s, t, step) && !Abandons(s, t, step)
    ensures Stored(Apply(s, t, step)) && Harmless(Apply(s, t, step).pending)
  {
    if step.Publishes? || step.DeletesBlob? {
      forall u | u in s.tasks && s.tasks[u].at.Holds() && s.tasks[u].file == s.tasks[t].file ensures u == t {
        HoldersAreOne(s, t, u);
      }
    }
  }

  lemma LocksAreSound(s: State, t: TaskId, step: Step)
    requires Locked(s) && Enabled(s, t, step) && !step.TakesLock?
    ensures Apply(s, t, step).registry == s.registry && Locked(Apply(s, t, step))
  {
    hide LockFor, Stored, Harmless, InFlight;
  }

  lemma StepIsSound(s: State, t: TaskId, step: Step)
    requires Inv(s) && Enabled(s, t, step) && !Abandons(s, t, step)
    ensures Inv(Apply(s, t, step))
  {
    StorageIsSound(s, t, step);
    if step.TakesLock? { LockForIsSound(s, t); } else { LocksAreSound(s, t, step); }
  }

  // ---- runs ----

  predicate Legal(s: State, steps: seq<(TaskId, Step)>)
    decreases |steps|
  {
    steps == [] || (Enabled(s, steps[0].0, steps[0].1) && Legal(Apply(s, steps[0].0, steps[0].1), steps[1..]))
  }

  function Execute(s: State, steps: seq<(TaskId, Step)>): State
    requires Legal(s, steps)
    decreases |steps|
  {
    if steps == [] then s else Execute(Apply(s, steps[0].0, steps[0].1), steps[1..])
  }

  /** Every publication and every blob removal that begins is run to its end. */
  predicate Settled(s: State, steps: seq<(TaskId, Step)>)
    requires Legal(s, steps)
    decreases |steps|
  {
    steps == [] ||
    (!Abandons(s, steps[0].0, steps[0].1) && Settled(Apply(s, steps[0].0, steps[0].1), steps[1..]))
  }

  lemma {:induction false} RunIsSound(s: State, steps: seq<(TaskId, Step)>)
    requires Inv(s) && Legal(s, steps) && Settled(s, steps)
    ensures Inv(Execute(s, steps))
    decreases |steps|
  {
    hide Inv, Apply, Enabled, Abandons;
    if steps != [] {
      StepIsSound(s, steps[0].0, steps[0].1);
      RunIsSound(Apply(s, steps[0].0, steps[0].1), steps[1..]);
    }
  }

  /** Whatever the interleaving, the failures and the cancellations that abandon no publication or removal under
      way: all users of a file id have the same lock object, which is the registered one, and published metadata
      has its blob. */
  lemma PublishedHasItsBlob(steps: seq<(TaskId, Step)>)
    requires Legal(EMPTY, steps) && Settled(EMPTY, steps)
    ensures
      var s := Execute(EMPTY, steps);
      && s.published <= s.blobs
      && forall t, u :: t in s.tasks && u in s.tasks && s.tasks[t].at.HasLock() && s.tasks[u].at.HasLock() ==>
           && (s.tasks[t].file.id == s.tasks[u].file.id <==> s.tasks[t].at.lock == s.tasks[u].at.lock)
           && s.tasks[t].file.id in s.registry.locks && s.registry.locks[s.tasks[t].file.id] == s.tasks[t].at.lock
  {
    assert Inv(EMPTY);
    RunIsSound(EMPTY, steps);
    hide Execute, Legal, Settled;
  }

  /** A deletion of a file that is not published ends there: its blob, which an assembly may be about to publish or
      may have left behind, is not touched. */
  lemma UnknownFileIsNotTouched(s: State, t: TaskId)
    requires Enabled(s, t, Unlists(true, true)) && s.tasks[t].file !in s.published
    ensures
      var u := Apply(s, t, Unlists(true, true));
      u.blobs == s.blobs && u.published == s.published && t !in u.tasks
  {
  }

  // ---- abandoned calls ----

  /** From `s` to `u` without abandoning anything. */
  ghost predicate Leads(s: State, u: State) {
    exists steps :: Legal(s, steps) && Settled(s, steps) && Execute(s, steps) == u
  }

  lemma {:induction false} OneMore(s: State, steps: seq<(TaskId, Step)>, t: TaskId, step: Step)
    requires Legal(s, steps) && Settled(s, steps)
    requires Enabled(Execute(s, steps), t, step) && !Abandons(Execute(s, steps), t, step)
    ensures
      var longer := steps + [(t, step)];
      Legal(s, longer) && Settled(s, longer) && Execute(s, longer) == Apply(Execute(s, steps), t, step)
    decreases |steps|
  {
    hide Enabled, Apply, Abandons;
    var longer := steps + [(t, step)];
    if steps == [] {
      assert longer[1..] == [];
    } else {
      assert longer[1..] == steps[1..] + [(t, step)] && longer[0] == steps[0];
      OneMore(Apply(s, steps[0].0, steps[0].1), steps[1..], t, step);
    }
  }

  lemma LeadsOn(s: State, u: State, t: TaskId, step: Step)
    requires Leads(s, u) && Enabled(u, t, step) && !Abandons(u, t, step)
    ensures Leads(s, Apply(u, t, step))
  {
    hide Enabled, Apply, Abandons, Legal, Settled, Execute;
    var steps :| Legal(s, steps) && Settled(s, steps) && Execute(s, steps) == u;
    OneMore(s, steps, t, step);
  }

  lemma LeadsNowhere(s: State)
    ensures Leads(s, s)
  {
    assert Legal(s, []) && Settled(s, []) && Execute(s, []) == s;
  }

  /** No task is between lock and unlock of the file id. */
  ghost predicate Idle(tasks: Tasks, id: FileId) {
    forall u :: u in tasks && tasks[u].at.Holds() ==> tasks[u].file.id != id
  }

  /** A new task gets through to the lock of an idle file. */
  lemma EnterIdle(s: State, v: State, t: TaskId, kind: Kind, file: File) returns (u: State)
    requires Leads(s, v) && Locked(v) && t !in v.tasks && Idle(v.tasks, file.id)
    ensures Leads(s, u) && Locked(u) && u.published == v.published && u.blobs == v.blobs && u.pending == v.pending
    ensures t in u.tasks && u.tasks[t].kind == kind && u.tasks[t].file == file && u.tasks[t].at.Guarded?
    ensures u.tasks - {t} == v.tasks
  {
    hide Leads;
    var started := Apply(v, t, Begins(kind, file));
    LeadsOn(s, v, t, Begins(kind, file));
    LocksAreSound(v, t, Begins(kind, file));
    u := EnterStarted(s, started, t);
    assert started.tasks - {t} == v.tasks;
  }

  lemma EnterStarted(s: State, v: State, t: TaskId) returns (u: State)
    requires Leads(s, v) && Locked(v) && t in v.tasks && v.tasks[t].at.Started? && Idle(v.tasks, v.tasks[t].file.id)
    ensures Leads(s, u) && Locked(u) && u.published == v.published && u.blobs == v.blobs && u.pending == v.pending
    ensures t in u.tasks && u.tasks[t].at.Guarded?
    ensures u.tasks[t].kind == v.tasks[t].kind && u.tasks[t].file == v.tasks[t].file
    ensures u.tasks - {t} == v.tasks - {t}
  {
    hide Leads;
    LockForIsSound(v, t);
    LeadsOn(s, v, t, TakesLock);
    var waiting := Apply(v, t, TakesLock);
    LockIsFree(waiting, t);
    LeadsOn(s, waiting, t, Enters);
    LocksAreSound(waiting, t, Enters);
    u := Apply(waiting, t, Enters);
  }

  lemma LockIsFree(s: State, t: TaskId)
    requires Locked(s) && t in s.tasks && s.tasks[t].at.Waiting? && Idle(s.tasks, s.tasks[t].file.id)
    ensures Enabled(s, t, Enters)
  {
  }

  /** An assembly of an idle file that nothing disturbs. */
  lemma Assembles(s: State, v: State, t: TaskId, file: File) returns (u: State)
    requires Leads(s, v) && Locked(v) && t !in v.tasks && Idle(v.tasks, file.id)
    ensures Leads(s, u) && Locked(u) && u.tasks == v.tasks && u.pending == v.pending
    ensures u.published == v.published + {file} && u.blobs == v.blobs + {file}
  {
    hide Leads, Locked;
    var w := EnterIdle(s, v, t, Assembly, file);
    LeadsOn(s, w, t, Commits(true, true));
    LocksAreSound(w, t, Commits(true, true));
    var x := Apply(w, t, Commits(true, true));
    LeadsOn(s, x, t, Publishes(true));
    LocksAreSound(x, t, Publishes(true));
    u := Apply(x, t, Publishes(true));
    assert x.tasks - {t} == w.tasks - {t};
  }

  /** A deletion of a published, idle file that nothing disturbs. */
  lemma Deletes(s: State, v: State, t: TaskId, file: File) returns (u: State)
    requires Leads(s, v) && Locked(v) && t !in v.tasks && Idle(v.tasks, file.id) && file in v.published
    ensures Leads(s, u) && Locked(u) && u.tasks == v.tasks && u.pending == v.pending
    ensures u.published == v.published - {file} && u.blobs == v.blobs - {file}
  {
    hide Leads, Locked;
    var w := EnterIdle(s, v, t, Deletion, file);
    LeadsOn(s, w, t, Unlists(true, true));
    LocksAreSound(w, t, Unlists(true, true));
    var x := Apply(w, t, Unlists(true, true));
    LeadsOn(s, x, t, DeletesBlob(true));
    LocksAreSound(x, t, DeletesBlob(true));
    u := Apply(x, t, DeletesBlob(true));
    assert x.tasks - {t} == w.tasks - {t};
  }

  /** An abandoned removal lands after the file was assembled again, an abandoned publication after it was
      assembled and deleted: either way metadata is left without its blob. */
  lemma AbandonedCallLoses(s: State, t: TaskId) returns (u: State)
    requires Inv(s) && Enabled(s, t, IsDropped(true)) && Abandons(s, t, IsDropped(true))
    ensures Leads(Apply(s, t, IsDropped(true)), u) && !(u.published <= u.blobs)
  {
    var file, e := s.tasks[t].file, InFlight(s.tasks[t]).value;
    var dropped := Apply(s, t, IsDropped(true));
    LocksAreSound(s, t, IsDropped(true));
    forall v | v in dropped.tasks && dropped.tasks[v].at.Holds() ensures dropped.tasks[v].file.id != file.id {
      if s.tasks[v].file.id == file.id { HoldersAreOne(s, t, v); }
    }
    LeadsNowhere(dropped);
    hide Leads, Locked, Inv;
    u := Assembles(dropped, dropped, t, file);
    if e.LatePublish? { u := Deletes(dropped, u, t, file); }
    var i := |s.pending|;
    assert u.pending[i] == e;
    LeadsOn(dropped, u, t, Lands(i));
    u := Apply(u, t, Lands(i));
    assert file in u.published && file !in u.blobs;
  }

  /** Exactly the abandoned calls do harm: in every state that settled runs reach, a step keeps metadata and
      blobs together in all settled runs after it if and only if it abandons no publication or removal. */
  lemma SafeExactlyIfSettled(s: State, t: TaskId, step: Step)
    requires Inv(s) && Enabled(s, t, step)
    ensures !Abandons(s, t, step) <==> forall u :: Leads(Apply(s, t, step), u) ==> u.published <= u.blobs
  {
    var after := Apply(s, t, step);
    if Abandons(s, t, step) {
      var u := AbandonedCallLoses(s, t);
    } else {
      StepIsSound(s, t, step);
      forall u | Leads(after, u) ensures u.published <= u.blobs {
        var steps :| Legal(after, steps) && Settled(after, steps) && Execute(after, steps) == u;
        RunIsSound(after, steps);
      }
    }
  }

  /** Both happen from the empty store: a deletion dropped during its blob removal, and an assembly dropped
      during its publication. */
  lemma AbandonedRun(kind: Kind, file: File, t: TaskId) returns (v: State, u: State)
    ensures Leads(EMPTY, v) && Inv(v) && t in v.tasks && v.tasks[t].kind == kind && v.tasks[t].file == file
    ensures Enabled(v, t, IsDropped(true)) && Leads(Apply(v, t, IsDropped(true)), u) && !(u.published <= u.blobs)
  {
    LeadsNowhere(EMPTY);
    assert Locked(EMPTY);
    hide Leads, Locked;
    v := EMPTY;
    if kind.Deletion? { v := Assembles(EMPTY, EMPTY, t, file); }
    v := EnterIdle(EMPTY, v, t, kind, file);
    var call := if kind.Assembly? then Commits(true, true) else Unlists(true, true);
    LeadsOn(EMPTY, v, t, call);
    v := Apply(v, t, call);
    LedIsSound(v);
    u := AbandonedCallLoses(v, t);
  }

  lemma LedIsSound(v: State)
    requires Leads(EMPTY, v)
    ensures Inv(v)
  {
    var steps :| Legal(EMPTY, steps) && Settled(EMPTY, steps) && Execute(EMPTY, steps) == v;
    assert Inv(EMPTY);
    RunIsSound(EMPTY, steps);
  }
}
