/** The archive worker of `archive.rs`.

    Every durable call of the worker meets an arbitrary moment: records arrive, are rewritten and expire first, and
    then the call succeeds, fails with or without its effect, or the process stops there and starts again from the
    top. */
module Archive {
  import opened Common
  import opened ArchiveStorage

  datatype Fault = InvalidData | Unavailable | Conflict | Corrupt | Integrity | Stopped

  datatype Outcome<+T> = Ok(value: T) | Err(fault: Fault)

  datatype Act =
    | Arriving(id: SourceId, record: Bytes)
    | Rewriting(id: SourceId, record: Bytes, keeps: bool)
    | Expiring(id: SourceId)

  /** `selection` and `page` are what queries are going to answer, and `stored` is what an object store made of the
      bytes if not the bytes themselves. */
  datatype Moment = Moment(acts: seq<Act>, fault: Option<Fault>, effect: bool, selection: seq<SourceId>,
                           page: seq<Segment>, more: bool, stored: Option<Bytes>)

  /** After the script nothing else happens and every call succeeds. */
  const IDLE := Moment([], None, true, [], [], false, None)

  /** Nobody else acts, and no call fails. */
  ghost predicate Calm(script: seq<Moment>) {
    forall i :: 0 <= i < |script| ==> script[i].acts == [] && script[i].fault.None? && script[i].stored.None?
  }

  /** `records` are read only for a manifest that is still being written. */
  datatype Claimed = Claimed(segment: Segment, records: Option<seq<Bytes>>)

  datatype Object = Object(segment: Segment, size: nat, checksum: Bytes)

  const KINDS := [Event, Log, Span, Session, Metric]

  predicate Claimable(kind: Kind, selection: seq<SourceId>) {
    selection != [] && forall i :: 0 <= i < |selection| ==> selection[i].kind == kind
  }

  /** A state of the run after its first `n` steps. */
  ghost predicate Passed(codec: Codec, start: View, steps: seq<Step>, n: nat, v: View) {
    exists k :: n <= k <= |steps| && Legal(codec, start, steps[..k]) && Execute(codec, start, steps[..k]) == v
  }

  /** There was a moment since at which the record was gone or had its expiry from the segment. */
  ghost predicate MarkedSince(codec: Codec, start: View, steps: seq<Step>, n: nat, segment: Segment, id: SourceId) {
    exists v :: Passed(codec, start, steps, n, v) && (id in v.store.hot ==> v.store.hot[id].mark == Some(segment))
  }

  lemma MarkedNow(codec: Codec, start: View, steps: seq<Step>, n: nat, v: View, segment: Segment, id: SourceId)
    requires n <= |steps| && Legal(codec, start, steps) && Execute(codec, start, steps) == v
    requires id in v.store.hot ==> v.store.hot[id].mark == Some(segment)
    ensures MarkedSince(codec, start, steps, n, segment, id)
  {
    assert steps[..|steps|] == steps;
  }

  ghost predicate AllMarkedSince(codec: Codec, start: View, steps: seq<Step>, n: nat, segment: Segment,
                                 ids: set<SourceId>) {
    forall id :: id in ids ==> MarkedSince(codec, start, steps, n, segment, id)
  }

  lemma NoneMarked(codec: Codec, start: View, steps: seq<Step>, n: nat, segment: Segment)
    ensures AllMarkedSince(codec, start, steps, n, segment, {})
  {
  }

  /** What was so at some moment was so at some moment, however long ago. */
  lemma MarkedStill(codec: Codec, start: View, steps: seq<Step>, more: seq<Step>, n: nat, later: nat, segment: Segment,
                    id: SourceId)
    requires MarkedSince(codec, start, steps, later, segment, id) && steps <= more && n <= later
    ensures MarkedSince(codec, start, more, n, segment, id)
  {
    var v :| Passed(codec, start, steps, later, v) && (id in v.store.hot ==> v.store.hot[id].mark == Some(segment));
    var k :| later <= k <= |steps| && Legal(codec, start, steps[..k]) && Execute(codec, start, steps[..k]) == v;
    assert more[..k] == steps[..k];
  }

  lemma AllStillMarked(codec: Codec, start: View, steps: seq<Step>, more: seq<Step>, n: nat, later: nat,
                       segment: Segment,
                       ids: set<SourceId>)
    requires AllMarkedSince(codec, start, steps, later, segment, ids) && steps <= more && n <= later
    ensures AllMarkedSince(codec, start, more, n, segment, ids)
  {
    forall id | id in ids ensures MarkedSince(codec, start, more, n, segment, id) {
      MarkedStill(codec, start, steps, more, n, later, segment, id);
    }
  }

  lemma OneMoreMarked(codec: Codec, start: View, steps: seq<Step>, more: seq<Step>, n: nat, segment: Segment,
                      ids: set<SourceId>, id: SourceId)
    requires AllMarkedSince(codec, start, steps, n, segment, ids) && n <= |steps| && steps <= more
    requires MarkedSince(codec, start, more, |steps|, segment, id)
    ensures AllMarkedSince(codec, start, more, n, segment, ids + {id})
  {
    AllStillMarked(codec, start, steps, more, n, n, segment, ids);
    MarkedStill(codec, start, more, more, n, |steps|, segment, id);
  }

  lemma MarkMissing(s: Store, segment: Segment, id: SourceId)
    requires id !in s.hot
    ensures Mark(s, segment, {id}) == s
  {
    assert Mark(s, segment, {id}).hot == s.hot;
  }

  lemma MarkGives(s: Store, segment: Segment, id: SourceId)
    requires id in s.hot && id in segment.sources
    ensures id in Mark(s, segment, {id}).hot && Mark(s, segment, {id}).hot[id].mark == Some(segment)
    ensures Mark(s, segment, {id}).manifests == s.manifests && Mark(s, segment, {id}).objects == s.objects
  {
  }

  lemma MarkMore(s: Store, segment: Segment, done: set<SourceId>, id: SourceId)
    ensures Mark(Mark(s, segment, done), segment, {id}) == Mark(s, segment, done + {id})
  {
  }

  lemma MarkAll(s: Store, segment: Segment, done: set<SourceId>)
    requires forall id :: id in segment.sources ==> id in done
    ensures Mark(s, segment, done) == Mark(s, segment, s.hot.Keys)
  {
  }

  lemma MarkNone(s: Store, segment: Segment)
    ensures Mark(s, segment, {}) == s
  {
    assert Mark(s, segment, {}).hot == s.hot;
  }

  lemma RecordsAreHot(f: Flight, hot: Records)
    requires f.AllRead() && forall id :: id in f.read ==> id in hot && f.read[id] == hot[id].record
    ensures f.Records() == HotRecords(hot, f.segment.sources)
  {
  }

  /** What an open manifest that is still being written lists can be read. */
  lemma WritingIsUnmarked(codec: Codec, v: View, segment: Segment)
    requires Structure(codec, v) && IsWriting(v.store.manifests, segment)
    ensures Unmarked(v.store.hot, segment)
  {
  }

  /** Only objects that no manifest names are missing. */
  ghost predicate Pruned(before: Objects, after: Objects, manifests: Manifests) {
    && after.Keys <= before.Keys
    && forall segment :: segment in before ==>
      if segment in after then after[segment] == before[segment] else segment !in manifests
  }

  lemma PrunedMore(before: Objects, objects: Objects, manifests: Manifests, segment: Segment)
    requires Pruned(before, objects, manifests) && segment !in manifests
    ensures Pruned(before, objects - {segment}, manifests)
  {
  }

  lemma PrunedSelf(objects: Objects, manifests: Manifests)
    ensures Pruned(objects, objects, manifests)
  {
  }

  lemma CompleteIsArchived(codec: Codec, v: View, segment: Segment)
    requires Structure(codec, v) && segment in v.store.manifests && v.store.manifests[segment].progress.Complete?
    ensures Archived(codec, v.Archive(), segment)
  {
  }

  // ---- the undisturbed round ----

  /** The encoder takes the records, and no other object is in their place. */
  predicate Encodes(codec: Codec, s: Store, segment: Segment)
    requires forall i :: 0 <= i < |segment.sources| ==> segment.sources[i] in s.hot
  {
    var encoded := codec.encode(segment.kind, HotRecords(s.hot, segment.sources));
    && encoded.Some?
    && (segment in s.objects ==>
          |s.objects[segment]| == |encoded.value| && codec.hash(s.objects[segment]) == codec.hash(encoded.value))
  }

  predicate CanWrite(codec: Codec, s: Store, segment: Segment) {
    && segment.sources != [] && (forall i :: 0 <= i < |segment.sources| ==> segment.sources[i] in s.hot)
    && Encodes(codec, s, segment)
  }

  /** Wherever the worker stopped: the kind's one open segment can be brought to its end. */
  ghost predicate CanResume(codec: Codec, s: Store, kind: Kind, segment: Segment) {
    && IsOpen(s.manifests, kind, segment)
    && (forall other :: IsOpen(s.manifests, kind, other) ==> other == segment)
    && (s.manifests[segment].progress.Writing? ==> CanWrite(codec, s, segment))
    && NoConflict(s.hot, segment)
  }

  /** In every state the worker can be stopped in, a round that nothing disturbs brings an open segment to its
      end: only the encoder or a foreign object can be in its way. */
  lemma OpenCanResume(codec: Codec, v: View, kind: Kind, segment: Segment)
    requires Structure(codec, v) && IsOpen(v.store.manifests, kind, segment)
    requires
      v.store.manifests[segment].progress.Writing? &&
      (forall i :: 0 <= i < |segment.sources| ==> segment.sources[i] in v.store.hot) ==>
        Encodes(codec, v.store, segment)
    ensures CanResume(codec, v.store, kind, segment)
  {
    hide Finished, Current, Encodes;
  }

  /** A round that nothing disturbs finds nothing open and these records due: they can be archived. */
  ghost predicate CanStart(codec: Codec, s: Store, kind: Kind, script: seq<Moment>) {
    && script != [] && Claimable(kind, script[0].selection)
    && (forall other :: !IsOpen(s.manifests, kind, other))
    && var segment := Segment(kind, script[0].selection);
    && segment !in s.manifests && Unmarked(s.hot, segment) && CanWrite(codec, s, segment)
  }

  /** Then these are its effects. */
  ghost function Started(codec: Codec, s: Store, kind: Kind, script: seq<Moment>): Store
    requires CanStart(codec, s, kind, script)
  {
    var segment := Segment(kind, script[0].selection);
    Ending(Written(codec, Claim(s, segment), segment), segment)
  }

  /** What was claimed can be brought to its end. */
  ghost predicate Ready(codec: Codec, s: Store, claimed: Claimed) {
    && IsOpen(s.manifests, claimed.segment.kind, claimed.segment) && NoConflict(s.hot, claimed.segment)
    && claimed.records.Some? == s.manifests[claimed.segment].progress.Writing?
    && (claimed.records.Some? ==>
          CanWrite(codec, s, claimed.segment) && claimed.records.value == HotRecords(s.hot, claimed.segment.sources))
  }

  ghost function Prepared(codec: Codec, s: Store, claimed: Claimed): Store
    requires Ready(codec, s, claimed)
  {
    if claimed.records.Some? then Written(codec, s, claimed.segment) else s
  }

  ghost predicate ResumeReady(codec: Codec, s: Store, kind: Kind, segment: Segment)
    requires CanResume(codec, s, kind, segment)
  {
    var writing := s.manifests[segment].progress.Writing?;
    var claimed := Claimed(segment, if writing then Some(HotRecords(s.hot, segment.sources)) else None);
    Ready(codec, s, claimed) && Ending(Prepared(codec, s, claimed), segment) == Resumed(codec, s, kind, segment)
  }

  lemma ResumeIsReady(codec: Codec, s: Store, kind: Kind, segment: Segment)
    requires CanResume(codec, s, kind, segment)
    ensures ResumeReady(codec, s, kind, segment)
  {
  }

  lemma StartIsReady(codec: Codec, s: Store, kind: Kind, script: seq<Moment>)
    requires CanStart(codec, s, kind, script)
    ensures
      var segment := Segment(kind, script[0].selection);
      var claimed, u := Claimed(segment, Some(HotRecords(s.hot, segment.sources))), Claim(s, segment);
      && Ready(codec, u, claimed) && Ending(Prepared(codec, u, claimed), segment) == Started(codec, s, kind, script)
      && forall id :: id in script[0].selection ==>
           id in Started(codec, s, kind, script).hot && Started(codec, s, kind, script).hot[id].mark == Some(segment)
  {
    forall id | id in script[0].selection
      ensures id in Started(codec, s, kind, script).hot
      ensures Started(codec, s, kind, script).hot[id].mark == Some(Segment(kind, script[0].selection))
    {
      StartedMarks(codec, s, kind, script, id);
    }
  }

  lemma StartedMarks(codec: Codec, s: Store, kind: Kind, script: seq<Moment>, id: SourceId)
    requires CanStart(codec, s, kind, script) && id in script[0].selection
    ensures id in s.hot
    ensures
      var u := Started(codec, s, kind, script);
      id in u.hot && u.hot[id] == Hot(s.hot[id].record, Some(Segment(kind, script[0].selection)))
  {
    var i :| 0 <= i < |script[0].selection| && script[0].selection[i] == id;
  }

  /** One round in which no kind has anything open or due, and the moment of the clean-up. */
  ghost predicate IsIdle(s: Store, script: seq<Moment>) {
    && (forall segment :: segment in s.manifests ==> s.manifests[segment].committed)
    && |script| == |KINDS| + 1 && forall i :: 0 <= i < |KINDS| ==> script[i].selection == []
  }

  predicate IsCommitted(manifests: Manifests, segment: Segment) { segment in manifests && manifests[segment].committed }

  lemma StartHasScript(codec: Codec, s: Store, kind: Kind, script: seq<Moment>)
    requires CanStart(codec, s, kind, script)
    ensures script != []
  {
  }

  lemma IdleHasScript(s: Store, script: seq<Moment>)
    requires IsIdle(s, script)
    ensures script != []
  {
  }

  lemma CommittedIsArchived(codec: Codec, v: View, segment: Segment)
    requires Structure(codec, v) && IsCommitted(v.store.manifests, segment)
    ensures Archived(codec, v.Archive(), segment)
  {
  }

  ghost predicate Lasting(a: Manifests, b: Manifests) {
    forall segment :: segment in a && a[segment].committed ==> segment in b && b[segment].committed
  }

  function Written(codec: Codec, s: Store, segment: Segment): Store
    requires segment in s.manifests && CanWrite(codec, s, segment)
  {
    var bytes := codec.encode(segment.kind, HotRecords(s.hot, segment.sources)).value;
    Finish(if segment in s.objects then s else Put(s, segment, bytes), segment, |bytes|, codec.hash(bytes))
  }

  function Ending(s: Store, segment: Segment): Store
    requires segment in s.manifests
  {
    Commit(Mark(s, segment, s.hot.Keys), segment)
  }

  /** The durable effects that are still missing, in order. */
  ghost function Resumed(codec: Codec, s: Store, kind: Kind, segment: Segment): Store
    requires CanResume(codec, s, kind, segment)
  {
    Ending(if s.manifests[segment].progress.Writing? then Written(codec, s, segment) else s, segment)
  }

  class ArchiveService {
    const codec: Codec
    const chunkBytes: nat
    const maximumPages: nat
    var store: Store
    var script: seq<Moment>

    // The run so far, from the state the service began with.
    ghost const start: View
    ghost var view: View
    ghost var steps: seq<Step>

    constructor (codec: Codec, chunkBytes: nat, maximumPages: nat, store: Store, script: seq<Moment>, ghost start: View)
      requires chunkBytes > 0 && Inv(codec, start) && start.store == store
      ensures Valid() && this.codec == codec && this.store == store && this.script == script && this.start == start
      ensures view == start && steps == []
    {
      this.codec, this.chunkBytes, this.maximumPages := codec, chunkBytes, maximumPages;
      this.store, this.script := store, script;
      this.start, view, steps := start, start, [];
    }

    /** All that happened to the storage is a legal run, whatever the writers did. */
    ghost predicate Valid()
      reads this
    {
      && chunkBytes > 0 && Inv(codec, start) && Structure(codec, view) && view.store == store
      && Legal(codec, start, steps) && Execute(codec, start, steps) == view
    }

    /** One durable effect. */
    method Change(next: Store, ghost step: Step)
      requires Valid() && Enabled(codec, view, step) && next == Apply(codec, view, step).store
      modifies `store, `view, `steps
      ensures Valid() && view == Apply(codec, old(view), step) && store == next && steps == old(steps) + [step]
    {
      hide Inv, Structure, Enabled, Apply, Legal, Execute;
      StepKeepsStructure(codec, view, step);
      OneMore(codec, start, steps, step);
      store, view, steps := next, Apply(codec, view, step), steps + [step];
    }

    /** The worker gives up its batch, or has completed it. */
    ghost method Drop()
      requires Valid()
      modifies `view, `steps
      ensures Valid() && view == old(view).(flight := None) && old(steps) <= steps
    {
      hide Inv, Structure, Legal, Execute;
      StepKeepsStructure(codec, view, GivesUp);
      OneMore(codec, start, steps, GivesUp);
      view, steps := view.(flight := None), steps + [GivesUp];
    }

    /** Others act; what they may do is limited to hot storage. */
    method Await() returns (m: Moment)
      requires Valid()
      modifies `store, `view, `steps, `script
      ensures Valid() && old(steps) <= steps && view.flight == old(view.flight)
      ensures store.manifests == old(store.manifests) && store.objects == old(store.objects)
      ensures if old(script) == [] then script == [] && m == IDLE else script == old(script)[1..] && m == old(script)[0]
      ensures Calm(old(script)) ==> Calm(script) && m.fault.None? && m.stored.None? && view == old(view)
    {
      hide Inv, Structure, Legal, Execute;
      if script == [] { return IDLE; }
      m := script[0];
      script := script[1..];
      for i := 0 to |m.acts|
        modifies `store, `view, `steps
        invariant Valid() && old(steps) <= steps && view.flight == old(view.flight)
        invariant store.manifests == old(store.manifests) && store.objects == old(store.objects)
        invariant i == 0 ==> view == old(view) && store == old(store)
      {
        Happens(m.acts[i]);
      }
    }

    /** An arrival under an id in hot storage is a duplicate, a rewrite without a record is nothing, and only what
        has an expiry expires. */
    method Happens(act: Act)
      requires Valid()
      modifies `store, `view, `steps
      ensures Valid() && old(steps) <= steps && view.flight == old(view.flight)
      ensures store.manifests == old(store.manifests) && store.objects == old(store.objects)
      ensures act.Arriving? && act.id !in old(store.hot) ==> steps == old(steps) + [Arrives(act.id, act.record)]
      ensures act.Rewriting? && act.id in old(store.hot) ==>
        steps == old(steps) + [Rewrites(act.id, act.record, act.keeps)]
      ensures act.Expiring? && act.id in old(store.hot) && old(store.hot)[act.id].mark.Some? ==>
        steps == old(steps) + [Expires(act.id)]
    {
      hide Inv, Structure, Legal, Execute;
      match act
      case Arriving(id, record) =>
        if id !in store.hot { Change(Arrive(store, id, record), Arrives(id, record)); }
      case Rewriting(id, record, keeps) =>
        if id in store.hot { Change(Rewrite(store, id, record, keeps), Rewrites(id, record, keeps)); }
      case Expiring(id) =>
        if id in store.hot && store.hot[id].mark.Some? { Change(Expire(store, id), Expires(id)); }
    }

    // ---- the stores, as the worker calls them ----

    /** Reads the records of the segment one by one, as they are when the cursor comes to them. */
    method Load(segment: Segment) returns (r: Outcome<seq<Bytes>>)
      requires Valid() && Enabled(codec, view, Begins(segment))
      modifies `store, `view, `steps, `script
      ensures Valid() && old(steps) <= steps && |script| <= |old(script)|
      ensures store.manifests == old(store.manifests) && store.objects == old(store.objects)
      ensures if r.Ok? then InFlight(segment, r.value) else view.flight.None?
      ensures Calm(old(script)) ==> Calm(script)
      ensures Calm(old(script)) && Unmarked(old(store.hot), segment) ==>
        store == old(store) && r == Ok(HotRecords(store.hot, segment.sources))
    {
      hide Inv, Structure, Legal, Execute, CanOpen, Calm;
      var unread := set id | id in segment.sources;
      var read: map<SourceId, Bytes> := map[];
      Change(store, Begins(segment));
      while unread != {}
        modifies `store, `view, `steps, `script
        invariant Valid() && old(steps) <= steps && |script| <= |old(script)|
        invariant store.manifests == old(store.manifests) && store.objects == old(store.objects)
        invariant view.flight == Some(Flight(segment, read))
        invariant unread == (set id | id in segment.sources && id !in read)
        invariant Calm(old(script)) ==> Calm(script) && store == old(store)
        invariant Calm(old(script)) ==> forall id :: id in read ==> id in store.hot && read[id] == store.hot[id].record
        decreases unread
      {
        var id :| id in unread;
        var m := Await();
        if m.fault.Some? {
          Drop();
          return Err(m.fault.value);
        }
        if id !in store.hot || store.hot[id].mark.Some? {
          Drop();
          return Err(InvalidData);
        }
        read := read[id := store.hot[id].record];
        Change(store, Reads(id));
        unread := unread - {id};
      }
      forall i | 0 <= i < |segment.sources| ensures segment.sources[i] in read {
        assert segment.sources[i] !in unread;
      }
      if Calm(old(script)) { RecordsAreHot(Flight(segment, read), store.hot); }
      return Ok(Flight(segment, read).Records());
    }

    /** The worker holds these records for the segment. */
    ghost predicate InFlight(segment: Segment, records: seq<Bytes>)
      reads this
    {
      && view.flight.Some? && view.flight.value.segment == segment && view.flight.value.AllRead()
      && view.flight.value.Records() == records
    }

    /** `claim`: first resumes what is not committed. Otherwise it reads a selection of due records, and only then
        inserts the manifest for what it has read. */
    method ClaimBatch(kind: Kind) returns (r: Outcome<Option<Claimed>>)
      requires Valid() && view.flight.None?
      modifies `store, `view, `steps, `script
      ensures Valid() && old(steps) <= steps
      ensures |script| < |old(script)| || (old(script) == [] && script == [])
      ensures r.Ok? && r.value.Some? ==>
        var claimed := r.value.value;
        && claimed.segment in store.manifests && claimed.segment.kind == kind
        && (claimed.records.Some? <==> store.manifests[claimed.segment].progress.Writing?)
        && (claimed.records.Some? ==> InFlight(claimed.segment, claimed.records.value))
      ensures !(r.Ok? && r.value.Some? && r.value.value.records.Some?) ==> view.flight.None?
      ensures (exists open :: IsOpen(old(store.manifests), kind, open)) ==> store.manifests == old(store.manifests)
      ensures Lasting(old(store.manifests), store.manifests)
      ensures Calm(old(script)) ==> Calm(script)
      ensures Calm(old(script)) && CanStart(codec, old(store), kind, old(script)) ==>
        var segment := Segment(kind, old(script)[0].selection);
        && store == Claim(old(store), segment)
        && r == Ok(Some(Claimed(segment, Some(HotRecords(store.hot, segment.sources)))))
      ensures Calm(old(script)) && (forall other :: !IsOpen(old(store.manifests), kind, other))
              && (old(script) == [] || old(script)[0].selection == []) ==>
        store == old(store) && r == Ok(None) && script == if old(script) == [] then [] else old(script)[1..]
      ensures Calm(old(script)) ==> forall segment :: CanResume(codec, old(store), kind, segment) ==>
        && store == old(store) && r.Ok? && r.value.Some? && r.value.value.segment == segment
        && (r.value.value.records.Some? ==>
              CanWrite(codec, store, segment) && r.value.value.records.value == HotRecords(store.hot, segment.sources))
    {
      hide Inv, Structure, Legal, Execute, Encodes;
      var m := Await();
      if m.fault.Some? { return Err(m.fault.value); }
      if open: Segment :| open in store.manifests && IsOpen(store.manifests, kind, open) {
        r := Resume(open);
        return;
      }
      if m.selection == [] { return Ok(None); }
      if !Claimable(kind, m.selection) { return Err(InvalidData); }
      var segment := Segment(kind, m.selection);
      if segment in store.manifests {
        r := Resume(segment);
        return;
      }
      assert CanOpen(store.manifests, segment);
      r := ClaimNew(segment);
    }

    /** A manifest that exists: its records are read only while it is being written. */
    method Resume(segment: Segment) returns (r: Outcome<Option<Claimed>>)
      requires Valid() && view.flight.None? && segment in store.manifests
      modifies `store, `view, `steps, `script
      ensures Valid() && old(steps) <= steps && |script| <= |old(script)|
      ensures store.manifests == old(store.manifests)
      ensures r.Ok? ==>
        && r.value.Some? && r.value.value.segment == segment
        && r.value.value.records.Some? == store.manifests[segment].progress.Writing?
        && (r.value.value.records.Some? ==> InFlight(segment, r.value.value.records.value))
      ensures !(r.Ok? && r.value.value.records.Some?) ==> view.flight.None?
      ensures Calm(old(script)) ==>
        && Calm(script) && store == old(store) && r.Ok?
        && (r.value.value.records.Some? ==>
              Unmarked(store.hot, segment) && r.value.value.records.value == HotRecords(store.hot, segment.sources))
    {
      hide Inv, Structure, Legal, Execute;
      if store.manifests[segment].progress.Complete? { return Ok(Some(Claimed(segment, None))); }
      WritingIsUnmarked(codec, view, segment);
      var loaded := Load(segment);
      return if loaded.Ok? then Ok(Some(Claimed(segment, Some(loaded.value)))) else Err(loaded.fault);
    }

    /** Inserts the manifest for what was read. */
    method InsertManifest(segment: Segment, ghost records: seq<Bytes>) returns (r: Outcome<()>)
      requires Valid() && InFlight(segment, records) && segment !in store.manifests
      modifies `store, `view, `steps, `script
      ensures Valid() && old(steps) <= steps && |script| <= |old(script)| && (Calm(old(script)) ==> Calm(script))
      ensures Lasting(old(store.manifests), store.manifests)
      ensures r.Ok? ==> IsWriting(store.manifests, segment) && InFlight(segment, records)
      ensures r.Err? ==> view.flight.None?
      ensures Calm(old(script)) ==> r.Ok? && store == Claim(old(store), segment)
    {
      hide Inv, Structure, Legal, Execute, Calm;
      var m := Await();
      if m.fault.Some? && !m.effect {
        Drop();
        return Err(m.fault.value);
      }
      Change(Claim(store, segment), Claims);
      if m.fault.Some? {
        Drop();
        return Err(m.fault.value);
      }
      return Ok(());
    }

    method ClaimNew(segment: Segment) returns (r: Outcome<Option<Claimed>>)
      requires Valid() && view.flight.None? && CanOpen(store.manifests, segment)
      modifies `store, `view, `steps, `script
      ensures Valid() && old(steps) <= steps && |script| <= |old(script)|
      ensures r.Ok? ==>
        && r.value.Some? && r.value.value.segment == segment && IsWriting(store.manifests, segment)
        && r.value.value.records.Some? && InFlight(segment, r.value.value.records.value)
      ensures r.Err? ==> view.flight.None?
      ensures Lasting(old(store.manifests), store.manifests)
      ensures Calm(old(script)) ==> Calm(script)
      ensures Calm(old(script)) && Unmarked(old(store.hot), segment) ==>
        && store == Claim(old(store), segment)
        && r == Ok(Some(Claimed(segment, Some(HotRecords(store.hot, segment.sources)))))
    {
      assert segment !in store.manifests;
      hide Inv, Structure, Legal, Execute, CanOpen, Calm, Unmarked;
      var loaded := Load(segment);
      if loaded.Err? { return Err(loaded.fault); }
      var inserted := InsertManifest(segment, loaded.value);
      if inserted.Err? { return Err(inserted.fault); }
      return Ok(Some(Claimed(segment, Some(loaded.value))));
    }

    /** A write session: the bytes go out chunk by chunk. */
    method WriteChunks(bytes: Bytes) returns (r: Outcome<Bytes>)
      requires Valid()
      modifies `store, `view, `steps, `script
      ensures Valid() && old(steps) <= steps && view.flight == old(view.flight) && |script| <= |old(script)|
      ensures store.manifests == old(store.manifests) && store.objects == old(store.objects)
      ensures r.Ok? ==> r.value == bytes
      ensures Calm(old(script)) ==> r.Ok? && view == old(view) && Calm(script)
    {
      hide Inv, Structure, Legal, Execute;
      var at, written := 0, [];
      while at < |bytes|
        modifies `store, `view, `steps, `script
        invariant Valid() && old(steps) <= steps && view.flight == old(view.flight) && |script| <= |old(script)|
        invariant store.manifests == old(store.manifests) && store.objects == old(store.objects)
        invariant at <= |bytes| && written == bytes[..at]
        invariant Calm(old(script)) ==> view == old(view) && Calm(script)
        decreases |bytes| - at
      {
        var m := Await();
        if m.fault.Some? { return Err(m.fault.value); }
        var end := if at + chunkBytes <= |bytes| then at + chunkBytes else |bytes|;
        written := written + bytes[at..end];
        at := end;
      }
      return Ok(written);
    }

    /** Publishes what was written, unless an object with other content is there, and describes what is stored. */
    method CommitObject(segment: Segment, written: Bytes) returns (r: Outcome<Object>)
      requires Valid() && segment in store.manifests
      modifies `store, `view, `steps, `script
      ensures Valid() && old(steps) <= steps && view.flight == old(view.flight) && |script| <= |old(script)|
      ensures store.manifests == old(store.manifests)
      ensures forall other :: other in old(store.objects) ==>
        other in store.objects && store.objects[other] == old(store.objects[other])
      ensures r.Ok? ==> r.value.segment == segment && segment in store.objects
                        && Describes(codec, r.value.size, r.value.checksum, store.objects[segment])
      ensures Calm(old(script)) ==> Calm(script)
      ensures Calm(old(script)) && (segment in old(store.objects) ==>
          && |old(store.objects)[segment]| == |written|
          && codec.hash(old(store.objects)[segment]) == codec.hash(written)) ==>
        && r == Ok(Object(segment, |written|, codec.hash(written)))
        && store == (if segment in old(store.objects) then old(store) else Put(old(store), segment, written))
    {
      hide Inv, Structure, Legal, Execute;
      var m := Await();
      if m.fault.Some? && !m.effect { return Err(m.fault.value); }
      if segment in store.objects {
        var existing := store.objects[segment];
        if |existing| != |written| || codec.hash(existing) != codec.hash(written) { return Err(Corrupt); }
      } else {
        var stored := if m.stored.Some? then m.stored.value else written;
        Change(Put(store, segment, stored), Puts(segment, stored));
      }
      if m.fault.Some? { return Err(m.fault.value); }
      return Ok(Object(segment, |store.objects[segment]|, codec.hash(store.objects[segment])));
    }

    /** Completes the manifest of the records in flight with an object that passed the integrity check. */
    method Complete(blob: Object, ghost records: seq<Bytes>) returns (r: Outcome<()>)
      requires Valid() && InFlight(blob.segment, records)
      requires CanFinish(codec, store, blob.segment, records, blob.size, blob.checksum)
      modifies `store, `view, `steps, `script
      ensures Valid() && old(steps) <= steps && |script| <= |old(script)|
      ensures store.objects == old(store.objects) && store.manifests.Keys == old(store.manifests).Keys
      ensures Lasting(old(store.manifests), store.manifests)
      ensures r.Ok? ==> blob.segment in store.manifests
                        && store.manifests[blob.segment].progress == ArchiveStorage.Complete(blob.size, blob.checksum)
      ensures Calm(old(script)) ==> Calm(script)
      ensures Calm(old(script)) && blob.segment in old(store.manifests)
              && old(store.manifests)[blob.segment] == Manifest(Writing, false) ==>
        r.Ok? && store == Finish(old(store), blob.segment, blob.size, blob.checksum)
    {
      hide Inv, Structure, Legal, Execute;
      var segment := blob.segment;
      var m := Await();
      if m.fault.Some? && !m.effect { return Err(m.fault.value); }
      if segment !in store.manifests { return Err(InvalidData); }
      var manifest := store.manifests[segment];
      if manifest.progress.Complete? {
        return if manifest.progress == ArchiveStorage.Complete(blob.size, blob.checksum) then Ok(()) else Err(Conflict);
      }
      if manifest.committed { return Err(Unavailable); }
      Change(Finish(store, segment, blob.size, blob.checksum), Finishes(blob.size, blob.checksum));
      if m.fault.Some? { return Err(m.fault.value); }
      return Ok(());
    }

    /** One document of the update. */
    method MarkSource(segment: Segment, id: SourceId) returns (r: Outcome<nat>)
      requires Valid() && CanMark(store.manifests, segment) && id in segment.sources
      modifies `store, `view, `steps, `script
      ensures Valid() && old(steps) <= steps && view.flight == old(view.flight) && |script| <= |old(script)|
      ensures store.objects == old(store.objects) && store.manifests == old(store.manifests)
      ensures r.Ok? ==> MarkedSince(codec, start, steps, |old(steps)|, segment, id)
      ensures Calm(old(script)) ==> Calm(script) && r.Ok? && store == Mark(old(store), segment, {id})
    {
      hide Inv, Structure, Legal, Execute, MarkedSince, Mark;
      var m := Await();
      if m.fault.Some? { return Err(m.fault.value); }
      r := Ok(0);
      if id in store.hot {
        MarkGives(store, segment, id);
        Change(Mark(store, segment, {id}), Marks(segment, {id}));
        r := Ok(1);
      } else {
        MarkMissing(store, segment, id);
      }
      MarkedNow(codec, start, steps, |old(steps)|, view, segment, id);
    }

    /** The sources of a complete manifest get their expiry, one after the other and in any order, if no other segment
        gave them one. A writer may come between two of them. */
    method MarkSources(segment: Segment) returns (r: Outcome<nat>)
      requires Valid() && CanMark(store.manifests, segment)
      modifies `store, `view, `steps, `script
      ensures Valid() && old(steps) <= steps && view.flight == old(view.flight) && |script| <= |old(script)|
      ensures store.objects == old(store.objects) && store.manifests == old(store.manifests)
      ensures r.Ok? ==> AllMarkedSince(codec, start, steps, |old(steps)|, segment, set id | id in segment.sources)
      ensures Calm(old(script)) ==> Calm(script)
      ensures Calm(old(script)) && NoConflict(old(store.hot), segment) ==>
        r.Ok? && store == Mark(old(store), segment, old(store.hot).Keys)
    {
      hide Inv, Structure, Legal, Execute, AllMarkedSince, MarkedSince, Mark;
      var m := Await();
      if m.fault.Some? { return Err(m.fault.value); }
      if !NoConflict(store.hot, segment) { return Err(Conflict); }
      var rest, marked := set id | id in segment.sources, 0;
      ghost var all, done: set<SourceId> := rest, {};
      MarkNone(store, segment);
      NoneMarked(codec, start, steps, |old(steps)|, segment);
      while rest != {}
        modifies `store, `view, `steps, `script
        invariant Valid() && old(steps) <= steps && view.flight == old(view.flight) && |script| <= |old(script)|
        invariant store.objects == old(store.objects) && store.manifests == old(store.manifests)
        invariant all == rest + done && AllMarkedSince(codec, start, steps, |old(steps)|, segment, done)
        invariant Calm(old(script)) ==> Calm(script) && store == Mark(old(store), segment, done)
        decreases rest
      {
        var id :| id in rest;
        ghost var past := steps;
        MarkMore(old(store), segment, done, id);
        var one := MarkSource(segment, id);
        if one.Err? { return Err(one.fault); }
        OneMoreMarked(codec, start, past, steps, |old(steps)|, segment, done, id);
        marked := marked + one.value;
        done, rest := done + {id}, rest - {id};
      }
      assert done == all;
      MarkAll(old(store), segment, done);
      return Ok(marked);
    }

    /** The manifest says that its sources are committed only after each of them had its expiry or was gone. */
    method CommitSources(segment: Segment) returns (r: Outcome<nat>)
      requires Valid()
      modifies `store, `view, `steps, `script
      ensures Valid() && old(steps) <= steps && view.flight == old(view.flight) && |script| <= |old(script)|
      ensures store.objects == old(store.objects) && store.manifests.Keys == old(store.manifests).Keys
      ensures forall other :: other in store.manifests ==>
        store.manifests[other].progress == old(store.manifests)[other].progress
      ensures Lasting(old(store.manifests), store.manifests)
      ensures r.Ok? ==>
        segment in store.manifests && store.manifests[segment].progress.Complete? && store.manifests[segment].committed
      ensures
        && segment in store.manifests && store.manifests[segment].committed
        && !old(store.manifests)[segment].committed ==>
          AllMarkedSince(codec, start, steps, |old(steps)|, segment, set id | id in segment.sources)
      ensures Calm(old(script)) ==> Calm(script)
      ensures Calm(old(script)) && CanMark(old(store.manifests), segment) && NoConflict(old(store.hot), segment) ==>
        r.Ok? && store == Ending(old(store), segment)
    {
      hide Inv, Structure, Legal, Execute, AllMarkedSince, Calm;
      var m := Await();
      if m.fault.Some? { return Err(m.fault.value); }
      if segment !in store.manifests || !store.manifests[segment].progress.Complete? { return Err(InvalidData); }
      if store.manifests[segment].committed { return Ok(0); }
      ghost var first := steps;
      r := MarkSources(segment);
      if r.Err? { return; }
      ghost var past := steps;
      m := Await();
      if m.fault.Some? && !m.effect { return Err(m.fault.value); }
      Change(Commit(store, segment), Commits(segment));
      AllStillMarked(codec, start, past, steps, |old(steps)|, |first|, segment, set id | id in segment.sources);
      if m.fault.Some? { return Err(m.fault.value); }
    }

    // ---- the worker ----

    method Publish(segment: Segment, records: seq<Bytes>) returns (r: Outcome<nat>)
      requires Valid() && segment in store.manifests && InFlight(segment, records)
      modifies `store, `view, `steps, `script
      ensures Valid() && old(steps) <= steps && |script| <= |old(script)|
      ensures store.manifests.Keys == old(store.manifests).Keys
      ensures r.Ok? ==> store.manifests[segment].progress.Complete?
      ensures Lasting(old(store.manifests), store.manifests)
      ensures Calm(old(script)) ==> Calm(script)
      ensures Calm(old(script)) && old(store.manifests)[segment] == Manifest(Writing, false)
              && CanWrite(codec, old(store), segment) && records == HotRecords(old(store.hot), segment.sources) ==>
        r.Ok? && store == Written(codec, old(store), segment)
    {
      hide Inv, Structure, Legal, Execute, Calm;
      if |records| != |segment.sources| || records == [] { return Err(InvalidData); }
      var encoded := codec.encode(segment.kind, records);
      if encoded.None? { return Err(InvalidData); }
      var bytes := encoded.value;
      var m := Await();
      if m.fault.Some? { return Err(m.fault.value); }
      var session := WriteChunks(bytes);
      if session.Err? { return Err(session.fault); }
      var blob := CommitObject(segment, session.value);
      if blob.Err? { return Err(blob.fault); }
      if blob.value.size != |bytes| || blob.value.checksum != codec.hash(bytes) { return Err(Integrity); }
      var completed := Complete(blob.value, records);
      if completed.Err? { return Err(completed.fault); }
      return Ok(blob.value.size);
    }

    /** Publishes what was claimed if it is still being written, and then commits its sources. */
    method ArchiveClaimed(claimed: Claimed) returns (r: Outcome<nat>)
      requires Valid() && claimed.segment in store.manifests
      requires claimed.records.Some? == store.manifests[claimed.segment].progress.Writing?
      requires if claimed.records.Some? then InFlight(claimed.segment, claimed.records.value) else view.flight.None?
      modifies `store, `view, `steps, `script
      ensures Valid() && old(steps) <= steps && view.flight.None? && |script| <= |old(script)|
      ensures Lasting(old(store.manifests), store.manifests) && (Calm(old(script)) ==> Calm(script))
      ensures r.Ok? ==>
        && claimed.segment in store.manifests && store.manifests[claimed.segment].committed
        && Archived(codec, view.Archive(), claimed.segment)
      ensures Calm(old(script)) && Ready(codec, old(store), claimed) ==>
        r.Ok? && store == Ending(Prepared(codec, old(store), claimed), claimed.segment)
    {
      hide Inv, Structure, Legal, Execute, Archived, CanWrite, Calm, AllMarkedSince;
      var segment := claimed.segment;
      if claimed.records.Some? {
        var stored := Publish(segment, claimed.records.value);
        Drop();
        if stored.Err? { return Err(stored.fault); }
      }
      r := CommitSources(segment);
      if r.Ok? { CompleteIsArchived(codec, view, segment); }
    }

    /** One round for a kind. It succeeds only with its batch complete and its sources committed. */
    method RunKindOnce(kind: Kind) returns (r: Outcome<nat>, done: Option<Segment>)
      requires Valid() && view.flight.None?
      modifies `store, `view, `steps, `script
      ensures Valid() && old(steps) <= steps && view.flight.None?
      ensures |script| < |old(script)| || (old(script) == [] && script == [])
      ensures r.Ok? && done.Some? ==>
        && done.value in store.manifests && store.manifests[done.value].committed
        && Archived(codec, view.Archive(), done.value)
      ensures Calm(old(script)) ==> forall segment :: CanResume(codec, old(store), kind, segment) ==>
        r.Ok? && done == Some(segment) && store == Resumed(codec, old(store), kind, segment)
      ensures Lasting(old(store.manifests), store.manifests) && (Calm(old(script)) ==> Calm(script))
      ensures Calm(old(script)) && CanStart(codec, old(store), kind, old(script)) ==>
        && r.Ok? && done == Some(Segment(kind, old(script)[0].selection))
        && store == Started(codec, old(store), kind, old(script))
        && forall id :: id in old(script)[0].selection ==>
             id in store.hot && store.hot[id].mark == Some(Segment(kind, old(script)[0].selection))
      ensures Calm(old(script)) && (forall other :: !IsOpen(old(store.manifests), kind, other))
              && (old(script) == [] || old(script)[0].selection == []) ==>
        && store == old(store) && r == Ok(0) && done == None
        && script == if old(script) == [] then [] else old(script)[1..]
    {
      hide Inv, Structure, Legal, Execute, Archived, Calm;
      done := None;
      if CanStart(codec, store, kind, script) { StartIsReady(codec, store, kind, script); }
      forall segment | CanResume(codec, store, kind, segment) ensures ResumeReady(codec, store, kind, segment) {
        ResumeIsReady(codec, store, kind, segment);
      }
      hide CanWrite, Ending, Started, Resumed, Prepared, Ready;
      var claim := ClaimBatch(kind);
      if claim.Err? { return Err(claim.fault), None; }
      if claim.value.None? { return Ok(0), None; }
      done := Some(claim.value.value.segment);
      r := ArchiveClaimed(claim.value.value);
    }

    /** Deletes old objects that no manifest names; the worker claims nothing meanwhile. */
    method CleanupOrphansOnce() returns (r: Outcome<nat>)
      requires Valid() && view.flight.None?
      modifies `store, `view, `steps, `script
      ensures Valid() && old(steps) <= steps && view.flight == old(view.flight) && |script| <= |old(script)|
      ensures store.manifests == old(store.manifests) && Pruned(old(store.objects), store.objects, store.manifests)
      ensures Calm(old(script)) ==> Calm(script) && r.Ok? && store.hot == old(store.hot)
      ensures old(script) != [] && maximumPages > 0 ==> |script| < |old(script)|
      ensures r.Ok? && old(script) != [] && maximumPages > 0 ==>
        forall segment :: segment in old(script)[0].page && segment !in store.manifests ==> segment !in store.objects
    {
      hide Inv, Structure, Legal, Execute, Pruned, Calm;
      ghost var first := set segment | script != [] && segment in script[0].page && segment !in store.manifests;
      PrunedSelf(store.objects, store.manifests);
      var deleted := 0;
      for k := 0 to |KINDS|
        modifies `store, `view, `steps, `script
        invariant Valid() && old(steps) <= steps && view.flight == old(view.flight) && |script| <= |old(script)|
        invariant store.manifests == old(store.manifests) && Pruned(old(store.objects), store.objects, store.manifests)
        invariant Calm(old(script)) ==> Calm(script) && store.hot == old(store.hot)
        invariant if k == 0 then script == old(script) else maximumPages == 0 || first !! store.objects.Keys
        invariant k > 0 && old(script) != [] && maximumPages > 0 ==> |script| < |old(script)|
      {
        var pages := 0;
        while pages < maximumPages
          modifies `store, `view, `steps, `script
          invariant Valid() && old(steps) <= steps && view.flight == old(view.flight) && |script| <= |old(script)|
          invariant store.manifests == old(store.manifests)
          invariant Pruned(old(store.objects), store.objects, store.manifests)
          invariant Calm(old(script)) ==> Calm(script) && store.hot == old(store.hot)
          invariant
            if k == 0 && pages == 0 then script == old(script) else maximumPages == 0 || first !! store.objects.Keys
          invariant (k > 0 || pages > 0) && old(script) != [] && maximumPages > 0 ==> |script| < |old(script)|
          decreases maximumPages - pages
        {
          ghost var start := k == 0 && pages == 0;
          var m := Await();
          if m.fault.Some? { return Err(m.fault.value); }
          for i := 0 to |m.page|
            modifies `store, `view, `steps, `script
            invariant Valid() && old(steps) <= steps && view.flight == old(view.flight) && |script| <= |old(script)|
            invariant store.manifests == old(store.manifests)
            invariant Pruned(old(store.objects), store.objects, store.manifests)
            invariant Calm(old(script)) ==> Calm(script) && store.hot == old(store.hot)
            invariant !start ==> first !! store.objects.Keys
            invariant old(script) != [] ==> |script| < |old(script)|
            invariant forall j :: 0 <= j < i && m.page[j] !in store.manifests ==> m.page[j] !in store.objects
          {
            var gone := CleanupObject(m.page[i], old(store.objects));
            if gone.Err? { return Err(gone.fault); }
            if gone.value { deleted := deleted + 1; }
          }
          if start && old(script) != [] {
            forall segment | segment in first ensures segment !in store.objects { assert segment in m.page; }
          }
          if !m.more { break; }
          pages := pages + 1;
        }
      }
      return Ok(deleted);
    }

    method DeleteObject(segment: Segment) returns (r: Outcome<bool>)
      requires Valid() && view.flight.None? && segment !in store.manifests
      modifies `store, `view, `steps, `script
      ensures Valid() && old(steps) <= steps && view.flight.None? && |script| <= |old(script)|
      ensures store.manifests == old(store.manifests)
      ensures Calm(old(script)) ==> Calm(script) && r.Ok? && store.hot == old(store.hot)
      ensures store.objects == old(store.objects) || store.objects == old(store.objects) - {segment}
      ensures r.Ok? ==> r.value && store.objects == old(store.objects) - {segment}
    {
      hide Inv, Structure, Legal, Execute, Calm;
      var m := Await();
      if m.fault.Some? && !m.effect { return Err(m.fault.value); }
      Change(Delete(store, segment), Deletes(segment));
      if m.fault.Some? { return Err(m.fault.value); }
      return Ok(true);
    }

    /** Looks whether a manifest names the object, and deletes it if not. */
    method CleanupObject(segment: Segment, ghost before: Objects) returns (r: Outcome<bool>)
      requires Valid() && view.flight.None? && Pruned(before, store.objects, store.manifests)
      modifies `store, `view, `steps, `script
      ensures Valid() && old(steps) <= steps && view.flight == old(view.flight) && |script| <= |old(script)|
      ensures store.manifests == old(store.manifests) && Pruned(before, store.objects, store.manifests)
      ensures store.objects.Keys <= old(store.objects).Keys
      ensures Calm(old(script)) ==> Calm(script) && r.Ok? && store.hot == old(store.hot)
      ensures r.Ok? ==> r.value == (segment !in store.manifests) && (r.value ==> segment !in store.objects)
    {
      hide Inv, Structure, Legal, Execute, Calm, Pruned;
      var m := Await();
      if m.fault.Some? { return Err(m.fault.value); }
      var referenced := segment in store.manifests;
      if referenced { return Ok(false); }
      PrunedMore(before, store.objects, store.manifests, segment);
      r := DeleteObject(segment);
    }

    /** One tick of the worker: every kind, and then the clean-up unless the process stopped. */
    method Round()
      requires Valid() && view.flight.None?
      modifies `store, `view, `steps, `script
      ensures Valid() && old(steps) <= steps && view.flight.None?
      ensures Lasting(old(store.manifests), store.manifests)
      ensures |script| < |old(script)| || (old(script) == [] && script == [])
      ensures Calm(old(script)) && CanStart(codec, old(store), KINDS[0], old(script)) ==>
        IsCommitted(store.manifests, Segment(KINDS[0], old(script)[0].selection))
      ensures Calm(old(script)) && IsIdle(old(store), old(script)) && maximumPages > 0 ==>
        && script == [] && store.hot == old(store.hot) && store.manifests == old(store.manifests)
        && forall segment :: segment in old(script)[|KINDS|].page && segment !in store.manifests ==>
             segment !in store.objects
    {
      hide Inv, Structure, Legal, Execute, Calm, CanStart, Archived, Started;
      ghost var begins := Calm(script) && CanStart(codec, store, KINDS[0], script);
      ghost var idle := Calm(script) && IsIdle(store, script);
      if begins { StartHasScript(codec, store, KINDS[0], script); }
      ghost var segment := Segment(KINDS[0], if script == [] then [] else script[0].selection);
      var stopped, k := false, 0;
      while k < |KINDS| && !stopped
        modifies `store, `view, `steps, `script
        invariant Valid() && old(steps) <= steps && view.flight.None? && k <= |KINDS|
        invariant Lasting(old(store.manifests), store.manifests)
        invariant if k == 0 then script == old(script) && store == old(store)
                  else |script| < |old(script)| || (old(script) == [] && script == [])
        invariant (stopped ==> k > 0) && (begins && k > 0 ==> IsCommitted(store.manifests, segment))
        invariant idle ==> !stopped && script == old(script)[k..] && store == old(store) && Calm(script)
        decreases |KINDS| - k
      {
        var r, _ := RunKindOnce(KINDS[k]);
        stopped := r == Err(Stopped);
        k := k + 1;
      }
      if !stopped { var _ := CleanupOrphansOnce(); }
    }

    /** The worker, over any number of rounds, failures and restarts: whatever the script, what happens to the storage
        is a legal run, and if all changes of records in it are quiet then no record is lost on the way. What the first
        undisturbed round finds due is archived; what it finds orphaned is gone. */
    method Work()
      requires Valid() && view.flight.None?
      modifies `store, `view, `steps, `script
      ensures Valid() && old(steps) <= steps && script == []
      ensures AllQuiet(codec, start, steps) ==> AlwaysSafe(codec, start, steps)
      ensures Lasting(old(store.manifests), store.manifests)
      ensures Calm(old(script)) && CanStart(codec, old(store), KINDS[0], old(script)) ==>
        var segment := Segment(KINDS[0], old(script)[0].selection);
        IsCommitted(store.manifests, segment) && Archived(codec, view.Archive(), segment)
      ensures Calm(old(script)) && IsIdle(old(store), old(script)) && maximumPages > 0 ==>
        && store.hot == old(store.hot) && store.manifests == old(store.manifests)
        && forall segment :: segment in old(script)[|KINDS|].page && segment !in store.manifests ==>
             segment !in store.objects
    {
      hide Inv, Structure, Legal, Execute, AllQuiet, AlwaysSafe, Calm, CanStart, Archived, IsIdle;
      ghost var begins := Calm(script) && CanStart(codec, store, KINDS[0], script);
      ghost var idle := Calm(script) && IsIdle(store, script) && maximumPages > 0;
      if begins { StartHasScript(codec, store, KINDS[0], script); }
      if idle { IdleHasScript(store, script); }
      if script != [] { Round(); }
      ghost var after := store;
      while script != []
        modifies `store, `view, `steps, `script
        invariant Valid() && old(steps) <= steps && view.flight.None?
        invariant Lasting(old(store.manifests), store.manifests) && Lasting(after.manifests, store.manifests)
        invariant idle ==> script == [] && store == after
        decreases |script|
      {
        Round();
      }
      if AllQuiet(codec, start, steps) { QuietRunsAreSafe(codec, start, steps); }
      if begins { CommittedIsArchived(codec, view, Segment(KINDS[0], old(script)[0].selection)); }
    }
  }
}
