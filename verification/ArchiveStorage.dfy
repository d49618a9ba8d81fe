/** What the archive worker keeps durable: hot records, manifests and objects (`mongo/src/archive.rs`,
    `blob/src/lib.rs`), and the steps that change it. Records arrive, are rewritten in place by their writers and
    expire at any time; the worker claims, loads, publishes, completes, marks, commits and cleans up.

    A segment id is a digest of its kind and sources, and an object key is derived from the segment id, so a
    segment stands for both. */
module ArchiveStorage {
  import opened Common

  type Bytes = seq<bv8>

  datatype Kind = Event | Log | Span | Session | Metric

  datatype SourceId = SourceId(kind: Kind, id: nat)

  datatype Segment = Segment(kind: Kind, sources: seq<SourceId>)

  /** The Parquet encoder, which may fail, and the object digest. */
  datatype Codec = Codec(encode: (Kind, seq<Bytes>) -> Option<Bytes>, hash: Bytes -> Bytes)

  /** `mark` names the segment that gave the record its expiry. */
  datatype Hot = Hot(record: Bytes, mark: Option<Segment>)

  datatype Progress = Writing | Complete(size: nat, checksum: Bytes)

  datatype Manifest = Manifest(progress: Progress, committed: bool)

  type Records = map<SourceId, Hot>
  type Manifests = map<Segment, Manifest>
  type Objects = map<Segment, Bytes>

  datatype Store = Store(hot: Records, manifests: Manifests, objects: Objects)

  /** The segment the worker is collecting, claimed already or not, with what it has read so far. The records are
      read one by one, in any order; which of them make up the segment is known only later, but it is one of the
      segments it can turn out to be. */
  datatype Flight = Flight(segment: Segment, read: map<SourceId, Bytes>) {
    predicate AllRead() { forall i :: 0 <= i < |segment.sources| ==> segment.sources[i] in read }

    function Records(): seq<Bytes>
      requires AllRead()
    {
      seq(|segment.sources|, i requires 0 <= i < |segment.sources| => read[segment.sources[i]])
    }
  }

  /** The archive: `held` are the records each complete segment was encoded from. */
  datatype Shelf = Shelf(manifests: Manifests, objects: Objects, held: map<Segment, seq<Bytes>>)

  /** The storage with what was accepted last under each id, what the objects were encoded from, and what the worker
      has read and not published yet. */
  datatype View = View(store: Store, latest: map<SourceId, Bytes>, held: map<Segment, seq<Bytes>>,
                       flight: Option<Flight>) {
    function Archive(): Shelf { Shelf(store.manifests, store.objects, held) }
  }

  const EMPTY := View(Store(map[], map[], map[]), map[], map[], None)

  // ---- what is promised ----

  ghost predicate Describes(codec: Codec, size: nat, checksum: Bytes, bytes: Bytes) {
    size == |bytes| && checksum == codec.hash(bytes)
  }

  /** A complete manifest, an object of the recorded size and checksum, and both those of the encoded records. */
  ghost predicate Archived(codec: Codec, a: Shelf, segment: Segment) {
    && segment in a.manifests && segment in a.objects && segment in a.held
    && a.manifests[segment].progress.Complete? && |a.held[segment]| == |segment.sources|
    && var encoded := codec.encode(segment.kind, a.held[segment]);
    && var progress := a.manifests[segment].progress;
    && encoded.Some?
    && Describes(codec, progress.size, progress.checksum, a.objects[segment])
    && Describes(codec, progress.size, progress.checksum, encoded.value)
  }

  ghost predicate HasRecord(segment: Segment, records: seq<Bytes>, id: SourceId, record: Bytes) {
    exists i :: 0 <= i < |segment.sources| && i < |records| && segment.sources[i] == id && records[i] == record
  }

  /** Some referenced object was encoded from exactly this record under the id. */
  ghost predicate Holds(codec: Codec, a: Shelf, id: SourceId, record: Bytes) {
    exists segment :: Archived(codec, a, segment) && HasRecord(segment, a.held[segment], id, record)
  }

  /** What was accepted last under each id is in hot storage without expiry or held by a referenced object. */
  ghost predicate Safe(codec: Codec, v: View) {
    forall id :: id in v.latest ==>
      || (id in v.store.hot && v.store.hot[id] == Hot(v.latest[id], None))
      || Holds(codec, v.Archive(), id, v.latest[id])
  }

  /** With a digest that does not collide, the object is the encoding, bit for bit. */
  lemma ArchivedIsTheEncoding(codec: Codec, a: Shelf, segment: Segment)
    requires Archived(codec, a, segment)
    requires forall x, y :: |x| == |y| && codec.hash(x) == codec.hash(y) ==> x == y
    ensures codec.encode(segment.kind, a.held[segment]) == Some(a.objects[segment])
  {
  }

  // ---- durable effects ----

  function Arrive(s: Store, id: SourceId, record: Bytes): Store { s.(hot := s.hot[id := Hot(record, None)]) }

  /** An update in place. A session update takes the mark away, a metric increment leaves it. */
  function Rewrite(s: Store, id: SourceId, record: Bytes, keeps: bool): Store
    requires id in s.hot
  {
    s.(hot := s.hot[id := Hot(record, if keeps then s.hot[id].mark else None)])
  }

  /** Hot storage drops a record that has an expiry. */
  function Expire(s: Store, id: SourceId): Store { s.(hot := s.hot - {id}) }

  function Claim(s: Store, segment: Segment): Store {
    s.(manifests := s.manifests[segment := Manifest(Writing, false)])
  }

  function Put(s: Store, segment: Segment, bytes: Bytes): Store { s.(objects := s.objects[segment := bytes]) }

  function Finish(s: Store, segment: Segment, size: nat, checksum: Bytes): Store {
    s.(manifests := s.manifests[segment := Manifest(Complete(size, checksum), false)])
  }

  /** Some or all of the segment's records get its mark and an expiry. */
  function Mark(s: Store, segment: Segment, part: set<SourceId>): Store {
    s.(hot := map id | id in s.hot ::
      if id in part && id in segment.sources then s.hot[id].(mark := Some(segment)) else s.hot[id])
  }

  function Commit(s: Store, segment: Segment): Store
    requires segment in s.manifests
  {
    s.(manifests := s.manifests[segment := s.manifests[segment].(committed := true)])
  }

  function Delete(s: Store, segment: Segment): Store { s.(objects := s.objects - {segment}) }

  function HotRecords(hot: Records, sources: seq<SourceId>): seq<Bytes>
    requires forall i :: 0 <= i < |sources| ==> sources[i] in hot
  {
    seq(|sources|, i requires 0 <= i < |sources| => hot[sources[i]].record)
  }

  // ---- the steps ----

  datatype Step =
    | Arrives(id: SourceId, record: Bytes)
    | Rewrites(id: SourceId, record: Bytes, keeps: bool)
    | Expires(id: SourceId)
    | Begins(segment: Segment)
    | Reads(id: SourceId)
    | Claims
    | GivesUp
    | Puts(segment: Segment, bytes: Bytes)
    | Finishes(size: nat, checksum: Bytes)
    | Marks(segment: Segment, part: set<SourceId>)
    | Commits(segment: Segment)
    | Deletes(segment: Segment)

  predicate IsOpen(manifests: Manifests, kind: Kind, segment: Segment) {
    segment in manifests && segment.kind == kind && !manifests[segment].committed
  }

  /** The manifest's records can be given an expiry. */
  predicate CanMark(manifests: Manifests, segment: Segment) {
    segment in manifests && !manifests[segment].committed && manifests[segment].progress.Complete?
  }

  ghost predicate Unmarked(hot: Records, segment: Segment) {
    forall i :: 0 <= i < |segment.sources| ==> segment.sources[i] in hot && hot[segment.sources[i]].mark.None?
  }

  /** A new manifest lists records of one kind, and no other of that kind is open. */
  ghost predicate CanOpen(manifests: Manifests, segment: Segment) {
    && segment !in manifests && segment.sources != []
    && (forall i :: 0 <= i < |segment.sources| ==> segment.sources[i].kind == segment.kind)
    && (forall other :: other in manifests && other.kind == segment.kind ==> manifests[other].committed)
  }

  predicate IsWriting(manifests: Manifests, segment: Segment) {
    segment in manifests && manifests[segment].progress.Writing?
  }

  /** The object is there, and its size and checksum are those of the encoded records. */
  ghost predicate CanFinish(codec: Codec, s: Store, segment: Segment, records: seq<Bytes>, size: nat, checksum: Bytes) {
    && segment in s.objects && Describes(codec, size, checksum, s.objects[segment])
    && var encoded := codec.encode(segment.kind, records);
    && encoded.Some? && Describes(codec, size, checksum, encoded.value)
  }

  ghost predicate Enabled(codec: Codec, v: View, step: Step) {
    match step
    case Arrives(id, _) => id !in v.store.hot
    case Rewrites(id, _, _) => id in v.store.hot
    case Expires(id) => id in v.store.hot && v.store.hot[id].mark.Some?
    case Begins(segment) =>
      v.flight.None? && (IsWriting(v.store.manifests, segment) || CanOpen(v.store.manifests, segment))
    case Reads(id) =>
      && v.flight.Some? && id in v.flight.value.segment.sources && id !in v.flight.value.read
      && id in v.store.hot && v.store.hot[id].mark.None?
    case Claims =>
      v.flight.Some? && v.flight.value.segment !in v.store.manifests && v.flight.value.AllRead()
    case GivesUp => true
    case Puts(segment, _) => segment in v.store.manifests && segment !in v.store.objects
    case Finishes(size, checksum) =>
      && v.flight.Some? && IsWriting(v.store.manifests, v.flight.value.segment) && v.flight.value.AllRead()
      && CanFinish(codec, v.store, v.flight.value.segment, v.flight.value.Records(), size, checksum)
    case Marks(segment, _) => CanMark(v.store.manifests, segment)
    case Commits(segment) => CanMark(v.store.manifests, segment)
    case Deletes(segment) => v.flight.None? && segment !in v.store.manifests
  }

  ghost function Apply(codec: Codec, v: View, step: Step): View
    requires Enabled(codec, v, step)
  {
    match step
    case Arrives(id, record) => v.(store := Arrive(v.store, id, record), latest := v.latest[id := record])
    case Rewrites(id, record, keeps) =>
      v.(store := Rewrite(v.store, id, record, keeps), latest := v.latest[id := record])
    case Expires(id) => v.(store := Expire(v.store, id))
    case Begins(segment) => v.(flight := Some(Flight(segment, map[])))
    case Reads(id) =>
      v.(flight := Some(v.flight.value.(read := v.flight.value.read[id := v.store.hot[id].record])))
    case Claims => v.(store := Claim(v.store, v.flight.value.segment))
    case GivesUp => v.(flight := None)
    case Puts(segment, bytes) => v.(store := Put(v.store, segment, bytes))
    case Finishes(size, checksum) =>
      var flight := v.flight.value;
      v.(store := Finish(v.store, flight.segment, size, checksum), flight := None,
         held := v.held[flight.segment := flight.Records()])
    case Marks(segment, part) => v.(store := Mark(v.store, segment, part))
    case Commits(segment) => v.(store := Commit(v.store, segment))
    case Deletes(segment) => v.(store := Delete(v.store, segment))
  }

  // ---- what every step keeps ----

  predicate NoConflict(hot: Records, segment: Segment) {
    forall id :: id in hot && id in segment.sources && hot[id].mark.Some? ==> hot[id].mark.value == segment
  }

  /** At most one manifest per kind is open, and it lists records of that kind. */
  ghost predicate OneOpen(manifests: Manifests) {
    && (forall a, b | a in manifests && b in manifests && a.kind == b.kind ::
          manifests[a].committed || manifests[b].committed || a == b)
    && (forall segment: Segment, i :: segment in manifests && 0 <= i < |segment.sources| ==>
          segment.sources[i].kind == segment.kind)
    && (forall segment :: segment in manifests && manifests[segment].progress.Writing? ==>
          !manifests[segment].committed)
    && (forall segment :: segment in manifests ==> segment.sources != [])
  }

  /** What an open manifest lists is still there while it is being written, and nobody else gives it an expiry. */
  ghost predicate Reserved(hot: Records, manifests: Manifests) {
    forall segment: Segment :: segment in manifests && !manifests[segment].committed ==>
      && NoConflict(hot, segment)
      && (manifests[segment].progress.Writing? ==> Unmarked(hot, segment))
  }

  ghost predicate Finished(codec: Codec, a: Shelf) {
    forall segment :: segment in a.manifests && a.manifests[segment].progress.Complete? ==> Archived(codec, a, segment)
  }

  ghost predicate Current(hot: Records, latest: map<SourceId, Bytes>) {
    forall id :: id in hot ==> id in latest && hot[id].record == latest[id]
  }

  /** The segment in flight is being written, or can be opened, and what was read for it is still there. */
  ghost predicate FlightIsOpen(hot: Records, manifests: Manifests, flight: Option<Flight>) {
    flight.Some? ==>
      && (IsWriting(manifests, flight.value.segment) || CanOpen(manifests, flight.value.segment))
      && forall id :: id in flight.value.read ==>
           id in flight.value.segment.sources && id in hot && hot[id].mark.None?
  }

  /** This survives any rewrite. */
  ghost predicate Structure(codec: Codec, v: View) {
    && OneOpen(v.store.manifests) && Reserved(v.store.hot, v.store.manifests)
    && Finished(codec, v.Archive()) && Current(v.store.hot, v.latest)
    && FlightIsOpen(v.store.hot, v.store.manifests, v.flight)
  }

  /** Other writers leave what an open manifest lists in place and give it no expiry. */
  lemma WritersKeepReserved(s: Store, id: SourceId, record: Bytes, keeps: bool)
    requires Reserved(s.hot, s.manifests)
    ensures id !in s.hot ==> Reserved(Arrive(s, id, record).hot, s.manifests)
    ensures id in s.hot ==> Reserved(Rewrite(s, id, record, keeps).hot, s.manifests)
    ensures id in s.hot && s.hot[id].mark.Some? ==> Reserved(Expire(s, id).hot, s.manifests)
  {
  }

  /** A manifest is inserted for records that were read without an expiry and have none still. */
  lemma ClaimKeepsReserved(s: Store, segment: Segment)
    requires OneOpen(s.manifests) && Reserved(s.hot, s.manifests)
    requires CanOpen(s.manifests, segment) && Unmarked(s.hot, segment)
    ensures OneOpen(Claim(s, segment).manifests) && Reserved(s.hot, Claim(s, segment).manifests)
  {
  }

  lemma FinishKeepsReserved(s: Store, segment: Segment, size: nat, checksum: Bytes)
    requires OneOpen(s.manifests) && Reserved(s.hot, s.manifests) && IsWriting(s.manifests, segment)
    ensures OneOpen(Finish(s, segment, size, checksum).manifests)
    ensures Reserved(s.hot, Finish(s, segment, size, checksum).manifests)
  {
  }

  /** Marking one segment never touches what another open manifest lists. */
  lemma MarkKeepsReserved(s: Store, segment: Segment, part: set<SourceId>)
    requires OneOpen(s.manifests) && Reserved(s.hot, s.manifests) && CanMark(s.manifests, segment)
    ensures Reserved(Mark(s, segment, part).hot, s.manifests)
  {
  }

  lemma CommitKeepsReserved(s: Store, segment: Segment)
    requires OneOpen(s.manifests) && Reserved(s.hot, s.manifests) && CanMark(s.manifests, segment)
    ensures OneOpen(Commit(s, segment).manifests) && Reserved(s.hot, Commit(s, segment).manifests)
  {
  }

  lemma ReservedStays(codec: Codec, v: View, step: Step)
    requires OneOpen(v.store.manifests) && Reserved(v.store.hot, v.store.manifests)
    requires FlightIsOpen(v.store.hot, v.store.manifests, v.flight) && Enabled(codec, v, step)
    ensures OneOpen(Apply(codec, v, step).store.manifests)
    ensures Reserved(Apply(codec, v, step).store.hot, Apply(codec, v, step).store.manifests)
  {
    hide OneOpen, Reserved, CanOpen, CanFinish;
    match step
    case Arrives(id, record) => WritersKeepReserved(v.store, id, record, false);
    case Rewrites(id, record, keeps) => WritersKeepReserved(v.store, id, record, keeps);
    case Expires(id) => WritersKeepReserved(v.store, id, [], false);
    case Claims => ClaimKeepsReserved(v.store, v.flight.value.segment);
    case Finishes(size, checksum) => FinishKeepsReserved(v.store, v.flight.value.segment, size, checksum);
    case Marks(segment, part) => MarkKeepsReserved(v.store, segment, part);
    case Commits(segment) => CommitKeepsReserved(v.store, segment);
    case _ =>
  }

  /** Objects of complete manifests stay: nothing that was archived stops being so. */
  ghost predicate Extends(a: Shelf, b: Shelf) {
    forall segment :: segment in a.manifests && a.manifests[segment].progress.Complete? ==>
      && segment in b.manifests && b.manifests[segment].progress == a.manifests[segment].progress
      && (segment in a.objects ==> segment in b.objects && b.objects[segment] == a.objects[segment])
      && (segment in a.held ==> segment in b.held && b.held[segment] == a.held[segment])
  }

  lemma ArchivedStays(codec: Codec, a: Shelf, b: Shelf, segment: Segment)
    requires Extends(a, b) && Archived(codec, a, segment)
    ensures Archived(codec, b, segment)
  {
  }

  lemma HoldsStays(codec: Codec, a: Shelf, b: Shelf)
    requires Extends(a, b)
    ensures forall id, record :: Holds(codec, a, id, record) ==> Holds(codec, b, id, record)
  {
    forall id, record | Holds(codec, a, id, record) ensures Holds(codec, b, id, record) {
      var segment :| Archived(codec, a, segment) && HasRecord(segment, a.held[segment], id, record);
      ArchivedStays(codec, a, b, segment);
    }
  }

  lemma ShelfExtends(codec: Codec, v: View, step: Step)
    requires Enabled(codec, v, step)
    ensures Extends(v.Archive(), Apply(codec, v, step).Archive())
  {
    hide CanOpen, CanFinish;
  }

  lemma FinishedStays(codec: Codec, v: View, step: Step)
    requires Finished(codec, v.Archive()) && Enabled(codec, v, step)
    ensures Finished(codec, Apply(codec, v, step).Archive())
  {
    var a, b := v.Archive(), Apply(codec, v, step).Archive();
    ShelfExtends(codec, v, step);
    hide CanOpen;
    forall segment | segment in b.manifests && b.manifests[segment].progress.Complete?
      ensures Archived(codec, b, segment)
    {
      if segment in a.manifests && a.manifests[segment].progress.Complete? { ArchivedStays(codec, a, b, segment); }
    }
  }

  lemma CurrentStays(codec: Codec, v: View, step: Step)
    requires Current(v.store.hot, v.latest) && Enabled(codec, v, step)
    ensures Current(Apply(codec, v, step).store.hot, Apply(codec, v, step).latest)
  {
    hide CanOpen, CanFinish;
  }

  /** While a segment is in flight no complete manifest of its kind is open, so nothing that was read is marked. */
  lemma FlightIsAlone(hot: Records, manifests: Manifests, flight: Option<Flight>, segment: Segment, i: nat)
    requires OneOpen(manifests) && FlightIsOpen(hot, manifests, flight) && flight.Some?
    requires CanMark(manifests, segment) && i < |flight.value.segment.sources|
    ensures segment.kind != flight.value.segment.kind && flight.value.segment.sources[i] !in segment.sources
  {
    assert flight.value.segment.sources[i].kind == flight.value.segment.kind;
  }

  lemma FlightStays(codec: Codec, v: View, step: Step)
    requires OneOpen(v.store.manifests) && FlightIsOpen(v.store.hot, v.store.manifests, v.flight)
    requires Enabled(codec, v, step)
    ensures
      var u := Apply(codec, v, step);
      FlightIsOpen(u.store.hot, u.store.manifests, u.flight)
  {
    if (step.Marks? || step.Commits?) && v.flight.Some? {
      forall i | 0 <= i < |v.flight.value.segment.sources|
        ensures step.segment.kind != v.flight.value.segment.kind
        ensures v.flight.value.segment.sources[i] !in step.segment.sources
      {
        FlightIsAlone(v.store.hot, v.store.manifests, v.flight, step.segment, i);
      }
    }
    hide OneOpen, CanFinish;
  }

  lemma StepKeepsStructure(codec: Codec, v: View, step: Step)
    requires Structure(codec, v) && Enabled(codec, v, step)
    ensures Structure(codec, Apply(codec, v, step))
  {
    ReservedStays(codec, v, step);
    FinishedStays(codec, v, step);
    CurrentStays(codec, v, step);
    FlightStays(codec, v, step);
    hide Apply, Enabled, OneOpen, Reserved, Finished, Current, FlightIsOpen;
  }

  // ---- what a rewrite can break ----

  /** The object that the flight would become with these records, of which it has read some. */
  ghost predicate Fits(codec: Codec, objects: Objects, f: Flight, records: seq<Bytes>) {
    && |records| == |f.segment.sources|
    && (forall i :: 0 <= i < |records| && f.segment.sources[i] in f.read ==> records[i] == f.read[f.segment.sources[i]])
    && (forall i, j :: 0 <= i < j < |records| && f.segment.sources[i] == f.segment.sources[j] ==>
          records[i] == records[j])
    && var encoded := codec.encode(f.segment.kind, records);
    && encoded.Some?
    && (f.segment in objects ==> Describes(codec, |encoded.value|, codec.hash(encoded.value), objects[f.segment]))
  }

  /** The flight can still become an object, whatever the records it has not read yet turn out to be. */
  ghost predicate CanPublish(codec: Codec, objects: Objects, f: Flight) {
    exists records :: Fits(codec, objects, f, records)
  }

  /** Whatever a complete open manifest is going to expire is held. */
  ghost predicate Covered(codec: Codec, a: Shelf, hot: Records) {
    forall segment, id :: CanMark(a.manifests, segment) && id in segment.sources && id in hot ==>
      Holds(codec, a, id, hot[id].record)
  }

  /** What was read for the flight is still what is under the id, or what is there now is held. */
  ghost predicate Carried(codec: Codec, a: Shelf, hot: Records, flight: Option<Flight>) {
    flight.Some? && CanPublish(codec, a.objects, flight.value) ==>
      forall id :: id in flight.value.read && id in hot ==>
        flight.value.read[id] == hot[id].record || Holds(codec, a, id, hot[id].record)
  }

  ghost predicate Inv(codec: Codec, v: View) {
    && Structure(codec, v) && Safe(codec, v)
    && Covered(codec, v.Archive(), v.store.hot) && Carried(codec, v.Archive(), v.store.hot, v.flight)
  }

  /** The worker is past reading the record: it is going to expire whatever is under the id. */
  ghost predicate Doomed(codec: Codec, v: View, id: SourceId, record: Bytes) {
    || (exists segment :: CanMark(v.store.manifests, segment) && id in segment.sources)
    || (&& v.flight.Some? && CanPublish(codec, v.store.objects, v.flight.value)
        && id in v.flight.value.read && v.flight.value.read[id] != record)
  }

  /** A new record under an id does no harm: some object holds it already, or the worker is not past reading
      it and it does not inherit an expiry. */
  ghost predicate Quiet(codec: Codec, v: View, step: Step)
    requires Enabled(codec, v, step)
  {
    match step
    case Arrives(id, record) => Holds(codec, v.Archive(), id, record) || !Doomed(codec, v, id, record)
    case Rewrites(id, record, keeps) =>
      || Holds(codec, v.Archive(), id, record)
      || (!Doomed(codec, v, id, record) && !(keeps && v.store.hot[id].mark.Some?))
    case _ => true
  }

  ghost predicate Promise(codec: Codec, u: View) {
    Safe(codec, u) && Covered(codec, u.Archive(), u.store.hot) && Carried(codec, u.Archive(), u.store.hot, u.flight)
  }

  lemma ArriveIsSound(codec: Codec, v: View, id: SourceId, record: Bytes)
    requires Inv(codec, v) && Enabled(codec, v, Arrives(id, record)) && Quiet(codec, v, Arrives(id, record))
    ensures Promise(codec, Apply(codec, v, Arrives(id, record)))
  {
    hide Structure, Archived, HasRecord, Holds, CanPublish;
  }

  lemma RewriteIsSound(codec: Codec, v: View, id: SourceId, record: Bytes, keeps: bool)
    requires Inv(codec, v) && Enabled(codec, v, Rewrites(id, record, keeps))
    requires Quiet(codec, v, Rewrites(id, record, keeps))
    ensures Promise(codec, Apply(codec, v, Rewrites(id, record, keeps)))
  {
    hide Structure, Archived, HasRecord, Holds, CanPublish;
  }

  /** Dropping an expired record loses nothing: it had an expiry, so an object holds it. */
  lemma ExpireIsSound(codec: Codec, v: View, id: SourceId)
    requires Inv(codec, v) && Enabled(codec, v, Expires(id))
    ensures Promise(codec, Apply(codec, v, Expires(id)))
  {
    hide Structure, Archived, HasRecord, Holds, CanPublish;
  }

  lemma MarkIsSound(codec: Codec, v: View, segment: Segment, part: set<SourceId>)
    requires Inv(codec, v) && Enabled(codec, v, Marks(segment, part))
    ensures Promise(codec, Apply(codec, v, Marks(segment, part)))
  {
    assert Current(v.store.hot, v.latest);
    hide Structure, Archived, HasRecord, Holds, CanPublish;
  }

  /** Reading one more record leaves fewer ways to become an object, and what was just read is current. */
  lemma ReadIsSound(codec: Codec, v: View, id: SourceId)
    requires Inv(codec, v) && Enabled(codec, v, Reads(id))
    ensures Promise(codec, Apply(codec, v, Reads(id)))
  {
    var u := Apply(codec, v, Reads(id));
    if CanPublish(codec, u.store.objects, u.flight.value) {
      var records :| Fits(codec, u.store.objects, u.flight.value, records);
      assert Fits(codec, v.store.objects, v.flight.value, records);
    }
    hide Structure, Archived, HasRecord, Holds, CanPublish;
  }

  lemma FinishIsSound(codec: Codec, v: View, size: nat, checksum: Bytes)
    requires Inv(codec, v) && Enabled(codec, v, Finishes(size, checksum))
    ensures Promise(codec, Apply(codec, v, Finishes(size, checksum)))
  {
    var u := Apply(codec, v, Finishes(size, checksum));
    FinishHolds(codec, v, size, checksum);
    hide OneOpen, Reserved, Finished, Current, Archived, HasRecord, Holds, CanPublish, CanFinish;
    assert u.store.hot == v.store.hot && u.latest == v.latest && u.flight.None?;
    forall segment, id | CanMark(u.store.manifests, segment) && id in segment.sources && id in u.store.hot
      ensures Holds(codec, u.Archive(), id, u.store.hot[id].record)
    {
      if segment != v.flight.value.segment { assert CanMark(v.store.manifests, segment); }
    }
  }

  lemma ReadHasRecord(f: Flight, id: SourceId, record: Bytes)
    requires f.AllRead()
    ensures HasRecord(f.segment, f.Records(), id, record) <==> id in f.segment.sources && f.read[id] == record
  {
    if id in f.segment.sources && f.read[id] == record {
      var i :| 0 <= i < |f.segment.sources| && f.segment.sources[i] == id;
      assert f.Records()[i] == record;
    }
  }

  /** Completion puts what was read on the shelf and takes nothing from it. */
  lemma FinishHolds(codec: Codec, v: View, size: nat, checksum: Bytes)
    requires Structure(codec, v) && Enabled(codec, v, Finishes(size, checksum))
    ensures CanPublish(codec, v.store.objects, v.flight.value)
    ensures
      var a, b, f := v.Archive(), Apply(codec, v, Finishes(size, checksum)).Archive(), v.flight.value;
      forall id, record ::
        Holds(codec, b, id, record) <==>
        (Holds(codec, a, id, record) || (id in f.segment.sources && f.read[id] == record))
  {
    var a, b, f := v.Archive(), Apply(codec, v, Finishes(size, checksum)).Archive(), v.flight.value;
    ShelfExtends(codec, v, Finishes(size, checksum));
    HoldsStays(codec, a, b);
    assert Fits(codec, v.store.objects, f, f.Records());
    assert Archived(codec, b, f.segment);
    hide Structure, CanPublish, CanFinish, Describes, HasRecord;
    forall id, record | id in f.segment.sources && f.read[id] == record ensures Holds(codec, b, id, record) {
      ReadHasRecord(f, id, record);
    }
    forall id, record | Holds(codec, b, id, record)
      ensures Holds(codec, a, id, record) || (id in f.segment.sources && f.read[id] == record)
    {
      var segment :| Archived(codec, b, segment) && HasRecord(segment, b.held[segment], id, record);
      if segment == f.segment { ReadHasRecord(f, id, record); } else { assert Archived(codec, a, segment); }
    }
  }

  /** The steps that change neither hot storage, nor what was read, nor what is complete. */
  predicate IsOther(step: Step) {
    step.Begins? || step.Claims? || step.GivesUp? || step.Puts? || step.Commits? || step.Deletes?
  }

  lemma OtherIsSound(codec: Codec, v: View, step: Step)
    requires Inv(codec, v) && Enabled(codec, v, step) && IsOther(step)
    ensures Promise(codec, Apply(codec, v, step))
  {
    var u := Apply(codec, v, step);
    ShelfExtends(codec, v, step);
    HoldsStays(codec, v.Archive(), u.Archive());
    PublishingFades(codec, v, step);
    hide Structure, Archived, HasRecord, Holds, CanPublish, CanFinish, CanOpen;
  }

  lemma PublishingFades(codec: Codec, v: View, step: Step)
    requires Structure(codec, v) && Enabled(codec, v, step) && IsOther(step)
    ensures
      var u := Apply(codec, v, step);
      u.flight.Some? && u.flight.value.read != map[] && CanPublish(codec, u.store.objects, u.flight.value) ==>
        u.flight == v.flight && CanPublish(codec, v.store.objects, v.flight.value)
  {
    hide OneOpen, Reserved, Finished, Current, CanOpen;
    var u := Apply(codec, v, step);
    if u.flight.Some? && u.flight == v.flight && CanPublish(codec, u.store.objects, u.flight.value) {
      var records :| Fits(codec, u.store.objects, u.flight.value, records);
      assert Fits(codec, v.store.objects, v.flight.value, records);
    }
  }

  /** Every quiet step of the writers and every step of the worker keeps the promise. */
  lemma StepIsSound(codec: Codec, v: View, step: Step)
    requires Inv(codec, v) && Enabled(codec, v, step) && Quiet(codec, v, step)
    ensures Inv(codec, Apply(codec, v, step))
  {
    StepKeepsStructure(codec, v, step);
    hide Structure, Safe, Covered, Carried, Quiet, Enabled, Apply;
    match step
    case Arrives(id, record) => ArriveIsSound(codec, v, id, record);
    case Rewrites(id, record, keeps) => RewriteIsSound(codec, v, id, record, keeps);
    case Expires(id) => ExpireIsSound(codec, v, id);
    case Reads(id) => ReadIsSound(codec, v, id);
    case Finishes(size, checksum) => FinishIsSound(codec, v, size, checksum);
    case Marks(segment, part) => MarkIsSound(codec, v, segment, part);
    case _ => OtherIsSound(codec, v, step);
  }

  // ---- runs ----

  ghost predicate Legal(codec: Codec, v: View, steps: seq<Step>)
    decreases |steps|, 0
  {
    steps == [] ||
    (&& Legal(codec, v, steps[..|steps| - 1])
     && Enabled(codec, Execute(codec, v, steps[..|steps| - 1]), steps[|steps| - 1]))
  }

  ghost function Execute(codec: Codec, v: View, steps: seq<Step>): View
    requires Legal(codec, v, steps)
    decreases |steps|, 1
  {
    if steps == [] then v else Apply(codec, Execute(codec, v, steps[..|steps| - 1]), steps[|steps| - 1])
  }

  /** No record was replaced after the worker was past reading it, and none inherited an expiry. */
  ghost predicate AllQuiet(codec: Codec, v: View, steps: seq<Step>)
    requires Legal(codec, v, steps)
    decreases |steps|
  {
    steps == [] ||
    (&& AllQuiet(codec, v, steps[..|steps| - 1])
     && Quiet(codec, Execute(codec, v, steps[..|steps| - 1]), steps[|steps| - 1]))
  }

  lemma OneMore(codec: Codec, v: View, steps: seq<Step>, step: Step)
    requires Legal(codec, v, steps) && Enabled(codec, Execute(codec, v, steps), step)
    ensures Legal(codec, v, steps + [step])
    ensures Execute(codec, v, steps + [step]) == Apply(codec, Execute(codec, v, steps), step)
    ensures AllQuiet(codec, v, steps) && Quiet(codec, Execute(codec, v, steps), step) ==>
      AllQuiet(codec, v, steps + [step])
  {
    hide Enabled, Apply, Quiet;
    assert (steps + [step])[..|steps|] == steps;
  }

  lemma {:induction false} RunKeepsStructure(codec: Codec, v: View, steps: seq<Step>)
    requires Structure(codec, v) && Legal(codec, v, steps)
    ensures Structure(codec, Execute(codec, v, steps))
    decreases |steps|
  {
    hide Structure, Enabled, Apply;
    if steps != [] {
      RunKeepsStructure(codec, v, steps[..|steps| - 1]);
      StepKeepsStructure(codec, Execute(codec, v, steps[..|steps| - 1]), steps[|steps| - 1]);
    }
  }

  lemma {:induction false} RunIsSound(codec: Codec, v: View, steps: seq<Step>)
    requires Inv(codec, v) && Legal(codec, v, steps) && AllQuiet(codec, v, steps)
    ensures Inv(codec, Execute(codec, v, steps))
    decreases |steps|
  {
    hide Inv, Enabled, Apply, Quiet;
    if steps != [] {
      RunIsSound(codec, v, steps[..|steps| - 1]);
      StepIsSound(codec, Execute(codec, v, steps[..|steps| - 1]), steps[|steps| - 1]);
    }
  }

  /** Every state on the way is safe. */
  ghost predicate AlwaysSafe(codec: Codec, v: View, steps: seq<Step>)
    requires Legal(codec, v, steps)
    decreases |steps|
  {
    Safe(codec, Execute(codec, v, steps)) && (steps == [] || AlwaysSafe(codec, v, steps[..|steps| - 1]))
  }

  lemma {:induction false} QuietRunsAreSafe(codec: Codec, v: View, steps: seq<Step>)
    requires Inv(codec, v) && Legal(codec, v, steps) && AllQuiet(codec, v, steps)
    ensures AlwaysSafe(codec, v, steps)
    decreases |steps|
  {
    RunIsSound(codec, v, steps);
    hide Structure, Safe, Covered, Carried, Enabled, Apply, Quiet, Execute;
    if steps != [] { QuietRunsAreSafe(codec, v, steps[..|steps| - 1]); }
  }

  // ---- which rewrites are quiet, exactly ----

  /** From `v` to `u` by a quiet run. */
  ghost predicate Leads(codec: Codec, v: View, u: View) {
    exists steps :: Legal(codec, v, steps) && AllQuiet(codec, v, steps) && Execute(codec, v, steps) == u
  }

  lemma LeadsNowhere(codec: Codec, v: View)
    ensures Leads(codec, v, v)
  {
    assert Legal(codec, v, []) && AllQuiet(codec, v, []) && Execute(codec, v, []) == v;
  }

  lemma LeadsOn(codec: Codec, v: View, u: View, step: Step)
    requires Leads(codec, v, u) && Enabled(codec, u, step) && Quiet(codec, u, step)
    ensures Leads(codec, v, Apply(codec, u, step))
  {
    hide Enabled, Apply, Quiet, Legal, Execute, AllQuiet;
    var steps :| Legal(codec, v, steps) && AllQuiet(codec, v, steps) && Execute(codec, v, steps) == u;
    OneMore(codec, v, steps, step);
  }

  /** The worker's own steps are quiet. */
  lemma WorkerLeadsOn(codec: Codec, v: View, u: View, step: Step)
    requires Leads(codec, v, u) && Enabled(codec, u, step) && !step.Arrives? && !step.Rewrites?
    ensures Leads(codec, v, Apply(codec, u, step))
  {
    hide Leads, Enabled, Apply;
    LeadsOn(codec, v, u, step);
  }

  lemma LeadsToSafety(codec: Codec, v: View, u: View)
    requires Inv(codec, v) && Leads(codec, v, u)
    ensures Safe(codec, u) && Inv(codec, u)
  {
    var steps :| Legal(codec, v, steps) && AllQuiet(codec, v, steps) && Execute(codec, v, steps) == u;
    RunIsSound(codec, v, steps);
  }

  /** A record that no object holds and that has an expiry. */
  lemma ExpiringIsUnsafe(codec: Codec, v: View, id: SourceId)
    requires id in v.latest && id in v.store.hot && v.store.hot[id].mark.Some?
    requires !Holds(codec, v.Archive(), id, v.latest[id])
    ensures !Safe(codec, v)
  {
    hide Holds;
  }

  lemma MarkLoses(codec: Codec, w: View, v: View, segment: Segment, id: SourceId) returns (u: View)
    requires Leads(codec, w, v) && CanMark(v.store.manifests, segment) && id in segment.sources
    requires id in v.store.hot && id in v.latest && !Holds(codec, v.Archive(), id, v.latest[id])
    ensures Leads(codec, w, u) && !Safe(codec, u)
  {
    hide Leads, Holds, Safe;
    WorkerLeadsOn(codec, w, v, Marks(segment, {id}));
    u := Apply(codec, v, Marks(segment, {id}));
    ExpiringIsUnsafe(codec, u, id);
  }

  /** What the flight has not read yet. */
  function Unread(f: Flight): set<SourceId> { set id | id in f.segment.sources && id !in f.read }

  /** `u` differs from `v` only in records that the flight of `v` had not read, and in what its flight has read. */
  ghost predicate ReadOn(v: View, u: View) {
    && v.flight.Some? && u.flight.Some? && u.flight.value.segment == v.flight.value.segment
    && u.store.manifests == v.store.manifests && u.store.objects == v.store.objects && u.held == v.held
    && forall id :: id in v.flight.value.read ==>
      && id in u.flight.value.read && u.flight.value.read[id] == v.flight.value.read[id]
      && (id in v.store.hot ==> id in u.store.hot && u.store.hot[id] == v.store.hot[id])
      && (id in v.latest ==> id in u.latest && u.latest[id] == v.latest[id])
  }

  /** A record the flight has not read may be anything: its writer can make it `record` without a sound. */
  lemma WriteUnread(codec: Codec, w: View, v: View, i: nat, record: Bytes) returns (u: View)
    requires Leads(codec, w, v) && Structure(codec, v) && v.flight.Some?
    requires i < |v.flight.value.segment.sources| && v.flight.value.segment.sources[i] !in v.flight.value.read
    ensures Leads(codec, w, u) && Structure(codec, u)
    ensures
      var id := v.flight.value.segment.sources[i];
      u == v.(store := v.store.(hot := v.store.hot[id := Hot(record, None)]), latest := v.latest[id := record])
  {
    var id := v.flight.value.segment.sources[i];
    var write := if id in v.store.hot then Rewrites(id, record, false) else Arrives(id, record);
    forall segment | CanMark(v.store.manifests, segment) ensures id !in segment.sources {
      FlightIsAlone(v.store.hot, v.store.manifests, v.flight, segment, i);
    }
    hide Leads, Structure, Holds, CanPublish;
    assert Quiet(codec, v, write);
    LeadsOn(codec, w, v, write);
    StepKeepsStructure(codec, v, write);
    u := Apply(codec, v, write);
  }

  /** Then the worker reads that. */
  lemma ReadNext(codec: Codec, w: View, v: View, records: seq<Bytes>, i: nat) returns (u: View)
    requires Leads(codec, w, v) && Structure(codec, v) && v.flight.Some?
    requires Fits(codec, v.store.objects, v.flight.value, records)
    requires i < |v.flight.value.segment.sources| && v.flight.value.segment.sources[i] !in v.flight.value.read
    ensures Leads(codec, w, u) && Structure(codec, u) && ReadOn(v, u)
    ensures Fits(codec, u.store.objects, u.flight.value, records)
    ensures Unread(u.flight.value) == Unread(v.flight.value) - {v.flight.value.segment.sources[i]}
  {
    var id := v.flight.value.segment.sources[i];
    FitsOn(codec, v.store.objects, v.flight.value, records, i);
    UnreadLess(v.flight.value, i, records[i]);
    hide Leads, Structure, Fits, Unread;
    var written := WriteUnread(codec, w, v, i, records[i]);
    WorkerLeadsOn(codec, w, written, Reads(id));
    StepKeepsStructure(codec, written, Reads(id));
    u := Apply(codec, written, Reads(id));
  }

  lemma UnreadLess(f: Flight, i: nat, record: Bytes)
    requires i < |f.segment.sources|
    ensures Unread(f.(read := f.read[f.segment.sources[i] := record])) == Unread(f) - {f.segment.sources[i]}
  {
  }

  lemma FitsOn(codec: Codec, objects: Objects, f: Flight, records: seq<Bytes>, i: nat)
    requires Fits(codec, objects, f, records) && i < |records|
    ensures Fits(codec, objects, f.(read := f.read[f.segment.sources[i] := records[i]]), records)
  {
  }

  lemma {:induction false} ReadRest(codec: Codec, w: View, v: View, records: seq<Bytes>) returns (u: View)
    requires Leads(codec, w, v) && Structure(codec, v) && v.flight.Some?
    requires Fits(codec, v.store.objects, v.flight.value, records)
    ensures Leads(codec, w, u) && Structure(codec, u) && ReadOn(v, u)
    ensures Fits(codec, u.store.objects, u.flight.value, records)
    ensures u.flight.value.AllRead()
    decreases |Unread(v.flight.value)|
  {
    hide Leads, Structure, Fits;
    if v.flight.value.AllRead() {
      u := v;
    } else {
      var i :| 0 <= i < |v.flight.value.segment.sources| && v.flight.value.segment.sources[i] !in v.flight.value.read;
      assert v.flight.value.segment.sources[i] in Unread(v.flight.value);
      var next := ReadNext(codec, w, v, records, i);
      hide Unread;
      u := ReadRest(codec, w, next, records);
    }
  }

  lemma PublishLoses(codec: Codec, w: View, v: View, id: SourceId) returns (u: View)
    requires Leads(codec, w, v) && Structure(codec, v) && v.flight.Some?
    requires CanPublish(codec, v.store.objects, v.flight.value)
    requires id in v.flight.value.read && id in v.store.hot && id in v.latest
    requires v.flight.value.read[id] != v.latest[id] && !Holds(codec, v.Archive(), id, v.latest[id])
    ensures Leads(codec, w, u) && !Safe(codec, u)
  {
    var records :| Fits(codec, v.store.objects, v.flight.value, records);
    var read := ReadRest(codec, w, v, records);
    assert id in read.flight.value.segment.sources && read.Archive() == v.Archive();
    hide Leads, Structure, Holds, Fits, Safe, ReadOn, CanPublish;
    u := FullFlightLoses(codec, w, read, records, id);
  }

  /** Once everything is read the worker goes on alone: it claims if it has not, stores, completes and marks. */
  lemma FullFlightLoses(codec: Codec, w: View, v: View, records: seq<Bytes>, id: SourceId) returns (u: View)
    requires Leads(codec, w, v) && Structure(codec, v) && v.flight.Some? && v.flight.value.AllRead()
    requires Fits(codec, v.store.objects, v.flight.value, records)
    requires id in v.flight.value.segment.sources && id in v.store.hot && id in v.latest
    requires v.flight.value.read[id] != v.latest[id] && !Holds(codec, v.Archive(), id, v.latest[id])
    ensures Leads(codec, w, u) && !Safe(codec, u)
  {
    var segment := v.flight.value.segment;
    var open := v;
    assert IsWriting(v.store.manifests, segment) || CanOpen(v.store.manifests, segment);
    if segment !in v.store.manifests {
      ClaimAddsNothing(codec, v);
      StepKeepsStructure(codec, v, Claims);
      hide Leads;
      WorkerLeadsOn(codec, w, v, Claims);
      open := Apply(codec, v, Claims);
    }
    hide Leads, Structure, Holds, Safe, Fits, CanOpen;
    u := WritingFlightLoses(codec, w, open, records, id);
  }

  lemma WritingFlightLoses(codec: Codec, w: View, v: View, records: seq<Bytes>, id: SourceId) returns (u: View)
    requires Leads(codec, w, v) && Structure(codec, v) && v.flight.Some? && v.flight.value.AllRead()
    requires IsWriting(v.store.manifests, v.flight.value.segment)
    requires Fits(codec, v.store.objects, v.flight.value, records)
    requires id in v.flight.value.segment.sources && id in v.store.hot && id in v.latest
    requires v.flight.value.read[id] != v.latest[id] && !Holds(codec, v.Archive(), id, v.latest[id])
    ensures Leads(codec, w, u) && !Safe(codec, u)
  {
    var segment, stored := v.flight.value.segment, v;
    var bytes := codec.encode(segment.kind, records).value;
    FitsStored(codec, v.store.objects, v.flight.value, records);
    hide Leads, Structure, Holds, Safe, Fits;
    if segment !in v.store.objects {
      PutAddsNothing(codec, v, segment, bytes);
      StepKeepsStructure(codec, v, Puts(segment, bytes));
      WorkerLeadsOn(codec, w, v, Puts(segment, bytes));
      stored := Apply(codec, v, Puts(segment, bytes));
    }
    FitsFinishes(codec, stored, records);
    hide Enabled;
    u := StoredFlightLoses(codec, w, stored, bytes, id);
  }

  lemma FitsStored(codec: Codec, objects: Objects, f: Flight, records: seq<Bytes>)
    requires Fits(codec, objects, f, records)
    ensures codec.encode(f.segment.kind, records).Some?
    ensures Fits(codec, objects[f.segment := codec.encode(f.segment.kind, records).value], f, records)
  {
  }

  lemma FitsFinishes(codec: Codec, v: View, records: seq<Bytes>)
    requires v.flight.Some? && v.flight.value.AllRead() && IsWriting(v.store.manifests, v.flight.value.segment)
    requires Fits(codec, v.store.objects, v.flight.value, records) && v.flight.value.segment in v.store.objects
    ensures
      var bytes := codec.encode(v.flight.value.segment.kind, records).value;
      Enabled(codec, v, Finishes(|bytes|, codec.hash(bytes)))
  {
    assert records == v.flight.value.Records();
  }

  lemma StoredFlightLoses(codec: Codec, w: View, v: View, bytes: Bytes, id: SourceId) returns (u: View)
    requires Leads(codec, w, v) && Structure(codec, v)
    requires Enabled(codec, v, Finishes(|bytes|, codec.hash(bytes)))
    requires id in v.flight.value.segment.sources && id in v.store.hot && id in v.latest
    requires v.flight.value.read[id] != v.latest[id] && !Holds(codec, v.Archive(), id, v.latest[id])
    ensures Leads(codec, w, u) && !Safe(codec, u)
  {
    hide Leads, Structure, Holds, Safe, CanFinish, CanPublish;
    var finishes := Finishes(|bytes|, codec.hash(bytes));
    WorkerLeadsOn(codec, w, v, finishes);
    FinishHolds(codec, v, |bytes|, codec.hash(bytes));
    u := MarkLoses(codec, w, Apply(codec, v, finishes), v.flight.value.segment, id);
  }

  lemma ClaimAddsNothing(codec: Codec, v: View)
    requires Enabled(codec, v, Claims)
    ensures forall id, record ::
      Holds(codec, Apply(codec, v, Claims).Archive(), id, record) ==> Holds(codec, v.Archive(), id, record)
  {
    var a, b := v.Archive(), Apply(codec, v, Claims).Archive();
    forall id, record | Holds(codec, b, id, record) ensures Holds(codec, a, id, record) {
      var other :| Archived(codec, b, other) && HasRecord(other, b.held[other], id, record);
      assert Archived(codec, a, other);
    }
  }

  lemma PutAddsNothing(codec: Codec, v: View, segment: Segment, bytes: Bytes)
    requires Structure(codec, v) && Enabled(codec, v, Puts(segment, bytes))
    ensures forall id, record ::
      Holds(codec, Apply(codec, v, Puts(segment, bytes)).Archive(), id, record) ==>
        Holds(codec, v.Archive(), id, record)
  {
    var a, b := v.Archive(), Apply(codec, v, Puts(segment, bytes)).Archive();
    forall id, record | Holds(codec, b, id, record) ensures Holds(codec, a, id, record) {
      var other :| Archived(codec, b, other) && HasRecord(other, b.held[other], id, record);
      assert Archived(codec, a, other);
    }
  }

  /** A change that is not quiet, and a quiet run after it that loses the new record: the worker goes on as usual. */
  lemma LoudLoses(codec: Codec, v: View, step: Step) returns (u: View)
    requires Inv(codec, v) && Enabled(codec, v, step) && !Quiet(codec, v, step)
    ensures Leads(codec, Apply(codec, v, step), u) && !Safe(codec, u)
  {
    var w := Apply(codec, v, step);
    StepKeepsStructure(codec, v, step);
    LeadsNowhere(codec, w);
    var id, record := step.id, step.record;
    assert w.Archive() == v.Archive() && w.latest[id] == record && id in w.store.hot;
    hide Leads, Holds, Structure, Safe, Covered, Carried, CanPublish, HasRecord;
    if segment :| CanMark(v.store.manifests, segment) && id in segment.sources {
      u := MarkLoses(codec, w, w, segment, id);
    } else if Doomed(codec, v, id, record) {
      u := PublishLoses(codec, w, w, id);
    } else {
      u := w;
      ExpiringIsUnsafe(codec, w, id);
    }
  }

  /** Exactly the quiet changes are harmless: in every state that quiet runs reach, what comes after a step is
      safe in all quiet runs if and only if the step is quiet. */
  lemma SafeExactlyIfQuiet(codec: Codec, v: View, step: Step)
    requires Inv(codec, v) && Enabled(codec, v, step)
    ensures Quiet(codec, v, step) <==> forall u :: Leads(codec, Apply(codec, v, step), u) ==> Safe(codec, u)
  {
    if Quiet(codec, v, step) {
      StepIsSound(codec, v, step);
      hide Inv, Leads, Safe, Quiet;
      forall u | Leads(codec, Apply(codec, v, step), u) ensures Safe(codec, u) {
        LeadsToSafety(codec, Apply(codec, v, step), u);
      }
    } else {
      var u := LoudLoses(codec, v, step);
    }
  }

  /** A simple condition: no open manifest lists the id, the worker has not read it for a segment it is collecting,
      and there is no expiry that the record would inherit. */
  lemma UnlistedIsQuiet(codec: Codec, v: View, step: Step)
    requires Enabled(codec, v, step) && (step.Arrives? || step.Rewrites?)
    requires forall segment :: segment in v.store.manifests && step.id in segment.sources ==>
      v.store.manifests[segment].committed
    requires v.flight.Some? ==> step.id !in v.flight.value.read
    requires step.Rewrites? && step.keeps ==> v.store.hot[step.id].mark.None?
    ensures Quiet(codec, v, step)
  {
    hide Holds, CanPublish, HasRecord;
  }

  // ---- runs that lose a record ----

  /** A session updated after its record was read, before its segment is claimed at all, before it is stored, or when
      it is complete; a metric bucket incremented after its marking; an event that arrives with other content after
      its expiry, before its segment is committed. */
  datatype Loss = UpdatedBeforeClaim | UpdatedInFlight | UpdatedWhenComplete | IncrementedWhenMarked | ArrivesAgain

  lemma EmptyIsSound(codec: Codec)
    ensures Inv(codec, EMPTY)
  {
  }

  /** One record is accepted and read. */
  lemma ReadOne(codec: Codec, id: SourceId, x: Bytes) returns (v: View)
    ensures Leads(codec, EMPTY, v)
    ensures v == View(Store(map[id := Hot(x, None)], map[], map[]), map[id := x], map[],
                      Some(Flight(Segment(id.kind, [id]), map[id := x])))
  {
    var segment := Segment(id.kind, [id]);
    LeadsNowhere(codec, EMPTY);
    hide Leads, Holds;
    LeadsOn(codec, EMPTY, EMPTY, Arrives(id, x));
    v := Apply(codec, EMPTY, Arrives(id, x));
    LeadsOn(codec, EMPTY, v, Begins(segment));
    v := Apply(codec, v, Begins(segment));
    LeadsOn(codec, EMPTY, v, Reads(id));
    v := Apply(codec, v, Reads(id));
  }

  /** Then it is claimed. */
  lemma ClaimOne(codec: Codec, id: SourceId, x: Bytes) returns (v: View)
    ensures Leads(codec, EMPTY, v)
    ensures
      var segment := Segment(id.kind, [id]);
      v == View(Store(map[id := Hot(x, None)], map[segment := Manifest(Writing, false)], map[]), map[id := x], map[],
                Some(Flight(segment, map[id := x])))
  {
    v := ReadOne(codec, id, x);
    hide Leads, Holds;
    LeadsOn(codec, EMPTY, v, Claims);
    v := Apply(codec, v, Claims);
  }

  /** Then it is stored and its manifest is complete. */
  lemma ArchiveOne(codec: Codec, id: SourceId, x: Bytes, bytes: Bytes) returns (v: View)
    requires codec.encode(id.kind, [x]) == Some(bytes)
    ensures Leads(codec, EMPTY, v)
    ensures
      var segment := Segment(id.kind, [id]);
      && v.store.hot == map[id := Hot(x, None)] && v.store.objects == map[segment := bytes]
      && v.store.manifests == map[segment := Manifest(Complete(|bytes|, codec.hash(bytes)), false)]
      && v.latest == map[id := x] && v.held == map[segment := [x]]
  {
    var segment := Segment(id.kind, [id]);
    v := ClaimOne(codec, id, x);
    hide Leads, Holds;
    LeadsOn(codec, EMPTY, v, Puts(segment, bytes));
    v := Apply(codec, v, Puts(segment, bytes));
    assert v.flight.value.Records() == [x];
    LeadsOn(codec, EMPTY, v, Finishes(|bytes|, codec.hash(bytes)));
    v := Apply(codec, v, Finishes(|bytes|, codec.hash(bytes)));
  }

  lemma OnlyHolds(codec: Codec, v: View, id: SourceId, x: Bytes, y: Bytes)
    requires forall segment :: segment in v.held ==> segment == Segment(id.kind, [id]) && v.held[segment] == [x]
    requires x != y
    ensures !Holds(codec, v.Archive(), id, y)
  {
  }

  /** Where the loss begins. */
  ghost predicate Stage(codec: Codec, loss: Loss, v: View, id: SourceId, x: Bytes) {
    var segment := Segment(id.kind, [id]);
    && (forall other :: other in v.held ==> other == segment && v.held[other] == [x])
    && match loss
       case UpdatedBeforeClaim =>
         && v.store.manifests == map[] && id in v.store.hot && v.flight == Some(Flight(segment, map[id := x]))
         && CanPublish(codec, v.store.objects, v.flight.value)
       case UpdatedInFlight =>
         && IsWriting(v.store.manifests, segment)
         && id in v.store.hot && v.flight == Some(Flight(segment, map[id := x]))
         && CanPublish(codec, v.store.objects, v.flight.value)
       case UpdatedWhenComplete => id in v.store.hot && CanMark(v.store.manifests, segment)
       case IncrementedWhenMarked => id in v.store.hot && v.store.hot[id].mark.Some?
       case ArrivesAgain => id !in v.store.hot && CanMark(v.store.manifests, segment)
  }

  lemma ReachStage(codec: Codec, loss: Loss, id: SourceId, x: Bytes, bytes: Bytes) returns (v: View)
    requires codec.encode(id.kind, [x]) == Some(bytes)
    ensures Leads(codec, EMPTY, v) && Stage(codec, loss, v, id, x)
  {
    var segment := Segment(id.kind, [id]);
    hide Leads, Holds;
    if loss.UpdatedBeforeClaim? || loss.UpdatedInFlight? {
      if loss.UpdatedBeforeClaim? { v := ReadOne(codec, id, x); } else { v := ClaimOne(codec, id, x); }
      assert Fits(codec, v.store.objects, v.flight.value, [x]);
    } else {
      v := ArchiveOne(codec, id, x, bytes);
      if !loss.UpdatedWhenComplete? { v := MarkOne(codec, v, id); }
      if loss.ArrivesAgain? {
        LeadsOn(codec, EMPTY, v, Expires(id));
        v := Apply(codec, v, Expires(id));
      }
    }
  }

  lemma MarkOne(codec: Codec, v: View, id: SourceId) returns (u: View)
    requires Leads(codec, EMPTY, v) && id in v.store.hot && CanMark(v.store.manifests, Segment(id.kind, [id]))
    ensures Leads(codec, EMPTY, u) && u.store.manifests == v.store.manifests && u.held == v.held
    ensures id in u.store.hot && u.store.hot[id].mark.Some?
  {
    hide Leads, Holds;
    var segment := Segment(id.kind, [id]);
    LeadsOn(codec, EMPTY, v, Marks(segment, {id}));
    u := Apply(codec, v, Marks(segment, {id}));
  }

  lemma StageIsLoud(codec: Codec, loss: Loss, v: View, id: SourceId, x: Bytes, y: Bytes)
    requires Stage(codec, loss, v, id, x) && x != y
    ensures
      var step := if loss.ArrivesAgain? then Arrives(id, y) else Rewrites(id, y, loss.IncrementedWhenMarked?);
      Enabled(codec, v, step) && !Quiet(codec, v, step)
  {
    OnlyHolds(codec, v, id, x, y);
    assert id in Segment(id.kind, [id]).sources;
    hide Holds, CanPublish;
  }

  /** Each kind of loss happens from the empty store, for every record and every other one; the first kind while there
      is no manifest at all. */
  lemma LosingRun(codec: Codec, loss: Loss, id: SourceId, x: Bytes, y: Bytes, bytes: Bytes)
    returns (v: View, step: Step, u: View)
    requires codec.encode(id.kind, [x]) == Some(bytes) && x != y
    ensures Leads(codec, EMPTY, v) && Stage(codec, loss, v, id, x) && Enabled(codec, v, step)
    ensures step == if loss.ArrivesAgain? then Arrives(id, y) else Rewrites(id, y, loss.IncrementedWhenMarked?)
    ensures Leads(codec, Apply(codec, v, step), u) && !Safe(codec, u)
  {
    hide Leads, Holds, Inv, Safe, Stage, Enabled, Quiet, Apply;
    v := ReachStage(codec, loss, id, x, bytes);
    step := if loss.ArrivesAgain? then Arrives(id, y) else Rewrites(id, y, loss.IncrementedWhenMarked?);
    StageIsLoud(codec, loss, v, id, x, y);
    EmptyIsSound(codec);
    LeadsToSafety(codec, EMPTY, v);
    u := LoudLoses(codec, v, step);
  }
}
