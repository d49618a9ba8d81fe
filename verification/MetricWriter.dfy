/** The micro-batching writer of `metric_writer.rs`.

    What happens outside the writer is an arbitrary script of moments: at each point where the writer
    awaits or reads the clock, callers submit batches, shutdown may begin, a timer may have run out and a
    store call may end one way or the other. After the last moment shutdown begins. */
module MetricWriter {
  import opened Common
  import opened MetricBatches

  datatype SignalError = InvalidData | Unavailable | Capacity
  datatype Answer = Accepted | Rejected(error: SignalError)

  /** `id` numbers the callers in the order of their submissions. */
  datatype Command = Command(id: nat, batch: Batch)

  /** One store call, with the commands whose batches it carried. */
  datatype Call = Call(commands: seq<Command>, batch: Batch, answer: Answer)

  /** `early` marks a caller that passed the accepting check at an earlier moment. */
  datatype Submission = Submission(batch: Batch, early: bool)

  datatype Moment = Moment(submissions: seq<Submission>, cancelled: bool, expired: bool, stored: Answer)

  // ---- the ledger ----

  function CommandsOf(calls: seq<Call>): seq<Command> {
    if calls == [] then [] else CommandsOf(calls[..|calls| - 1]) + calls[|calls| - 1].commands
  }

  function BatchesOf(commands: seq<Command>): seq<Batch> {
    seq(|commands|, i requires 0 <= i < |commands| => commands[i].batch)
  }

  ghost predicate Ascending(commands: seq<Command>, next: nat) {
    && (forall i, j :: 0 <= i < j < |commands| ==> commands[i].id < commands[j].id)
    && (forall i :: 0 <= i < |commands| ==> commands[i].id < next)
  }

  function Ids(commands: seq<Command>): set<nat> { set i | 0 <= i < |commands| :: commands[i].id }

  /** The merge of its commands in order, of a size the store accepts, and one answer for all of them. */
  ghost predicate Sound(call: Call, answers: map<nat, Answer>, maxDeltas: nat) {
    && call.commands != []
    && call.batch == MergeAll(BatchesOf(call.commands)) && |call.batch.deltas| <= maxDeltas
    && forall id: nat :: id in Ids(call.commands) ==> id in answers && answers[id] == call.answer
  }

  ghost predicate AllSound(calls: seq<Call>, answers: map<nat, Answer>, maxDeltas: nat) {
    forall i :: 0 <= i < |calls| ==> Sound(calls[i], answers, maxDeltas)
  }

  /** Carried by a store call that was answered with success. */
  ghost predicate Stored(calls: seq<Call>, id: nat) {
    exists i :: 0 <= i < |calls| && calls[i].answer.Accepted? && id in Ids(calls[i].commands)
  }

  /** Each command carries the batch its caller submitted, and there is something in it. */
  ghost predicate Own(commands: seq<Command>, submitted: seq<Batch>) {
    forall i :: 0 <= i < |commands| ==>
      commands[i].id < |submitted| && commands[i].batch == submitted[commands[i].id] && |commands[i].batch.deltas| > 0
  }

  /** The state of every caller: `submitted` are all batches so far, by caller, and `waiting` those not answered.
      The commands of the store calls and the waiting ones are in submission order, so none is there twice. */
  datatype Ledger = Ledger(calls: seq<Call>, answers: map<nat, Answer>, submitted: seq<Batch>, waiting: seq<Command>) {

    ghost predicate Valid(maxDeltas: nat) {
      && Ascending(CommandsOf(calls) + waiting, |submitted|) && Own(CommandsOf(calls) + waiting, submitted)
      && (forall id: nat :: id in answers <==> id < |submitted| && id !in Ids(waiting))
      && AllSound(calls, answers, maxDeltas)
      && Justified(calls, answers, submitted)
      && (forall i :: 0 <= i < |waiting| ==> |waiting[i].batch.deltas| <= maxDeltas)
    }
  }

  /** Success means that there was nothing to store or that it was stored, and having nothing to store means success. */
  ghost predicate Justified(calls: seq<Call>, answers: map<nat, Answer>, submitted: seq<Batch>) {
    && (forall id: nat :: id < |submitted| && id in answers && answers[id].Accepted? ==>
          |submitted[id].deltas| == 0 || Stored(calls, id))
    && (forall id: nat :: id < |submitted| && |submitted[id].deltas| == 0 ==> id in answers && answers[id].Accepted?)
  }

  function Answered(answers: map<nat, Answer>, commands: seq<Command>, answer: Answer): map<nat, Answer> {
    answers + map id | id in Ids(commands) :: answer
  }

  function AnswerNew(l: Ledger, batch: Batch, answer: Answer): Ledger {
    l.(answers := l.answers[|l.submitted| := answer], submitted := l.submitted + [batch])
  }

  function Enqueue(l: Ledger, batch: Batch): Ledger {
    l.(waiting := l.waiting + [Command(|l.submitted|, batch)], submitted := l.submitted + [batch])
  }

  function FlushFirst(l: Ledger, n: nat, batch: Batch, answer: Answer): Ledger
    requires n <= |l.waiting|
  {
    l.(calls := l.calls + [Call(l.waiting[..n], batch, answer)],
       answers := Answered(l.answers, l.waiting[..n], answer),
       waiting := l.waiting[n..])
  }

  function RejectFirst(l: Ledger, n: nat): Ledger
    requires n <= |l.waiting|
  {
    l.(answers := Answered(l.answers, l.waiting[..n], Rejected(Unavailable)), waiting := l.waiting[n..])
  }

  lemma AnswerNewIsValid(l: Ledger, batch: Batch, answer: Answer, maxDeltas: nat)
    requires l.Valid(maxDeltas) && (answer.Accepted? <==> |batch.deltas| == 0)
    ensures AnswerNew(l, batch, answer).Valid(maxDeltas)
  {
    hide Ids, MergeAll, BatchesOf, CommandsOf, Ascending, Own, AllSound, Stored, Justified;
    NotWaiting(l, maxDeltas);
    AnswersGrow(l.calls, l.answers, AnswerNew(l, batch, answer).answers, maxDeltas);
    OneMoreSubmitted(CommandsOf(l.calls) + l.waiting, l.submitted, batch);
    OneMoreJustified(l.calls, l.answers, l.submitted, batch, answer);
  }

  lemma OneMoreJustified(calls: seq<Call>, answers: map<nat, Answer>, submitted: seq<Batch>, batch: Batch,
                         answer: Answer)
    requires Justified(calls, answers, submitted) && (answer.Accepted? <==> |batch.deltas| == 0)
    ensures Justified(calls, answers[|submitted| := answer], submitted + [batch])
  {
    hide Stored;
  }

  lemma OneMoreSubmitted(commands: seq<Command>, submitted: seq<Batch>, batch: Batch)
    requires Ascending(commands, |submitted|) && Own(commands, submitted)
    ensures Ascending(commands, |submitted| + 1) && Own(commands, submitted + [batch])
  {
  }

  lemma NotWaiting(l: Ledger, maxDeltas: nat)
    requires l.Valid(maxDeltas)
    ensures |l.submitted| !in Ids(l.waiting) && |l.submitted| !in l.answers
  {
    var all := CommandsOf(l.calls) + l.waiting;
    forall i | 0 <= i < |l.waiting| ensures l.waiting[i].id != |l.submitted| {
      assert all[|CommandsOf(l.calls)| + i] == l.waiting[i];
    }
  }

  lemma AnswersGrow(calls: seq<Call>, before: map<nat, Answer>, after: map<nat, Answer>, maxDeltas: nat)
    requires AllSound(calls, before, maxDeltas)
    requires forall id: nat :: id in before ==> id in after && after[id] == before[id]
    ensures AllSound(calls, after, maxDeltas)
  {
    forall i | 0 <= i < |calls| ensures Sound(calls[i], after, maxDeltas) {
      assert Sound(calls[i], before, maxDeltas);
    }
  }

  lemma EnqueueIsValid(l: Ledger, batch: Batch, maxDeltas: nat)
    requires l.Valid(maxDeltas) && 0 < |batch.deltas| <= maxDeltas
    ensures Enqueue(l, batch).Valid(maxDeltas)
  {
    hide Ids, MergeAll, BatchesOf, CommandsOf, Ascending, Own, AllSound, Stored;
    var c := Command(|l.submitted|, batch);
    NotWaiting(l, maxDeltas);
    OneMoreWaiting(CommandsOf(l.calls) + l.waiting, l.submitted, batch);
    assert CommandsOf(l.calls) + (l.waiting + [c]) == (CommandsOf(l.calls) + l.waiting) + [c];
    IdsOfMore(l.waiting, c);
  }

  lemma OneMoreWaiting(commands: seq<Command>, submitted: seq<Batch>, batch: Batch)
    requires Ascending(commands, |submitted|) && Own(commands, submitted) && |batch.deltas| > 0
    ensures Ascending(commands + [Command(|submitted|, batch)], |submitted| + 1)
    ensures Own(commands + [Command(|submitted|, batch)], submitted + [batch])
  {
  }

  lemma CommandsOfMore(calls: seq<Call>, c: Call)
    ensures CommandsOf(calls + [c]) == CommandsOf(calls) + c.commands
  {
    assert (calls + [c])[..|calls|] == calls;
  }

  lemma OneMoreSound(calls: seq<Call>, c: Call, answers: map<nat, Answer>, maxDeltas: nat)
    requires AllSound(calls, answers, maxDeltas) && Sound(c, answers, maxDeltas)
    ensures AllSound(calls + [c], answers, maxDeltas)
  {
  }

  lemma IdsOfMore(commands: seq<Command>, c: Command)
    ensures Ids(commands + [c]) == Ids(commands) + {c.id}
  {
    var more := commands + [c];
    forall id: nat | id in Ids(commands) + {c.id} ensures id in Ids(more) {
      if id == c.id { assert more[|commands|] == c; } else {
        var i :| 0 <= i < |commands| && commands[i].id == id;
        assert more[i].id == id;
      }
    }
  }

  lemma IdsSplit(commands: seq<Command>, n: nat, next: nat)
    requires n <= |commands| && Ascending(commands, next)
    ensures Ids(commands) == Ids(commands[..n]) + Ids(commands[n..]) && Ids(commands[..n]) !! Ids(commands[n..])
  {
    forall id: nat | id in Ids(commands) ensures id in Ids(commands[..n]) + Ids(commands[n..]) {
      var i :| 0 <= i < |commands| && commands[i].id == id;
      if i < n { assert commands[..n][i].id == id; } else { assert commands[n..][i - n].id == id; }
    }
  }

  lemma Parts(xs: seq<Command>, ys: seq<Command>, n: nat, submitted: seq<Batch>)
    requires Ascending(xs + ys, |submitted|) && Own(xs + ys, submitted) && n <= |ys|
    ensures Ascending(ys, |submitted|)
    ensures Ascending((xs + ys[..n]) + ys[n..], |submitted|) && Own((xs + ys[..n]) + ys[n..], submitted)
    ensures Ascending(xs + ys[n..], |submitted|) && Own(xs + ys[n..], submitted)
  {
    assert (xs + ys[..n]) + ys[n..] == xs + ys;
    forall i | 0 <= i < |ys| ensures ys[i] == (xs + ys)[|xs| + i] {}
    var fewer := xs + ys[n..];
    forall i | 0 <= i < |fewer| ensures fewer[i] == (xs + ys)[if i < |xs| then i else i + n] {}
  }

  lemma AnsweringIsValid(l: Ledger, n: nat, answer: Answer, maxDeltas: nat)
    requires l.Valid(maxDeltas) && n <= |l.waiting|
    ensures
      var after := Answered(l.answers, l.waiting[..n], answer);
      && (forall id: nat :: id in after <==> id < |l.submitted| && id !in Ids(l.waiting[n..]))
      && (forall id: nat :: id in l.answers ==> after[id] == l.answers[id])
      && AllSound(l.calls, after, maxDeltas)
  {
    Parts(CommandsOf(l.calls), l.waiting, n, l.submitted);
    IdsSplit(l.waiting, n, |l.submitted|);
    AnswersGrow(l.calls, l.answers, Answered(l.answers, l.waiting[..n], answer), maxDeltas);
    forall id: nat | id in Ids(l.waiting) ensures id < |l.submitted| {}
  }

  lemma StoredStays(calls: seq<Call>, c: Call)
    ensures forall id: nat :: Stored(calls, id) ==> Stored(calls + [c], id)
    ensures c.answer.Accepted? ==> forall id: nat :: id in Ids(c.commands) ==> Stored(calls + [c], id)
  {
    var more := calls + [c];
    assert more[|calls|] == c;
    forall id: nat | Stored(calls, id) ensures Stored(more, id) {
      var i :| 0 <= i < |calls| && calls[i].answer.Accepted? && id in Ids(calls[i].commands);
      assert more[i] == calls[i];
    }
  }

  lemma FlushIsSound(l: Ledger, n: nat, batch: Batch, answer: Answer, maxDeltas: nat)
    requires l.Valid(maxDeltas) && 0 < n <= |l.waiting|
    requires batch == MergeAll(BatchesOf(l.waiting[..n])) && |batch.deltas| <= maxDeltas
    ensures AllSound(FlushFirst(l, n, batch, answer).calls, FlushFirst(l, n, batch, answer).answers, maxDeltas)
  {
    var c := Call(l.waiting[..n], batch, answer);
    AnsweringIsValid(l, n, answer, maxDeltas);
    hide MergeAll, BatchesOf, CommandsOf, Ids, AllSound;
    OneMoreSound(l.calls, c, Answered(l.answers, l.waiting[..n], answer), maxDeltas);
  }

  lemma FlushIsJustified(l: Ledger, n: nat, batch: Batch, answer: Answer, maxDeltas: nat)
    requires l.Valid(maxDeltas) && 0 < n <= |l.waiting|
    ensures var l' := FlushFirst(l, n, batch, answer); Justified(l'.calls, l'.answers, l'.submitted)
  {
    AnsweringIsValid(l, n, answer, maxDeltas);
    var c := Call(l.waiting[..n], batch, answer);
    StoredStays(l.calls, c);
    hide MergeAll, BatchesOf, CommandsOf, AllSound, Ids, Stored, Ascending, Own, Justified;
    JustifiedStays(l.calls, l.calls + [c], l.answers, Answered(l.answers, l.waiting[..n], answer), l.submitted);
  }

  lemma JustifiedStays(calls: seq<Call>, calls': seq<Call>, answers: map<nat, Answer>, answers': map<nat, Answer>,
                       submitted: seq<Batch>)
    requires Justified(calls, answers, submitted)
    requires forall id: nat :: id in answers ==> id in answers' && answers'[id] == answers[id]
    requires forall id: nat :: id in answers' && id !in answers && answers'[id].Accepted? ==> Stored(calls', id)
    requires forall id: nat :: Stored(calls, id) ==> Stored(calls', id)
    ensures Justified(calls', answers', submitted)
  {
    hide Stored;
  }

  lemma FlushIsValid(l: Ledger, n: nat, batch: Batch, answer: Answer, maxDeltas: nat)
    requires l.Valid(maxDeltas) && 0 < n <= |l.waiting|
    requires batch == MergeAll(BatchesOf(l.waiting[..n])) && |batch.deltas| <= maxDeltas
    ensures FlushFirst(l, n, batch, answer).Valid(maxDeltas)
  {
    hide MergeAll, BatchesOf, CommandsOf, Ascending, AllSound, Stored, Ids, Own, Justified, Answered;
    Parts(CommandsOf(l.calls), l.waiting, n, l.submitted);
    CommandsOfMore(l.calls, Call(l.waiting[..n], batch, answer));
    FlushIsSound(l, n, batch, answer, maxDeltas);
    FlushIsJustified(l, n, batch, answer, maxDeltas);
    AnsweringIsValid(l, n, answer, maxDeltas);
  }

  lemma RejectIsValid(l: Ledger, n: nat, maxDeltas: nat)
    requires l.Valid(maxDeltas) && n <= |l.waiting|
    ensures RejectFirst(l, n).Valid(maxDeltas)
  {
    Parts(CommandsOf(l.calls), l.waiting, n, l.submitted);
    AnsweringIsValid(l, n, Rejected(Unavailable), maxDeltas);
    RejectIsJustified(l, n, maxDeltas);
    hide Ids, MergeAll, BatchesOf, CommandsOf, Ascending, Own, AllSound, Stored, Justified, Answered;
  }

  lemma RejectIsJustified(l: Ledger, n: nat, maxDeltas: nat)
    requires l.Valid(maxDeltas) && n <= |l.waiting|
    ensures Justified(l.calls, RejectFirst(l, n).answers, l.submitted)
  {
    AnsweringIsValid(l, n, Rejected(Unavailable), maxDeltas);
    hide Ids, MergeAll, BatchesOf, CommandsOf, Ascending, Own, AllSound, Stored, Justified;
    JustifiedStays(l.calls, l.calls, l.answers, RejectFirst(l, n).answers, l.submitted);
  }

  // ---- what it all amounts to ----

  ghost function StoredCalls(calls: seq<Call>): seq<Call> {
    if calls == [] then []
    else StoredCalls(calls[..|calls| - 1]) + if calls[|calls| - 1].answer.Accepted? then [calls[|calls| - 1]] else []
  }

  ghost function CallBatches(calls: seq<Call>): seq<Batch> {
    seq(|calls|, i requires 0 <= i < |calls| => calls[i].batch)
  }

  /** The batches of all callers whose call succeeded, in submission order. */
  ghost function StoredBatches(calls: seq<Call>): seq<Batch> { BatchesOf(CommandsOf(StoredCalls(calls))) }

  /** Merging each call's batches first gives the merge of all of them. */
  lemma {:induction false} CallsMergeAll(calls: seq<Call>, answers: map<nat, Answer>, maxDeltas: nat, bins: nat)
    requires AllSound(calls, answers, maxDeltas) && forall i :: 0 <= i < |calls| ==>
      AllValid(BatchesOf(calls[i].commands), bins)
    ensures MergeAll(CallBatches(StoredCalls(calls))) == MergeAll(StoredBatches(calls))
    ensures AllValid(StoredBatches(calls), bins)
  {
    if calls != [] {
      var rest, last := calls[..|calls| - 1], calls[|calls| - 1];
      CallsMergeAll(rest, answers, maxDeltas, bins);
      assert Sound(last, answers, maxDeltas);
      hide MergeAll, BatchesOf, CommandsOf, AllSound, AllValid;
      if last.answer.Accepted? {
        OneMoreStored(StoredCalls(rest), last, bins);
      } else {
        assert StoredCalls(calls) == StoredCalls(rest);
      }
    }
  }

  lemma OneMoreStored(stored: seq<Call>, last: Call, bins: nat)
    requires MergeAll(CallBatches(stored)) == MergeAll(BatchesOf(CommandsOf(stored)))
    requires AllValid(BatchesOf(CommandsOf(stored)), bins) && AllValid(BatchesOf(last.commands), bins)
    requires last.batch == MergeAll(BatchesOf(last.commands))
    ensures MergeAll(CallBatches(stored + [last])) == MergeAll(BatchesOf(CommandsOf(stored + [last])))
    ensures AllValid(BatchesOf(CommandsOf(stored + [last])), bins)
  {
    MergeAllIsValid(BatchesOf(last.commands), bins);
    hide MergeAll, BatchesOf, CommandsOf, Merge, AllValid;
    assert CallBatches(stored + [last]) == CallBatches(stored) + [last.batch];
    MergeAllMore(CallBatches(stored), last.batch);
    CommandsOfMore(stored, last);
    BatchesConcat(CommandsOf(stored), last.commands, bins);
    MergeAllSplits(BatchesOf(CommandsOf(stored)), BatchesOf(last.commands), bins);
  }

  lemma BatchesConcat(xs: seq<Command>, ys: seq<Command>, bins: nat)
    ensures BatchesOf(xs + ys) == BatchesOf(xs) + BatchesOf(ys)
    ensures AllValid(BatchesOf(xs), bins) && AllValid(BatchesOf(ys), bins) ==>
      AllValid(BatchesOf(xs) + BatchesOf(ys), bins)
  {
  }

  // ---- the writer ----

  /** What `persist_metrics` answers at once; `None` when the batch is queued. */
  function AtOnce(batch: Batch, maxDeltas: nat, refused: bool, full: bool): Option<Answer> {
    if |batch.deltas| == 0 then Some(Accepted)
    else if |batch.deltas| > maxDeltas then Some(Rejected(InvalidData))
    else if refused then Some(Rejected(Unavailable))
    else if full then Some(Rejected(Capacity))
    else None
  }

  function Submitted(l: Ledger, batch: Batch, atOnce: Option<Answer>): Ledger {
    if atOnce.Some? then AnswerNew(l, batch, atOnce.value) else Enqueue(l, batch)
  }

  function Held(carry: Option<Command>): seq<Command> {
    if carry.Some? then [carry.value] else []
  }

  lemma BlankIsValid(l: Ledger, maxDeltas: nat)
    requires l == Ledger([], map[], [], [])
    ensures l.Valid(maxDeltas)
  {
  }

  lemma WaitingFits(l: Ledger, maxDeltas: nat)
    requires l.Valid(maxDeltas) && l.waiting != []
    ensures |l.waiting[0].batch.deltas| <= maxDeltas
  {
  }

  /** The inner loop keeps the merge of what it has taken. */
  lemma MergeOneMore(commands: seq<Command>, c: Command)
    requires commands != []
    ensures MergeAll(BatchesOf(commands + [c])) == Merge(MergeAll(BatchesOf(commands)), c.batch)
  {
    hide Merge;
    assert BatchesOf(commands + [c])[..|commands|] == BatchesOf(commands);
  }

  lemma MergeOne(c: Command)
    ensures MergeAll(BatchesOf([c])) == c.batch
  {
  }

  lemma AnswerOne(answers: map<nat, Answer>, commands: seq<Command>, i: nat, answer: Answer)
    requires i < |commands|
    ensures Answered(answers, commands[..i + 1], answer) ==
            Answered(answers, commands[..i], answer)[commands[i].id := answer]
  {
    assert commands[..i + 1] == commands[..i] + [commands[i]];
    IdsOfMore(commands[..i], commands[i]);
  }

  lemma NoneAnswered(answers: map<nat, Answer>, answer: Answer)
    ensures Answered(answers, [], answer) == answers
  {
  }

  lemma RejectOne(l: Ledger, c: Command, rest: seq<Command>)
    requires l.waiting == [c] + rest
    ensures RejectFirst(l, 1) == l.(answers := l.answers[c.id := Rejected(Unavailable)], waiting := rest)
  {
    assert l.waiting[..1] == [c] && [c][..1] == [c] && [c][..0] == [];
    AnswerOne(l.answers, [c], 0, Rejected(Unavailable));
    NoneAnswered(l.answers, Rejected(Unavailable));
  }

  // ---- what the store has in the end ----

  /** The batches, in submission order, of the first `n` callers that had something to store and were told
      that it is. */
  ghost function AcceptedBatches(submitted: seq<Batch>, answers: map<nat, Answer>, n: nat): seq<Batch>
    requires n <= |submitted|
  {
    if n == 0 then []
    else
      AcceptedBatches(submitted, answers, n - 1) +
      if IsAccepted(submitted, answers, n - 1) then [submitted[n - 1]] else []
  }

  predicate IsAccepted(submitted: seq<Batch>, answers: map<nat, Answer>, id: nat)
    requires id < |submitted|
  {
    |submitted[id].deltas| > 0 && id in answers && answers[id].Accepted?
  }

  /** Commands in order whose callers are exactly the accepted ones carry exactly the accepted batches. */
  lemma {:induction false} OrderedCommandsAreTheAccepted(commands: seq<Command>, submitted: seq<Batch>,
                                                         answers: map<nat, Answer>, n: nat)
    requires n <= |submitted| && Ascending(commands, n) && Own(commands, submitted)
    requires forall id: nat :: id < n ==> (id in Ids(commands) <==> IsAccepted(submitted, answers, id))
    ensures BatchesOf(commands) == AcceptedBatches(submitted, answers, n)
  {
    if n == 0 {
      assert commands == [];
    } else if IsAccepted(submitted, answers, n - 1) {
      LastCommand(commands, n);
      var rest, last := commands[..|commands| - 1], commands[|commands| - 1];
      FewerCommands(rest, last, submitted);
      hide Own, Ids, BatchesOf, Ascending;
      OrderedCommandsAreTheAccepted(rest, submitted, answers, n - 1);
    } else {
      forall i | 0 <= i < |commands| ensures commands[i].id < n - 1 { assert commands[i].id in Ids(commands); }
      OrderedCommandsAreTheAccepted(commands, submitted, answers, n - 1);
    }
  }

  lemma LastCommand(commands: seq<Command>, n: nat)
    requires n > 0 && Ascending(commands, n) && n - 1 in Ids(commands)
    ensures commands != [] && commands[|commands| - 1].id == n - 1
    ensures commands == commands[..|commands| - 1] + [commands[|commands| - 1]]
    ensures Ascending(commands[..|commands| - 1], n - 1)
  {
    var i :| 0 <= i < |commands| && commands[i].id == n - 1;
    var last := commands[|commands| - 1];
    assert commands[i].id <= last.id < n;
  }

  lemma FewerCommands(rest: seq<Command>, last: Command, submitted: seq<Batch>)
    requires Own(rest + [last], submitted)
    ensures Own(rest, submitted) && last.id < |submitted| && last.batch == submitted[last.id]
    ensures Ids(rest + [last]) == Ids(rest) + {last.id}
    ensures BatchesOf(rest + [last]) == BatchesOf(rest) + [last.batch]
  {
    var all := rest + [last];
    forall i | 0 <= i < |rest| ensures rest[i] == all[i] {}
    assert all[|rest|] == last;
    IdsOfMore(rest, last);
  }

  /** The commands of the successful calls: still in order, and those that are stored. */
  lemma {:induction false} StoredCommands(calls: seq<Call>, next: nat, submitted: seq<Batch>)
    requires Ascending(CommandsOf(calls), next) && Own(CommandsOf(calls), submitted)
    ensures Ascending(CommandsOf(StoredCalls(calls)), next) && Own(CommandsOf(StoredCalls(calls)), submitted)
    ensures forall id: nat :: id in Ids(CommandsOf(StoredCalls(calls))) <==> Stored(calls, id)
    ensures forall c :: c in CommandsOf(StoredCalls(calls)) ==> c in CommandsOf(calls)
  {
    if calls != [] {
      var rest, last := calls[..|calls| - 1], calls[|calls| - 1];
      assert calls == rest + [last];
      Prefix(CommandsOf(rest), last.commands, next, submitted);
      StoredCommands(rest, next, submitted);
      StoredOneMore(rest, last);
      if last.answer.Accepted? {
        CommandsOfMore(StoredCalls(rest), last);
        Joined(CommandsOf(StoredCalls(rest)), CommandsOf(rest), last.commands, next, submitted);
      } else {
        assert StoredCalls(calls) == StoredCalls(rest);
      }
    }
  }

  lemma Prefix(xs: seq<Command>, ys: seq<Command>, next: nat, submitted: seq<Batch>)
    requires Ascending(xs + ys, next) && Own(xs + ys, submitted)
    ensures Ascending(xs, next) && Own(xs, submitted)
  {
    forall i | 0 <= i < |xs| ensures (xs + ys)[i] == xs[i] {}
  }

  /** Leaving out some of the first commands keeps the order. */
  lemma Joined(fewer: seq<Command>, xs: seq<Command>, ys: seq<Command>, next: nat, submitted: seq<Batch>)
    requires Ascending(xs + ys, next) && Own(xs + ys, submitted)
    requires Ascending(fewer, next) && Own(fewer, submitted) && forall c :: c in fewer ==> c in xs
    ensures Ascending(fewer + ys, next) && Own(fewer + ys, submitted)
    ensures Ids(fewer + ys) == Ids(fewer) + Ids(ys)
  {
    forall i | 0 <= i < |ys| ensures ys[i] == (xs + ys)[|xs| + i] {}
    forall i, j | 0 <= i < |fewer| && 0 <= j < |ys| ensures fewer[i].id < ys[j].id {
      assert fewer[i] in xs;
      var k :| 0 <= k < |xs| && xs[k] == fewer[i];
      assert (xs + ys)[k].id < (xs + ys)[|xs| + j].id;
    }
    IdsConcat(fewer, ys);
  }

  lemma IdsConcat(xs: seq<Command>, ys: seq<Command>)
    ensures Ids(xs + ys) == Ids(xs) + Ids(ys)
  {
    forall id: nat | id in Ids(xs) + Ids(ys) ensures id in Ids(xs + ys) {
      if id in Ids(xs) {
        var i :| 0 <= i < |xs| && xs[i].id == id;
        assert (xs + ys)[i].id == id;
      } else {
        var i :| 0 <= i < |ys| && ys[i].id == id;
        assert (xs + ys)[|xs| + i].id == id;
      }
    }
  }

  lemma StoredOneMore(rest: seq<Call>, last: Call)
    ensures forall id: nat :: Stored(rest + [last], id) <==>
      Stored(rest, id) || (last.answer.Accepted? && id in Ids(last.commands))
  {
    var all := rest + [last];
    StoredStays(rest, last);
    forall id: nat | Stored(all, id) ensures Stored(rest, id) || (last.answer.Accepted? && id in Ids(last.commands)) {
      var i :| 0 <= i < |all| && all[i].answer.Accepted? && id in Ids(all[i].commands);
      if i < |rest| { assert rest[i] == all[i]; }
    }
  }

  /** Once nobody waits, each caller has exactly one answer, its batch was in at most one store call, and the
      answer is a success exactly if there was nothing to store or a store call with its batch succeeded. */
  lemma EveryCallerIsAnsweredOnce(l: Ledger, maxDeltas: nat)
    requires l.Valid(maxDeltas) && l.waiting == []
    ensures forall id: nat :: id < |l.submitted| <==> id in l.answers
    ensures forall id: nat :: id in l.answers ==>
      (l.answers[id].Accepted? <==> |l.submitted[id].deltas| == 0 || Stored(l.calls, id))
    ensures Ascending(CommandsOf(l.calls), |l.submitted|) && Own(CommandsOf(l.calls), l.submitted)
    ensures forall i :: 0 <= i < |l.calls| ==> |l.calls[i].batch.deltas| <= maxDeltas
  {
    assert CommandsOf(l.calls) + [] == CommandsOf(l.calls);
    assert Ids([]) == {};
    forall id: nat | Stored(l.calls, id) ensures id in l.answers && l.answers[id].Accepted? {
      var i :| 0 <= i < |l.calls| && l.calls[i].answer.Accepted? && id in Ids(l.calls[i].commands);
      assert Sound(l.calls[i], l.answers, maxDeltas);
    }
    forall i | 0 <= i < |l.calls| ensures |l.calls[i].batch.deltas| <= maxDeltas {
      assert Sound(l.calls[i], l.answers, maxDeltas);
    }
  }

  lemma {:induction false} CallsAreValid(calls: seq<Call>, submitted: seq<Batch>, bins: nat)
    requires Own(CommandsOf(calls), submitted) && AllValid(submitted, bins)
    ensures forall i :: 0 <= i < |calls| ==> AllValid(BatchesOf(calls[i].commands), bins)
  {
    if calls != [] {
      var rest, last := calls[..|calls| - 1], calls[|calls| - 1];
      var all := CommandsOf(rest) + last.commands;
      forall i | 0 <= i < |CommandsOf(rest)| ensures CommandsOf(rest)[i] == all[i] {}
      CallsAreValid(rest, submitted, bins);
      forall i | 0 <= i < |last.commands|
        ensures last.commands[i].batch.Valid() && SameBins(last.commands[i].batch, bins)
      {
        assert last.commands[i] == all[|CommandsOf(rest)| + i];
      }
    }
  }

  /** Batching loses and duplicates nothing: what the successful store calls wrote together is the merge of
      the batches of exactly the callers that were told so. */
  lemma StoreReceivesExactlyTheAccepted(l: Ledger, maxDeltas: nat, bins: nat)
    requires l.Valid(maxDeltas) && l.waiting == [] && AllValid(l.submitted, bins)
    ensures MergeAll(CallBatches(StoredCalls(l.calls))) ==
            MergeAll(AcceptedBatches(l.submitted, l.answers, |l.submitted|))
  {
    var commands := CommandsOf(StoredCalls(l.calls));
    EveryCallerIsAnsweredOnce(l, maxDeltas);
    StoredCommands(l.calls, |l.submitted|, l.submitted);
    CallsAreValid(l.calls, l.submitted, bins);
    CallsMergeAll(l.calls, l.answers, maxDeltas, bins);
    forall id: nat | id < |l.submitted| ensures id in Ids(commands) <==> IsAccepted(l.submitted, l.answers, id) {
      if id in Ids(commands) {
        var i :| 0 <= i < |commands| && commands[i].id == id;
        assert |l.submitted[id].deltas| > 0;
      }
    }
    hide MergeAll, BatchesOf, CommandsOf, Ascending, AllSound, Stored, Ids, Own, StoredCalls;
    OrderedCommandsAreTheAccepted(commands, l.submitted, l.answers, |l.submitted|);
  }

  lemma {:induction false} AcceptedAreValid(submitted: seq<Batch>, answers: map<nat, Answer>, n: nat, bins: nat)
    requires n <= |submitted| && AllValid(submitted, bins)
    ensures AllValid(AcceptedBatches(submitted, answers, n), bins)
  {
    if n > 0 { AcceptedAreValid(submitted, answers, n - 1, bins); }
  }

  /** In numbers: the store has, under each key, the sum of what the accepted callers measured, the count, the extremes
      that were attained, the last value, time and trace, and the bins added up; and so has each store call for the
      callers it carried. */
  lemma StoreTotals(l: Ledger, maxDeltas: nat, bins: nat)
    requires l.Valid(maxDeltas) && l.waiting == [] && AllValid(l.submitted, bins)
    ensures Totals(MergeAll(CallBatches(StoredCalls(l.calls))), AcceptedBatches(l.submitted, l.answers, |l.submitted|))
    ensures forall i :: 0 <= i < |l.calls| ==> Totals(l.calls[i].batch, BatchesOf(l.calls[i].commands))
  {
    StoreReceivesExactlyTheAccepted(l, maxDeltas, bins);
    AcceptedAreValid(l.submitted, l.answers, |l.submitted|, bins);
    MergeAllTotals(AcceptedBatches(l.submitted, l.answers, |l.submitted|), bins);
    EveryCallerIsAnsweredOnce(l, maxDeltas);
    CallsAreValid(l.calls, l.submitted, bins);
    hide Totals, MergeAll, BatchesOf, CommandsOf, Own, Ascending, AllValid, AcceptedBatches, Stored, Ids;
    forall i | 0 <= i < |l.calls| ensures Totals(l.calls[i].batch, BatchesOf(l.calls[i].commands)) {
      assert Sound(l.calls[i], l.answers, maxDeltas);
      MergeAllTotals(BatchesOf(l.calls[i].commands), bins);
    }
  }

  // ---- the script ----

  function BatchesIn(submissions: seq<Submission>): seq<Batch> {
    seq(|submissions|, i requires 0 <= i < |submissions| => submissions[i].batch)
  }

  function Submissions(moments: seq<Moment>): seq<Batch> {
    if moments == [] then [] else Submissions(moments[..|moments| - 1]) + BatchesIn(moments[|moments| - 1].submissions)
  }

  ghost predicate Cancelled(moments: seq<Moment>) { exists i :: 0 <= i < |moments| && moments[i].cancelled }

  /** After `past`, what was submitted is what its moments brought, and only they or the end began shutdown. */
  ghost predicate Follows(past: seq<Moment>, submitted: seq<Batch>, shutdown: bool, over: bool) {
    submitted == Submissions(past) && (shutdown ==> over || Cancelled(past))
  }

  lemma FollowsMore(past: seq<Moment>, m: Moment, submitted: seq<Batch>, shutdown: bool, over: bool)
    requires Follows(past, submitted, shutdown, false)
    ensures Follows(past + [m], submitted + BatchesIn(m.submissions), shutdown || m.cancelled, over)
  {
    var more := past + [m];
    assert more[..|past|] == past && more[|past|] == m;
    if Cancelled(past) {
      var i :| 0 <= i < |past| && past[i].cancelled;
      assert more[i].cancelled;
    }
  }

  lemma AtTheEnd(past: seq<Moment>, submitted: seq<Batch>, shutdown: bool)
    requires Follows(past, submitted, shutdown, true)
    ensures Follows(past, submitted, true, true)
  {
  }

  // ---- the drain ----

  /** After `before` each of the commands got a store call of its own, in order. */
  ghost predicate OneCallEach(before: seq<Call>, calls: seq<Call>, commands: seq<Command>) {
    && |calls| == |before| + |commands| && calls[..|before|] == before
    && forall i :: 0 <= i < |commands| ==> calls[|before| + i].commands == [commands[i]]
  }

  lemma NoCallYet(calls: seq<Call>)
    ensures OneCallEach(calls, calls, [])
  {
    assert calls[..|calls|] == calls;
  }

  lemma CallMore(before: seq<Call>, calls: seq<Call>, more: seq<Call>, commands: seq<Command>, c: Command)
    requires OneCallEach(before, calls, commands) && |more| == |calls| + 1 && more[..|calls|] == calls
    requires more[|calls|].commands == [c]
    ensures OneCallEach(before, more, commands + [c])
  {
    assert more[..|before|] == calls[..|before|];
    forall i | 0 <= i < |calls| ensures more[i] == calls[i] {}
  }

  lemma CallsBefore(before: seq<Call>, calls: seq<Call>, commands: seq<Command>)
    requires OneCallEach(before, calls, commands)
    ensures |commands| <= |calls| && OneCallEach(calls[..|calls| - |commands|], calls, commands)
  {
  }

  /** Some moment since the first `n`, or the end of the script, said that the deadline had passed. */
  ghost predicate DeadlinePassed(n: nat, past: seq<Moment>, script: seq<Moment>) {
    script == [] || exists i :: n <= i < |past| && past[i].expired
  }

  lemma NowPassed(n: nat, past: seq<Moment>, script: seq<Moment>)
    requires script == [] || (n < |past| && past[|past| - 1].expired)
    ensures DeadlinePassed(n, past, script)
  {
  }

  lemma StillPassed(n: nat, past: seq<Moment>, script: seq<Moment>, past': seq<Moment>, script': seq<Moment>)
    requires DeadlinePassed(n, past, script) && past + script == past' + script' && |past| <= |past'|
    ensures DeadlinePassed(n, past', script')
  {
    if script != [] {
      var i :| n <= i < |past| && past[i].expired;
      assert past'[i] == (past' + script')[i] == (past + script)[i];
    } else {
      assert |past'| + |script'| == |past|;
    }
  }

  lemma PassedEarlier(n: nat, earlier: nat, past: seq<Moment>, script: seq<Moment>)
    requires DeadlinePassed(n, past, script) && earlier <= n
    ensures DeadlinePassed(earlier, past, script)
  {
  }

  class Writer {
    const capacity: nat
    const maxDeltas: nat
    var channel: seq<Command>
    var open: bool
    var answers: map<nat, Answer>
    var submitted: seq<Batch>
    var accepting: bool
    var shutdown: bool
    var script: seq<Moment>
    ghost var calls: seq<Call>
    ghost var past: seq<Moment>

    // Kept by the waits alone: what was queued after the last one, how many in a row took nothing from a queue that
    // was not empty, and the longest such row before shutdown.
    ghost var seen: nat
    ghost var starved: nat
    ghost var worst: nat

    constructor (capacity: nat, maxDeltas: nat, script: seq<Moment>)
      ensures this.capacity == capacity && this.maxDeltas == maxDeltas && this.script == script && past == []
      ensures Valid([]) && open && accepting && !shutdown && submitted == [] && calls == [] && channel == []
      ensures seen == 0 && worst == 0
    {
      this.capacity, this.maxDeltas, this.script := capacity, maxDeltas, script;
      channel, open, answers, submitted, accepting, shutdown := [], true, map[], [], true, false;
      calls, past, seen, starved, worst := [], [], 0, 0, 0;
      new;
      BlankIsValid(Book([]), maxDeltas);
    }

    /** The ledger while the writer holds `held` outside the channel. */
    ghost function Book(held: seq<Command>): Ledger
      reads `calls, `answers, `submitted, `channel
    {
      Ledger(calls, answers, submitted, held + channel)
    }

    ghost predicate InOrder(held: seq<Command>)
      reads `calls, `answers, `submitted, `channel
    {
      Book(held).Valid(maxDeltas)
    }

    ghost predicate Valid(held: seq<Command>)
      reads `calls, `answers, `submitted, `channel, `past, `shutdown, `script
    {
      InOrder(held) && Follows(past, submitted, shutdown, script == [])
    }

    /** What the next wait will make of `starved`: nothing was taken since the last one although something was there. */
    ghost function Next(): nat
      reads `seen, `starved, `channel
    {
      if seen == 0 || |channel| < seen then 0 else starved + 1
    }

    /** `persist_metrics` up to the wait for the answer. */
    method Submit(submission: Submission, ghost held: seq<Command>)
      requires InOrder(held)
      modifies `answers, `submitted, `channel
      ensures InOrder(held) && submitted == old(submitted) + [submission.batch] && old(channel) <= channel
      ensures (!open ==> channel == old(channel))
      ensures Book(held) == Submitted(old(Book(held)), submission.batch,
        AtOnce(submission.batch, maxDeltas, !submission.early && (!accepting || shutdown),
               |old(channel)| >= capacity || !open))
    {
      hide Ledger.Valid;
      ghost var before := Book(held);
      var id, batch := |submitted|, submission.batch;
      submitted := submitted + [batch];
      if |batch.deltas| == 0 {
        AnswerNewIsValid(before, batch, Accepted, maxDeltas);
        answers := answers[id := Accepted];
      } else if |batch.deltas| > maxDeltas {
        AnswerNewIsValid(before, batch, Rejected(InvalidData), maxDeltas);
        answers := answers[id := Rejected(InvalidData)];
      } else if !submission.early && (!accepting || shutdown) {
        AnswerNewIsValid(before, batch, Rejected(Unavailable), maxDeltas);
        answers := answers[id := Rejected(Unavailable)];
      } else if |channel| >= capacity || !open {
        AnswerNewIsValid(before, batch, Rejected(Capacity), maxDeltas);
        answers := answers[id := Rejected(Capacity)];
      } else {
        EnqueueIsValid(before, batch, maxDeltas);
        channel := channel + [Command(id, batch)];
        assert held + channel == before.waiting + [Command(id, batch)];
      }
    }

    /** Others act. */
    method Pass(ghost held: seq<Command>) returns (m: Moment)
      requires Valid(held)
      modifies `answers, `submitted, `channel, `script, `shutdown, `past
      ensures past + script == old(past + script)
      ensures Valid(held) && old(channel) <= channel && (!open ==> channel == old(channel))
      ensures old(shutdown) ==> shutdown
      ensures old(script) == [] ==> script == [] && channel == old(channel) && shutdown && past == old(past)
      ensures old(script) == [] ==> m.expired && m.stored == Rejected(Unavailable)
      ensures old(script) != [] ==> script == old(script)[1..] && m == old(script)[0] && past == old(past) + [m]
    {
      hide Ledger.Valid, Follows;
      if script == [] {
        AtTheEnd(past, submitted, shutdown);
        shutdown := true;
        return Moment([], true, true, Rejected(Unavailable));
      }
      m := script[0];
      FollowsMore(past, m, submitted, shutdown, |script| == 1);
      assert script == [m] + script[1..];
      past, script := past + [m], script[1..];
      for i := 0 to |m.submissions|
        modifies `answers, `submitted, `channel
        invariant InOrder(held) && old(channel) <= channel && (!open ==> channel == old(channel))
        invariant submitted == old(submitted) + BatchesIn(m.submissions[..i])
      {
        Submit(m.submissions[i], held);
        assert m.submissions[..i + 1] == m.submissions[..i] + [m.submissions[i]];
      }
      assert m.submissions[..|m.submissions|] == m.submissions;
      shutdown := shutdown || m.cancelled;
    }

    /** A point at which the writer waits or reads the clock. */
    method Await(ghost held: seq<Command>) returns (m: Moment)
      requires Valid(held)
      modifies `answers, `submitted, `channel, `script, `shutdown, `past, `seen, `starved, `worst
      ensures past + script == old(past + script)
      ensures Valid(held) && old(channel) <= channel && (!open ==> channel == old(channel))
      ensures old(shutdown) ==> shutdown
      ensures old(script) == [] ==> script == [] && channel == old(channel) && shutdown && past == old(past)
      ensures old(script) == [] ==> m.expired && m.stored == Rejected(Unavailable)
      ensures old(script) != [] ==> script == old(script)[1..] && m == old(script)[0] && past == old(past) + [m]
      ensures seen == |channel| && starved == old(Next())
      ensures worst == if old(shutdown) then old(worst) else Max(old(worst), starved)
    {
      hide InOrder, Follows;
      starved := Next();
      worst := if shutdown then worst else Max(worst, starved);
      m := Pass(held);
      seen := |channel|;
    }

    /** One store call for `commands`, and the same answer to each of their callers. */
    method Flush(commands: seq<Command>, batch: Batch, ghost rest: seq<Command>)
      requires Valid(commands + rest) && commands != []
      requires batch == MergeAll(BatchesOf(commands)) && |batch.deltas| <= maxDeltas
      modifies `answers, `submitted, `channel, `script, `shutdown, `past, `seen, `starved, `worst, `calls
      ensures past + script == old(past + script)
      ensures Valid(rest) && (old(shutdown) ==> shutdown) && old(channel) <= channel
      ensures calls == old(calls) +
        [Call(commands, batch, if old(script) == [] then Rejected(Unavailable) else old(script)[0].stored)]
      ensures seen == |channel| && starved == old(Next())
      ensures worst == if old(shutdown) then old(worst) else Max(old(worst), starved)
      ensures
        if old(script) == [] then script == [] && channel == old(channel) && shutdown
        else |script| < |old(script)|
    {
      hide Ledger.Valid, MergeAll, BatchesOf, Answered, Follows;
      var m := Await(commands + rest);
      ghost var before := Book(commands + rest);
      assert before.waiting[..|commands|] == commands;
      assert before.waiting[|commands|..] == rest + channel;
      FlushIsValid(before, |commands|, batch, m.stored, maxDeltas);
      AnswerAll(commands, m.stored);
      calls := calls + [Call(commands, batch, m.stored)];
      assert Book(rest) == FlushFirst(before, |commands|, batch, m.stored);
    }

    method AnswerAll(commands: seq<Command>, answer: Answer)
      modifies `answers
      ensures answers == Answered(old(answers), commands, answer)
    {
      hide Answered;
      NoneAnswered(answers, answer);
      assert commands[..0] == [];
      for i := 0 to |commands|
        invariant answers == Answered(old(answers), commands[..i], answer)
      {
        AnswerOne(old(answers), commands, i, answer);
        answers := answers[commands[i].id := answer];
      }
      assert commands[..|commands|] == commands;
    }

    method Reject(c: Command, ghost rest: seq<Command>)
      requires Valid([c] + rest)
      modifies `answers
      ensures Valid(rest) && answers == old(answers)[c.id := Rejected(Unavailable)]
    {
      hide Ledger.Valid, RejectFirst;
      ghost var before := Book([c] + rest);
      assert before.waiting == [c] + (rest + channel);
      RejectOne(before, c, rest + channel);
      RejectIsValid(before, 1, maxDeltas);
      answers := answers[c.id := Rejected(Unavailable)];
    }

    method Receive(ghost held: seq<Command>) returns (c: Command)
      requires Valid(held) && channel != []
      modifies `channel
      ensures Valid(held + [c]) && c == old(channel)[0] && channel == old(channel)[1..]
    {
      hide Ledger.Valid;
      c := channel[0];
      assert held + channel == (held + [c]) + channel[1..];
      channel := channel[1..];
    }

    /** The inner loop of `run_writer`: takes commands until shutdown, the deadline or one that does not fit. */
    method Collect(first: Command) returns (commands: seq<Command>, batch: Batch, carry: Option<Command>)
      requires Valid([first]) && !shutdown && Next() <= 1 && worst <= 3
      modifies `answers, `submitted, `channel, `script, `shutdown, `past, `seen, `starved, `worst, `accepting
      ensures past + script == old(past + script)
      ensures Valid(commands + Held(carry)) && [first] <= commands
      ensures batch == MergeAll(BatchesOf(commands)) && |batch.deltas| <= maxDeltas
      ensures carry.Some? ==> |batch.deltas| + |carry.value.batch.deltas| > maxDeltas
      ensures carry.Some? || shutdown || (past != [] && past[|past| - 1].expired)
      ensures worst <= 3 && Next() <= if carry.Some? then 0 else 2
      ensures if old(script) == [] then script == [] && shutdown else |script| < |old(script)|
    {
      hide Ledger.Valid, MergeAll, BatchesOf, Merge, Follows;
      commands, batch, carry := [first], first.batch, None;
      MergeOne(first);
      WaitingFits(Book([first]), maxDeltas);
      hide InOrder;
      ghost var first0 := true;
      while true
        invariant carry.None? && Valid(commands) && [first] <= commands
        invariant batch == MergeAll(BatchesOf(commands)) && |batch.deltas| <= maxDeltas
        invariant !shutdown && |script| <= |old(script)| && past + script == old(past + script)
        invariant worst <= 3 && Next() <= 1
        invariant first0 <==> script == old(script)
        decreases |script|, first0
      {
        var m := Await(commands);
        first0 := false;
        if shutdown {
          accepting := false;
          break;
        }
        if m.expired { break; }
        if channel != [] {
          var c := Receive(commands);
          if |batch.deltas| + |c.batch.deltas| > maxDeltas {
            carry := Some(c);
            break;
          }
          MergeSize(batch, c.batch);
          MergeOneMore(commands, c);
          batch := MergeInto(batch, c.batch);
          commands := commands + [c];
        }
      }
      assert carry.None? ==> commands + Held(carry) == commands;
    }

    method RejectRemaining()
      requires Valid([])
      modifies `answers, `submitted, `channel, `script, `shutdown, `past, `seen, `starved, `worst
      ensures past + script == old(past + script)
      ensures Valid([]) && (old(shutdown) ==> shutdown && worst == old(worst)) && |old(past)| <= |past|
    {
      hide Ledger.Valid;
      while channel != []
        invariant Valid([]) && (old(shutdown) ==> shutdown && worst == old(worst)) && |old(past)| <= |past|
        invariant past + script == old(past + script)
        decreases |script|, |channel|
      {
        var c := Receive([]);
        assert [] + [c] == [c] + [];
        Reject(c, []);
        var _ := Await([]);
      }
    }

    /** A store call of its own for the command, unless the deadline has passed. */
    method StoreAlone(c: Command) returns (stored: bool)
      requires Valid([c]) && shutdown
      modifies `answers, `submitted, `channel, `script, `shutdown, `past, `seen, `starved, `worst, `calls
      ensures past + script == old(past + script) && |old(past)| <= |past|
      ensures worst == old(worst) && shutdown && old(channel) <= channel
      ensures Valid([])
      ensures if old(script) == [] then !stored && script == [] && channel == old(channel) else |script| < |old(script)|
      ensures if stored then |calls| == |old(calls)| + 1 && calls[..|old(calls)|] == old(calls) else calls == old(calls)
      ensures stored ==> calls[|old(calls)|].commands == [c]
      ensures !stored ==> DeadlinePassed(|old(past)|, past, script)
    {
      hide Ledger.Valid, MergeAll, BatchesOf, Follows, DeadlinePassed;
      WaitingFits(Book([c]), maxDeltas);
      MergeOne(c);
      hide InOrder;
      assert [c] + [] == [c];
      var m := Await([c]);
      if m.expired {
        NowPassed(|old(past)|, past, script);
        Reject(c, []);
        return false;
      }
      Flush([c], c.batch, []);
      return true;
    }

    /** One store call for each command left, in order, until the drain deadline; the rest are refused. */
    method Drain() returns (ghost drained: seq<Command>)
      requires Valid([]) && shutdown
      modifies `answers, `submitted, `channel, `script, `shutdown, `past, `seen, `starved, `worst, `calls
      ensures past + script == old(past + script) && worst == old(worst)
      ensures Valid([]) && shutdown
      ensures OneCallEach(old(calls), calls, drained) && (drained <= old(channel) || old(channel) <= drained)
      ensures |drained| < |old(channel)| ==> DeadlinePassed(|old(past)|, past, script)
    {
      hide InOrder, Follows, OneCallEach, DeadlinePassed;
      drained := [];
      NoCallYet(calls);
      while channel != []
        invariant Valid([]) && shutdown && worst == old(worst) && |old(past)| <= |past|
        invariant past + script == old(past + script)
        invariant OneCallEach(old(calls), calls, drained) && old(channel) <= drained + channel
        decreases |script|, |channel|
      {
        ghost var before, start := calls, |past|;
        var c := Receive([]);
        assert [] + [c] == [c];
        assert old(channel) <= (drained + [c]) + channel;
        var stored := StoreAlone(c);
        if !stored {
          ghost var at, rest := past, script;
          RejectRemaining();
          StillPassed(start, at, rest, past, script);
          PassedEarlier(start, |old(past)|, past, script);
          return;
        }
        CallMore(old(calls), before, calls, drained, c);
        drained := drained + [c];
      }
    }

    /** The receiver is dropped, and with it whatever is still queued. */
    method Close()
      requires Valid([])
      modifies `answers, `channel, `open
      ensures Valid([]) && channel == [] && !open
    {
      hide Ledger.Valid;
      open := false;
      while channel != []
        invariant Valid([]) && !open
        decreases |channel|
      {
        var c := Receive([]);
        assert [] + [c] == [c] + [];
        Reject(c, []);
      }
    }

    /** The outer loop of `run_writer`, which ends with nothing held. */
    method Batches()
      requires Valid([]) && !shutdown && seen == 0 && worst == 0
      modifies `answers, `submitted, `channel, `script, `shutdown, `past, `seen, `starved, `worst, `calls, `accepting
      ensures past + script == old(past + script)
      ensures Valid([]) && shutdown && worst <= 3
    {
      hide InOrder, MergeAll, BatchesOf, Follows;
      var carry: Option<Command> := None;
      while true
        invariant Valid(Held(carry)) && past + script == old(past + script) && !shutdown
        invariant worst <= 3 && Next() <= if carry.Some? then 1 else 3
        decreases |script|
      {
        var first;
        if carry.Some? {
          first := carry.value;
        } else {
          var _ := Await([]);
          if shutdown {
            accepting := false;
            return;
          }
          if channel == [] { continue; }
          first := Receive([]);
          assert [] + [first] == [first];
        }
        var commands, batch;
        commands, batch, carry := Collect(first);
        Flush(commands, batch, Held(carry));
        if shutdown {
          RejectCarry(carry);
          return;
        }
      }
    }

    method RejectCarry(carry: Option<Command>)
      requires Valid(Held(carry))
      modifies `answers
      ensures Valid([])
    {
      if carry.Some? {
        assert [carry.value] + [] == [carry.value];
        Reject(carry.value, []);
      }
    }

    /** `run_writer`, whatever the script. Nobody is left waiting; before shutdown no more than three waits in a row
        pass over a queue that is not empty; and what shutdown finds queued is stored, call by call, until the
        deadline. */
    method Run() returns (ghost left: seq<Command>, ghost drained: seq<Command>)
      requires Valid([]) && !shutdown && seen == 0 && worst == 0
      modifies this
      ensures past + script == old(past + script)
      ensures Valid([]) && channel == [] && !open && shutdown && worst <= 3
      ensures |drained| <= |calls| && OneCallEach(calls[..|calls| - |drained|], calls, drained)
      ensures drained <= left || left <= drained
      ensures |drained| < |left| ==> DeadlinePassed(0, past, script)
    {
      hide OneCallEach, DeadlinePassed, InOrder, Follows;
      Batches();
      left := channel;
      ghost var before, at := calls, |past|;
      drained := Drain();
      CallsBefore(before, calls, drained);
      if |drained| < |left| { PassedEarlier(at, 0, past, script); }
      Close();
    }
  }

  /** A whole life of the writer, whatever its script: nobody is left without an answer, no batch is in two
      store calls, success is told exactly where it is due, and the store has the merge of what was accepted. */
  method Serve(capacity: nat, maxDeltas: nat, script: seq<Moment>)
    returns (submitted: seq<Batch>, answers: map<nat, Answer>, ghost calls: seq<Call>)
    ensures exists k :: 0 <= k <= |script| && submitted == Submissions(script[..k])
                        && (k == |script| || Cancelled(script[..k]))
    ensures forall id: nat :: id < |submitted| <==> id in answers
    ensures forall id: nat :: id in answers ==>
      (answers[id].Accepted? <==> |submitted[id].deltas| == 0 || Stored(calls, id))
    ensures Ascending(CommandsOf(calls), |submitted|) && Own(CommandsOf(calls), submitted)
    ensures forall i :: 0 <= i < |calls| ==> |calls[i].batch.deltas| <= maxDeltas
    ensures forall bins: nat :: AllValid(submitted, bins) ==>
      && Totals(MergeAll(CallBatches(StoredCalls(calls))), AcceptedBatches(submitted, answers, |submitted|))
      && forall i :: 0 <= i < |calls| ==> Totals(calls[i].batch, BatchesOf(calls[i].commands))
  {
    var writer := new Writer(capacity, maxDeltas, script);
    assert writer.past + writer.script == script;
    ghost var left, drained := writer.Run();
    submitted, answers, calls := writer.submitted, writer.answers, writer.calls;
    assert writer.past == script[..|writer.past|];
    ghost var book := writer.Book([]);
    assert book.waiting == [];
    EveryCallerIsAnsweredOnce(book, maxDeltas);
    forall bins: nat | AllValid(submitted, bins)
      ensures Totals(MergeAll(CallBatches(StoredCalls(calls))), AcceptedBatches(submitted, answers, |submitted|))
      ensures forall i :: 0 <= i < |calls| ==> Totals(calls[i].batch, BatchesOf(calls[i].commands))
    {
      StoreTotals(book, maxDeltas, bins);
    }
  }
}
