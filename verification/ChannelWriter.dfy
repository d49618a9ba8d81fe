/** The chunking writer behind an incident capsule download (`incident_capsule.rs`).

    Whenever the writer looks outside, an arbitrary moment may have cancelled the generation, passed its
    deadline, closed the receiver or filled the channel. The first three last; after the last moment the
    deadline has passed. */
module ChannelWriter {

  type Bytes = seq<bv8>

  datatype Error = Interrupted | TimedOut | BrokenPipe

  datatype Result<+T> = Ok(value: T) | Err(error: Error)

  datatype Moment = Moment(cancels: bool, expires: bool, closes: bool, full: bool)

  datatype Call = Write(bytes: Bytes) | Flush

  function Concat(chunks: seq<Bytes>): Bytes {
    if chunks == [] then [] else Concat(chunks[..|chunks| - 1]) + chunks[|chunks| - 1]
  }

  lemma ConcatMore(chunks: seq<Bytes>, chunk: Bytes)
    ensures Concat(chunks + [chunk]) == Concat(chunks) + chunk
  {
    assert (chunks + [chunk])[..|chunks|] == chunks;
  }

  /** Everything the calls pass to `write`. */
  function Input(calls: seq<Call>): Bytes {
    if calls == [] then []
    else
      var last := calls[|calls| - 1];
      Input(calls[..|calls| - 1]) + if last.Write? then last.bytes else []
  }

  lemma InputMore(calls: seq<Call>, n: nat)
    requires n < |calls|
    ensures Input(calls[..n + 1]) == Input(calls[..n]) + if calls[n].Write? then calls[n].bytes else []
  {
    assert calls[..n + 1][..n] == calls[..n];
  }

  lemma {:induction false} InputLength(calls: seq<Call>, n: nat)
    requires n <= |calls|
    ensures |Input(calls[..n])| <= |Input(calls)|
    decreases |calls| - n
  {
    if n == |calls| {
      assert calls[..n] == calls;
    } else {
      InputMore(calls, n);
      InputLength(calls, n + 1);
    }
  }

  /** Chunks of the chunk size; the ones a flush cut short, if there was one, are smaller. */
  ghost predicate Chunked(sent: seq<Bytes>, chunkBytes: nat, cut: bool) {
    && (forall i :: 0 <= i < |sent| ==> 0 < |sent[i]| <= chunkBytes)
    && (!cut ==> forall i :: 0 <= i < |sent| ==> |sent[i]| == chunkBytes)
  }

  /** Delivered and buffered bytes are the written ones. */
  ghost predicate Adds(sent: seq<Bytes>, buffer: Bytes, written: Bytes) { Concat(sent) + buffer == written }

  ghost predicate Begins(sent: seq<Bytes>, written: Bytes) { Concat(sent) <= written }

  lemma Append(sent: seq<Bytes>, buffer: Bytes, written: Bytes, more: Bytes)
    ensures Adds(sent, buffer, written) ==> Adds(sent, buffer + more, written + more)
    ensures Begins(sent, written) ==> Begins(sent, written + more)
  {
    assert (Concat(sent) + buffer) + more == Concat(sent) + (buffer + more);
  }

  lemma Sending(sent: seq<Bytes>, buffer: Bytes, written: Bytes)
    requires Adds(sent, buffer, written)
    ensures Adds(sent + [buffer], [], written) && Begins(sent + [buffer], written)
  {
    ConcatMore(sent, buffer);
    assert Concat(sent + [buffer]) + [] == Concat(sent + [buffer]);
  }

  /** Nothing is in the way of a send. */
  ghost predicate Smooth(script: seq<Moment>) {
    forall i :: 0 <= i < |script| ==> script[i] == Moment(false, false, false, false)
  }

  lemma LengthMore(chunks: seq<Bytes>, chunk: Bytes)
    ensures |Concat(chunks + [chunk])| == |Concat(chunks)| + |chunk|
  {
    ConcatMore(chunks, chunk);
  }

  class Writer {
    const chunkBytes: nat
    var buffer: Bytes
    var sent: seq<Bytes>
    var cancelled: bool
    var expired: bool
    var closed: bool
    var script: seq<Moment>

    constructor (chunkBytes: nat, script: seq<Moment>)
      requires chunkBytes > 0
      ensures this.chunkBytes == chunkBytes && this.script == script && buffer == [] && sent == [] && !Broken()
      ensures Valid([], false)
    {
      this.chunkBytes, this.script, buffer, sent := chunkBytes, script, [], [];
      cancelled, expired, closed := false, false, false;
    }

    /** No further send can succeed. */
    predicate Broken()
      reads this
    {
      cancelled || expired || closed
    }

    /** What was delivered is a prefix of what was written; while every call succeeded the rest is buffered. */
    ghost predicate Valid(written: Bytes, cut: bool)
      reads this
    {
      && chunkBytes > 0 && |buffer| <= chunkBytes && Chunked(sent, chunkBytes, cut)
      && Begins(sent, written)
    }

    ghost predicate Complete(written: Bytes)
      reads this
    {
      Adds(sent, buffer, written)
    }

    /** There are moments enough, and smooth ones, to send what is not delivered yet of `n` bytes, chunk by chunk. */
    ghost predicate Ample(n: nat)
      reads this
    {
      !Broken() && Smooth(script) && |script| + 2 * |Concat(sent)| >= 2 * n
    }

    method Look() returns (full: bool)
      modifies `cancelled, `expired, `closed, `script
      ensures old(Broken()) ==> Broken()
      ensures if old(script) == [] then script == [] && expired else script == old(script)[1..]
      ensures old(script) != [] ==>
        var m := old(script)[0];
        && full == m.full && cancelled == (old(cancelled) || m.cancels)
        && expired == (old(expired) || m.expires) && closed == (old(closed) || m.closes)
    {
      if script == [] {
        expired, full := true, true;
      } else {
        cancelled, expired := cancelled || script[0].cancels, expired || script[0].expires;
        closed := closed || script[0].closes;
        full := script[0].full;
        script := script[1..];
      }
    }

    /** Sends the whole buffer as one chunk, or nothing at all and never anything afterwards. */
    method SendBuffer() returns (r: Result<()>)
      modifies `buffer, `sent, `cancelled, `expired, `closed, `script
      ensures old(Broken()) ==> Broken()
      ensures r.Ok? ==> buffer == [] && sent == if old(buffer) == [] then old(sent) else old(sent) + [old(buffer)]
      ensures r.Err? ==> Broken() && sent == old(sent) && (buffer == [] || buffer == old(buffer))
      ensures old(Broken()) && old(buffer) != [] ==> r.Err?
      ensures |script| <= |old(script)|
      ensures !old(Broken()) && Smooth(old(script)) && (|old(script)| >= 2 || old(buffer) == []) ==>
        r.Ok? && !Broken() && Smooth(script) && |script| >= |old(script)| - if old(buffer) == [] then 0 else 2
    {
      if buffer == [] { return Ok(()); }
      var full := Look();
      if cancelled { return Err(Interrupted); }
      var message := buffer;
      buffer := [];
      while true
        invariant sent == old(sent) && buffer == [] && (old(Broken()) ==> Broken()) && |script| <= |old(script)|
        invariant !old(Broken()) && Smooth(old(script)) && |old(script)| >= 2 ==>
          !Broken() && Smooth(script) && |script| == |old(script)| - 1
        decreases |script|, !expired
      {
        full := Look();
        if cancelled { return Err(Interrupted); }
        if expired { return Err(TimedOut); }
        if closed { return Err(BrokenPipe); }
        if !full {
          sent := sent + [message];
          return Ok(());
        }
      }
    }

    /** Nothing delivered is ever out of order: a lost buffer is the end of it. */
    method Deliver(ghost written: Bytes, ghost cut: bool, ghost n: nat) returns (r: Result<()>)
      requires Valid(written, cut) && (Complete(written) || Broken())
      requires cut || buffer == [] || |buffer| == chunkBytes
      modifies `buffer, `sent, `cancelled, `expired, `closed, `script
      ensures Valid(written, cut) && (old(Broken()) ==> Broken() && sent == old(sent))
      ensures r.Err? ==> Broken()
      ensures r.Ok? ==> buffer == [] && (old(Complete(written)) ==> Complete(written))
      ensures old(Ample(n) && Complete(written)) && |written| <= n ==> r.Ok? && Ample(n)
    {
      if Complete(written) {
        Sending(sent, buffer, written);
        assert |Concat(sent)| + |buffer| == |written|;
      }
      LengthMore(sent, buffer);
      hide Adds, Begins, Concat, Smooth;
      r := SendBuffer();
    }

    method WriteAll(bytes: Bytes, ghost written: Bytes, ghost cut: bool, ghost n: nat) returns (r: Result<nat>)
      requires Valid(written, cut) && (Complete(written) || Broken())
      modifies `buffer, `sent, `cancelled, `expired, `closed, `script
      ensures Valid(written + bytes, cut) && (old(Broken()) ==> Broken() && sent == old(sent))
      ensures r.Err? ==> Broken()
      ensures r.Ok? ==> r.value == |bytes| && (old(Complete(written)) ==> Complete(written + bytes))
      ensures old(Ample(n) && Complete(written)) && |written + bytes| <= n ==> r.Ok? && Ample(n)
    {
      hide Adds, Begins, Chunked, Concat, Smooth;
      ghost var easy := Ample(n) && Complete(written) && |written + bytes| <= n;
      var rest := bytes;
      ghost var taken: Bytes := [];
      assert written + [] == written;
      while rest != []
        invariant taken + rest == bytes && Valid(written + taken, cut)
        invariant (old(Complete(written)) ==> Complete(written + taken))
        invariant (old(Broken()) ==> Broken() && sent == old(sent))
        invariant Complete(written + taken) || Broken()
        invariant easy ==> Ample(n)
        decreases |rest|, |buffer|
      {
        var available := chunkBytes - |buffer|;
        var take := if available < |rest| then available else |rest|;
        Append(sent, buffer, written + taken, rest[..take]);
        assert (written + taken) + rest[..take] == written + (taken + rest[..take]);
        buffer := buffer + rest[..take];
        taken, rest := taken + rest[..take], rest[take..];
        if |buffer| == chunkBytes {
          var sending := Deliver(written + taken, cut, n);
          if sending.Err? {
            assert written + bytes == (written + taken) + rest;
            Append(sent, buffer, written + taken, rest);
            return Err(sending.error);
          }
        }
      }
      assert taken == bytes;
      return Ok(|bytes|);
    }

    /** `finish`: all that is left goes out as a last chunk, which alone may be short. */
    method Finish(ghost written: Bytes, ghost cut: bool, ghost n: nat) returns (r: Result<()>)
      requires Valid(written, cut) && (Complete(written) || Broken())
      modifies `buffer, `sent, `cancelled, `expired, `closed, `script
      ensures Valid(written, true) && (r.Ok? && old(Complete(written)) ==> Complete(written) && buffer == [])
      ensures old(Broken()) ==> sent == old(sent)
      ensures !cut && sent != [] ==> Chunked(sent[..|sent| - 1], chunkBytes, false)
      ensures old(Ample(n) && Complete(written)) && |written| <= n ==> r.Ok?
    {
      if Complete(written) {
        Sending(sent, buffer, written);
        assert |Concat(sent)| + |buffer| == |written|;
      }
      hide Adds, Begins, Concat, Smooth;
      r := SendBuffer();
      if r.Ok? && sent == old(sent) + [old(buffer)] { assert sent[..|sent| - 1] == old(sent); }
    }
  }

  /** Any sequence of writes and flushes, going on after errors too, and a finish: what the receiver got is a
      prefix of what was written, and all of it if every call succeeded. */
  method Stream(chunkBytes: nat, script: seq<Moment>, calls: seq<Call>) returns (sent: seq<Bytes>, ok: bool)
    requires chunkBytes > 0
    ensures Concat(sent) <= Input(calls) && (ok ==> Concat(sent) == Input(calls))
    ensures Smooth(script) && |script| >= 2 * |Input(calls)| ==> ok
    ensures forall i :: 0 <= i < |sent| ==> 0 < |sent[i]| <= chunkBytes
    ensures Flush !in calls ==> forall i :: 0 <= i < |sent| - 1 ==> |sent[i]| == chunkBytes
  {
    var writer := new Writer(chunkBytes, script);
    ghost var cut := false;
    ok := true;
    assert calls[..0] == [];
    for n := 0 to |calls|
      invariant fresh(writer) && writer.chunkBytes == chunkBytes
      invariant writer.Valid(Input(calls[..n]), cut) && (writer.Complete(Input(calls[..n])) || writer.Broken())
      invariant (ok ==> writer.Complete(Input(calls[..n]))) && (cut ==> Flush in calls)
      invariant Smooth(script) && |script| >= 2 * |Input(calls)| ==> ok && writer.Ample(|Input(calls)|)
    {
      InputMore(calls, n);
      InputLength(calls, n + 1);
      match calls[n]
      case Write(bytes) =>
        var r := writer.WriteAll(bytes, Input(calls[..n]), cut, |Input(calls)|);
        ok := ok && r.Ok?;
      case Flush =>
        cut := true;
        var r := writer.Deliver(Input(calls[..n]), cut, |Input(calls)|);
        ok := ok && r.Ok?;
    }
    assert calls[..|calls|] == calls;
    var r := writer.Finish(Input(calls), cut, |Input(calls)|);
    sent, ok := writer.sent, ok && r.Ok?;
    assert Concat(sent) + [] == Concat(sent);
    if !cut && sent != [] {
      assert forall i :: 0 <= i < |sent| - 1 ==> sent[i] == sent[..|sent| - 1][i];
    }
  }
}
