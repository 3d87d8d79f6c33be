/** The bounded body reader: chunks under a byte limit, an idle limit and a deadline. */
module BoundedBody {
  import opened Wrappers

  const IDLE_MILLIS := 1_000

  type Byte = x: int | 0 <= x < 256
  type Chunk = seq<Byte>

  /** What a read of the stream resolves to, and after how long; a stream with no more events never resolves. */
  datatype Event = Data(chunk: Chunk, wait: nat) | End(wait: nat) | Broken(wait: nat)

  /** The content-length header: absent, not a number, or a number. */
  datatype Declared = Undeclared | Unreadable | Length(bytes: nat)
  datatype OverLimit = Drain | CancelAtOnce

  datatype Refusal = DeclaredLength | MissingBody | TooLarge | TimedOut
  datatype Outcome = Body(bytes: seq<Byte>) | Refused(refusal: Refusal) | StreamFailed

  // ---------- the stream as it arrives, without any size limit ----------

  datatype Stop = Ended | Failed | Stalled

  /** The chunks that arrive in time, and why there are no more. */
  datatype Log = Log(chunks: seq<Chunk>, stop: Stop)

  /** A read that takes `wait` starting at `elapsed` comes in time. */
  predicate InTime(wait: nat, elapsed: nat, deadline: nat) {
    elapsed < deadline && wait < IDLE_MILLIS && wait < deadline - elapsed
  }

  function Arrivals(events: seq<Event>, elapsed: nat, deadline: nat): Log
    decreases |events|
  {
    if events == [] || !InTime(events[0].wait, elapsed, deadline) then Log([], Stalled)
    else
      match events[0]
      case End(_) => Log([], Ended)
      case Broken(_) => Log([], Failed)
      case Data(chunk, wait) =>
        var rest := Arrivals(events[1..], elapsed + wait, deadline);
        Log([chunk] + rest.chunks, rest.stop)
  }

  function Flat(chunks: seq<Chunk>): seq<Byte>
    decreases |chunks|
  {
    if chunks == [] then [] else chunks[0] + Flat(chunks[1..])
  }

  lemma {:induction false} FlatAppend(a: seq<Chunk>, b: seq<Chunk>)
    ensures Flat(a + b) == Flat(a) + Flat(b)
    decreases |a|
  {
    if a == [] {
      assert a + b == b;
    } else {
      assert (a + b)[1..] == a[1..] + b;
      FlatAppend(a[1..], b);
    }
  }

  /** The outcome a reader owes: the exact bytes if they end in time within the limit, too-large whenever they cross it. */
  function Owed(log: Log, maxBytes: nat): Outcome {
    if |Flat(log.chunks)| > maxBytes then Refused(TooLarge)
    else match log.stop
      case Ended => Body(Flat(log.chunks))
      case Failed => StreamFailed
      case Stalled => Refused(TimedOut)
  }

  function OwedFor(declared: Declared, body: Option<seq<Event>>, maxBytes: nat, deadline: nat): Outcome {
    if declared.Unreadable? || (declared.Length? && declared.bytes > maxBytes) then Refused(DeclaredLength)
    else if body.None? then Refused(MissingBody)
    else Owed(Arrivals(body.value, 0, deadline), maxBytes)
  }

  // ---------- the reader ----------

  /** The reader so far: chunks kept, bytes counted, and whether the limit was crossed. */
  ghost predicate ReaderState(chunks: seq<Chunk>, total: nat, oversize: bool, seen: seq<Chunk>, maxBytes: nat) {
    && total == |Flat(seen)|
    && (oversize <==> total > maxBytes)
    && chunks == (if oversize then [] else seen)
  }

  lemma EmptyIsFlat()
    ensures Flat([]) == []
  {
  }

  lemma OneMoreChunk(seen: seq<Chunk>, chunk: Chunk)
    ensures |Flat(seen + [chunk])| == |Flat(seen)| + |chunk|
  {
    FlatAppend(seen, [chunk]);
    assert Flat([chunk]) == chunk + [];
  }

  /** What is owed once `seen` has been read and `events` are still to come. */
  function OwedAfter(seen: seq<Chunk>, events: seq<Event>, elapsed: nat, deadline: nat, maxBytes: nat): Outcome {
    var rest := Arrivals(events, elapsed, deadline);
    Owed(Log(seen + rest.chunks, rest.stop), maxBytes)
  }

  lemma NothingSeen(events: seq<Event>, deadline: nat, maxBytes: nat)
    ensures OwedAfter([], events, 0, deadline, maxBytes) == Owed(Arrivals(events, 0, deadline), maxBytes)
  {
    assert [] + Arrivals(events, 0, deadline).chunks == Arrivals(events, 0, deadline).chunks;
  }

  /** When the stream stops, the answer is decided by what was seen. */
  lemma StopDecides(seen: seq<Chunk>, events: seq<Event>, elapsed: nat, deadline: nat, maxBytes: nat)
    requires events == [] || !InTime(events[0].wait, elapsed, deadline) || !events[0].Data?
    ensures OwedAfter(seen, events, elapsed, deadline, maxBytes) ==
              if |Flat(seen)| > maxBytes then Refused(TooLarge)
              else if events == [] || !InTime(events[0].wait, elapsed, deadline) then Refused(TimedOut)
              else if events[0].Broken? then StreamFailed
              else Body(Flat(seen))
  {
    assert seen + [] == seen;
  }

  lemma ChunkMovesOver(seen: seq<Chunk>, events: seq<Event>, elapsed: nat, deadline: nat, maxBytes: nat)
    requires events != [] && InTime(events[0].wait, elapsed, deadline) && events[0].Data?
    ensures OwedAfter(seen, events, elapsed, deadline, maxBytes) ==
            OwedAfter(seen + [events[0].chunk], events[1..], elapsed + events[0].wait, deadline, maxBytes)
  {
    var rest := Arrivals(events[1..], elapsed + events[0].wait, deadline);
    assert seen + ([events[0].chunk] + rest.chunks) == (seen + [events[0].chunk]) + rest.chunks;
  }

  /** Bytes already over the limit stay over it, whatever else arrives. */
  lemma CrossingIsFinal(seen: seq<Chunk>, events: seq<Event>, elapsed: nat, deadline: nat, maxBytes: nat)
    requires |Flat(seen)| > maxBytes
    ensures OwedAfter(seen, events, elapsed, deadline, maxBytes) == Refused(TooLarge)
  {
    FlatAppend(seen, Arrivals(events, elapsed, deadline).chunks);
  }

  /**
   Reads a body.  `peak` is the most bytes the reader ever retained.  Once the limit is crossed the answer is too-large,
   also when the drain then stalls or breaks, and also when the stream is cancelled at once.
   */
  method ReadBoundedBody(declared: Declared, body: Option<seq<Event>>, maxBytes: nat, deadline: nat, overLimit: OverLimit)
    returns (outcome: Outcome, ghost peak: nat)
    ensures outcome == OwedFor(declared, body, maxBytes, deadline)
    ensures peak <= maxBytes
  {
    peak := 0;
    if declared.Unreadable? || (declared.Length? && declared.bytes > maxBytes) { return Refused(DeclaredLength), peak; }
    if body.None? { return Refused(MissingBody), peak; }
    var events := body.value;
    var chunks: seq<Chunk>, total: nat, oversize, elapsed: nat, i := [], 0, false, 0, 0;
    ghost var seen: seq<Chunk> := [];
    NothingSeen(events, deadline, maxBytes);
    assert events[0..] == events;
    ghost var owed := Owed(Arrivals(events, 0, deadline), maxBytes);
    hide Arrivals, Owed, OwedAfter, InTime;
    while i < |events|
      invariant i <= |events| && |Flat(chunks)| <= peak <= maxBytes && ReaderState(chunks, total, oversize, seen, maxBytes)
      invariant owed == OwedAfter(seen, events[i..], elapsed, deadline, maxBytes)
    {
      hide Flat;
      ghost var rest := events[i..];
      assert rest[0] == events[i] && rest[1..] == events[i + 1..];
      if !InTime(events[i].wait, elapsed, deadline) {
        StopDecides(seen, rest, elapsed, deadline, maxBytes);
        return if oversize then Refused(TooLarge) else Refused(TimedOut), peak;
      }
      match events[i] {
        case Broken(_) =>
          StopDecides(seen, rest, elapsed, deadline, maxBytes);
          return if oversize then Refused(TooLarge) else StreamFailed, peak;
        case End(_) =>
          StopDecides(seen, rest, elapsed, deadline, maxBytes);
          if oversize { return Refused(TooLarge), peak; }
          var bytes := Assemble(chunks, total);
          return Body(bytes), peak;
        case Data(chunk, wait) =>
          OneMoreChunk(seen, chunk);
          ChunkMovesOver(seen, rest, elapsed, deadline, maxBytes);
          total := total + |chunk|;
          seen := seen + [chunk];
          elapsed := elapsed + wait;
          if total > maxBytes {
            if !oversize { oversize, chunks := true, []; }
            EmptyIsFlat();
            if overLimit == CancelAtOnce {
              CrossingIsFinal(seen, rest[1..], elapsed, deadline, maxBytes);
              return Refused(TooLarge), peak;
            }
          } else {
            chunks := chunks + [chunk];
            peak := total;
          }
      }
      i := i + 1;
    }
    StopDecides(seen, events[i..], elapsed, deadline, maxBytes);
    return if oversize then Refused(TooLarge) else Refused(TimedOut), peak;
  }

  /** `new Uint8Array(total)`, then each chunk copied in at its offset. */
  method Assemble(chunks: seq<Chunk>, total: nat) returns (bytes: seq<Byte>)
    requires total == |Flat(chunks)|
    ensures bytes == Flat(chunks)
  {
    var buffer := new Byte[total];
    var offset, i := 0, 0;
    assert chunks[..0] == [];
    while i < |chunks|
      invariant i <= |chunks| && offset == |Flat(chunks[..i])| <= total
      invariant buffer[..offset] == Flat(chunks[..i])
    {
      FlatPrefix(chunks, i);
      var j := 0;
      while j < |chunks[i]|
        invariant 0 <= j <= |chunks[i]| && offset + |chunks[i]| <= total
        invariant buffer[..offset] == Flat(chunks[..i])
        invariant forall k | 0 <= k < j :: buffer[offset + k] == chunks[i][k]
      {
        buffer[offset + j] := chunks[i][j];
        j := j + 1;
      }
      assert buffer[..offset + |chunks[i]|] == buffer[..offset] + chunks[i];
      offset := offset + |chunks[i]|;
      i := i + 1;
    }
    assert chunks[..i] == chunks;
    return buffer[..];
  }

  lemma FlatPrefix(chunks: seq<Chunk>, i: nat)
    requires i < |chunks|
    ensures Flat(chunks[..i + 1]) == Flat(chunks[..i]) + chunks[i]
    ensures |Flat(chunks[..i + 1])| <= |Flat(chunks)|
  {
    assert chunks[..i + 1] == chunks[..i] + [chunks[i]];
    FlatAppend(chunks[..i], [chunks[i]]);
    assert Flat([chunks[i]]) == chunks[i] + [];
    assert chunks == chunks[..i + 1] + chunks[i + 1..];
    FlatAppend(chunks[..i + 1], chunks[i + 1..]);
  }

  // ---------- what the answer means ----------

  /** Success is exactly: declared within the limit, every chunk and the end in time, and at most the limit in all. */
  lemma SuccessIsTheWholeBody(declared: Declared, body: Option<seq<Event>>, maxBytes: nat, deadline: nat)
    ensures var outcome := OwedFor(declared, body, maxBytes, deadline);
            outcome.Body? <==>
              !declared.Unreadable? && (declared.Length? ==> declared.bytes <= maxBytes) && body.Some? &&
              Arrivals(body.value, 0, deadline).stop == Ended && |Flat(Arrivals(body.value, 0, deadline).chunks)| <= maxBytes
    ensures var outcome := OwedFor(declared, body, maxBytes, deadline);
            outcome.Body? ==> outcome.bytes == Flat(Arrivals(body.value, 0, deadline).chunks) && |outcome.bytes| <= maxBytes
  {
  }

  /** A stream whose first chunks cross the limit in time is too large, whatever follows them. */
  lemma {:induction false} CrossingDecides(crossing: seq<Event>, more: seq<Event>, elapsed: nat, deadline: nat, maxBytes: nat)
    requires |Flat(Arrivals(crossing, elapsed, deadline).chunks)| > maxBytes
    ensures Owed(Arrivals(crossing + more, elapsed, deadline), maxBytes) == Refused(TooLarge)
  {
    PrefixArrives(crossing, more, elapsed, deadline);
    var a, b := Arrivals(crossing, elapsed, deadline).chunks, Arrivals(crossing + more, elapsed, deadline).chunks;
    assert b == a + b[|a|..];
    FlatAppend(a, b[|a|..]);
  }

  lemma {:induction false} PrefixArrives(first: seq<Event>, more: seq<Event>, elapsed: nat, deadline: nat)
    ensures Arrivals(first, elapsed, deadline).chunks <= Arrivals(first + more, elapsed, deadline).chunks
    decreases |first|
  {
    if first != [] && InTime(first[0].wait, elapsed, deadline) && first[0].Data? {
      assert (first + more)[0] == first[0] && (first + more)[1..] == first[1..] + more;
      PrefixArrives(first[1..], more, elapsed + first[0].wait, deadline);
    }
  }

  // ---------- success, event by event ----------

  function Waited(events: seq<Event>): nat
    decreases |events|
  {
    if events == [] then 0 else events[0].wait + Waited(events[1..])
  }

  /** The bytes of the chunks before the first event that is no chunk, and where that event is. */
  function Delivered(events: seq<Event>): seq<Byte>
    decreases |events|
  {
    if events == [] || !events[0].Data? then [] else events[0].chunk + Delivered(events[1..])
  }

  function FirstStop(events: seq<Event>): (n: nat)
    ensures n <= |events| && (n < |events| ==> !events[n].Data?) && forall i | 0 <= i < n :: events[i].Data?
    decreases |events|
  {
    if events == [] || !events[0].Data? then 0 else FirstStop(events[1..]) + 1
  }

  /** The stream ends, each read up to its end takes less than a second, and all of them together less than the deadline. */
  ghost predicate EndsInTime(events: seq<Event>, deadline: int) {
    var n := FirstStop(events);
    && n < |events| && events[n].End? && Waited(events[..n + 1]) < deadline
    && forall i | 0 <= i <= n :: events[i].wait < 1_000
  }

  lemma {:induction false} ArrivalsEndInTime(events: seq<Event>, elapsed: nat, deadline: nat)
    ensures Arrivals(events, elapsed, deadline).stop == Ended <==> EndsInTime(events, deadline - elapsed)
    ensures EndsInTime(events, deadline - elapsed) ==> Flat(Arrivals(events, elapsed, deadline).chunks) == Delivered(events)
    decreases |events|
  {
    if events != [] {
      var n := FirstStop(events);
      if events[0].Data? {
        var wait := events[0].wait;
        ArrivalsEndInTime(events[1..], elapsed + wait, deadline);
        if n < |events| {
          assert events[..n + 1][1..] == events[1..][..n];
          assert Waited(events[..n + 1]) == wait + Waited(events[1..][..n]);
          assert EndsInTime(events, deadline - elapsed) <==> InTime(wait, elapsed, deadline) && EndsInTime(events[1..], deadline - elapsed - wait) by {
            SplitsInTime(events, deadline - elapsed);
          }
        }
      } else {
        assert events[..1] == [events[0]] && Waited([events[0]]) == events[0].wait;
      }
    }
  }

  lemma SplitsInTime(events: seq<Event>, deadline: int)
    requires events != [] && events[0].Data? && FirstStop(events) < |events|
    ensures EndsInTime(events, deadline) <==> events[0].wait < 1_000 && EndsInTime(events[1..], deadline - events[0].wait)
  {
    var n := FirstStop(events);
    assert events[..n + 1][1..] == events[1..][..n];
    assert forall i | 1 <= i <= n :: events[i] == events[1..][i - 1];
    assert forall i | 0 <= i <= n - 1 :: events[1..][i] == events[i + 1];
  }

  /**
   A body is returned exactly when its declared length is absent or within the limit, the stream ends with every read under
   a second and all of them within the deadline, and its bytes are within the limit; and then it is exactly those bytes.
   */
  lemma SuccessEventByEvent(declared: Declared, body: Option<seq<Event>>, maxBytes: nat, deadline: nat)
    ensures var outcome := OwedFor(declared, body, maxBytes, deadline);
            && (outcome.Body? <==>
                  && (declared == Undeclared || (declared.Length? && declared.bytes <= maxBytes))
                  && body.Some? && EndsInTime(body.value, deadline) && |Delivered(body.value)| <= maxBytes)
            && (outcome.Body? ==> outcome.bytes == Delivered(body.value))
  {
    if body.Some? { ArrivalsEndInTime(body.value, 0, deadline); }
    hide Arrivals, Flat, EndsInTime, Delivered;
  }
}
