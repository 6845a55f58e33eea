/**
 Chunked termination with retries.  The cloud API is a parameter: `api(k)` is the answer to the
 k-th call.
 */
module TerminateInstances {
  import opened Basics

  const CHUNK: nat := 1000
  const MAX_RETRIES: nat := 5

  datatype Answer = Accepted | ClientError(code: string)

  datatype Result = Finished | Raised(code: string)

  /** One call: which instances, and what came back. */
  datatype Call = Call(ids: seq<string>, answer: Answer)

  predicate IsRetryable(code: string) {
    code == "RequestLimitExceeded"
  }

  /** The answer counts as success. */
  predicate Succeeds(dryRun: bool, a: Answer) {
    a.Accepted? || (dryRun && a.code == "DryRunOperation")
  }

  function Flatten(chunks: seq<seq<string>>): seq<string> {
    if chunks == [] then [] else Flatten(chunks[..|chunks| - 1]) + chunks[|chunks| - 1]
  }

  /** The API took the call: it accepted it, or said of a dry run that it would have. */
  predicate Took(dryRun: bool, call: Call) {
    call.answer == Accepted || (dryRun && call.answer == ClientError("DryRunOperation"))
  }

  /** The API was throttling. */
  predicate Throttled(call: Call) {
    call.answer == ClientError("RequestLimitExceeded")
  }

  /** The chunks whose call succeeded, in the order of the calls. */
  function AcceptedIn(dryRun: bool, log: seq<Call>): seq<seq<string>> {
    if log == [] then []
    else AcceptedIn(dryRun, log[..|log| - 1]) + if Took(dryRun, log[|log| - 1]) then [log[|log| - 1].ids] else []
  }

  lemma {:induction false} AcceptedAppend(dryRun: bool, log: seq<Call>, calls: seq<Call>)
    ensures AcceptedIn(dryRun, log + calls) == AcceptedIn(dryRun, log) + AcceptedIn(dryRun, calls)
  {
    if calls == [] {
      assert log + calls == log;
    } else {
      var n := |calls| - 1;
      AcceptedAppend(dryRun, log, calls[..n]);
      var all := log + calls;
      assert all[..|all| - 1] == log + calls[..n] && all[|all| - 1] == calls[n];
    }
  }

  lemma {:induction false} FlattenAppend(chunks: seq<seq<string>>, chunk: seq<string>)
    ensures Flatten(chunks + [chunk]) == Flatten(chunks) + chunk
  {
    assert (chunks + [chunk])[..|chunks|] == chunks;
  }

  /** ceil(n / 1000) */
  function ChunkCount(n: nat): nat {
    (n + 999) / 1000
  }

  /** At most five calls a chunk, one in a dry run. */
  function CallsFor(dryRun: bool, chunks: nat): nat {
    if dryRun then chunks else 5 * chunks
  }

  /** After `chunks` chunks of n ids the next one starts at `start`. */
  predicate Progress(chunks: nat, start: nat, n: nat) {
    && start == Min(chunks * CHUNK, n)
    && chunks <= ChunkCount(n)
    && (start == n ==> chunks == ChunkCount(n))
  }

  lemma {:induction false} OneMore(dryRun: bool, chunks: nat, start: nat, n: nat)
    requires Progress(chunks, start, n) && start < n
    ensures Progress(chunks + 1, Min(start + CHUNK, n), n)
    ensures chunks + 1 <= ChunkCount(n) && CallsFor(dryRun, chunks + 1) <= CallsFor(dryRun, ChunkCount(n))
  {
  }

  /** The calls made for one chunk: throttled ones, then one that decides; at most five. */
  ghost predicate Attempts(dryRun: bool, ids: seq<string>, calls: seq<Call>, done: bool) {
    && 1 <= |calls| <= (if dryRun then 1 else 5)
    && (forall i :: 0 <= i < |calls| ==> calls[i].ids == ids)
    && (forall i :: 0 <= i < |calls| - 1 ==> Throttled(calls[i]))
    && done == Took(dryRun, calls[|calls| - 1])
    && (!done && |calls| < 5 ==> dryRun || !Throttled(calls[|calls| - 1]))
  }

  /** Of the calls for one chunk only the last can have succeeded. */
  lemma {:induction false} AcceptedAttempts(dryRun: bool, ids: seq<string>, calls: seq<Call>, done: bool)
    requires Attempts(dryRun, ids, calls, done)
    ensures AcceptedIn(dryRun, calls) == if done then [ids] else []
  {
    NoneAccepted(dryRun, calls[..|calls| - 1]);
  }

  lemma {:induction false} NoneAccepted(dryRun: bool, calls: seq<Call>)
    requires forall i :: 0 <= i < |calls| ==> !Took(dryRun, calls[i])
    ensures AcceptedIn(dryRun, calls) == []
  {
    if calls == [] {
    } else {
      NoneAccepted(dryRun, calls[..|calls| - 1]);
    }
  }

  /** The calls are the API's answers number `first` and following. */
  ghost predicate Answered(api: nat -> Answer, first: nat, calls: seq<Call>) {
    forall i :: 0 <= i < |calls| ==> calls[i].answer == api(first + i)
  }

  lemma {:induction false} AnsweredAppend(api: nat -> Answer, log: seq<Call>, calls: seq<Call>)
    requires Answered(api, 0, log) && Answered(api, |log|, calls)
    ensures Answered(api, 0, log + calls)
  {
    forall i | 0 <= i < |log + calls| ensures (log + calls)[i].answer == api(0 + i) {
      if i < |log| {
        assert log[i].answer == api(0 + i);
      } else {
        assert calls[i - |log|].answer == api(|log| + (i - |log|));
      }
    }
  }

  /** The retry loop around one chunk, the API having answered `first` calls before. */
  method TerminateChunk(api: nat -> Answer, dryRun: bool, ids: seq<string>, first: nat)
    returns (calls: seq<Call>, result: Result)
    ensures Answered(api, first, calls)
    ensures Attempts(dryRun, ids, calls, result.Finished?)
    ensures result.Raised? ==> calls[|calls| - 1].answer == ClientError(result.code)
  {
    calls := [];
    while true
      invariant |calls| < MAX_RETRIES && (dryRun ==> calls == [])
      invariant Answered(api, first, calls)
      invariant forall i :: 0 <= i < |calls| ==>
        calls[i].ids == ids && Throttled(calls[i])
      decreases MAX_RETRIES - |calls|
    {
      var answer := api(first + |calls|);
      calls := calls + [Call(ids, answer)];
      if Succeeds(dryRun, answer) { return calls, Finished; }
      if !dryRun && IsRetryable(answer.code) && |calls| < MAX_RETRIES { continue; }
      return calls, Raised(answer.code);
    }
  }

  function ChunkEnd(ids: seq<string>, start: nat): nat {
    Min(start + CHUNK, |ids|)
  }

  /** The chunk that begins at `start`. */
  function ChunkAt(ids: seq<string>, start: nat): seq<string> {
    if start < |ids| then ids[start..ChunkEnd(ids, start)] else []
  }

  /** The chunks cut off the first `start` ids: their contents, their sizes and their number. */
  ghost predicate Cut(ids: seq<string>, chunks: seq<seq<string>>, start: nat) {
    && Progress(|chunks|, start, |ids|)
    && start <= |ids| && Flatten(chunks) == ids[..start]
    && forall i :: 0 <= i < |chunks| ==> 1 <= |chunks[i]| <= CHUNK
  }

  lemma {:induction false} CutOneMore(dryRun: bool, ids: seq<string>, chunks: seq<seq<string>>, start: nat)
    requires Cut(ids, chunks, start) && start < |ids|
    ensures
      && Cut(ids, chunks + [ChunkAt(ids, start)], ChunkEnd(ids, start))
      && |chunks| + 1 <= ChunkCount(|ids|)
      && CallsFor(dryRun, |chunks| + 1) <= CallsFor(dryRun, ChunkCount(|ids|))
  {
    var end := ChunkEnd(ids, start);
    OneMore(dryRun, |chunks|, start, |ids|);
    FlattenAppend(chunks, ids[start..end]);
    assert ids[..end] == ids[..start] + ids[start..end];
  }

  /** What holds when the chunks before `start` have been accepted. */
  ghost predicate SoFar(api: nat -> Answer, dryRun: bool, ids: seq<string>,
                        accepted: seq<seq<string>>, log: seq<Call>, start: nat)
  {
    && Cut(ids, accepted, start)
    && accepted == AcceptedIn(dryRun, log)
    && Answered(api, 0, log)
    && |log| <= CallsFor(dryRun, |accepted|)
  }

  /** The calls for the next chunk, whether they succeed or not. */
  lemma {:induction false} NextChunk(api: nat -> Answer, dryRun: bool, ids: seq<string>,
                                     accepted: seq<seq<string>>, log: seq<Call>, start: nat,
                                     chunk: seq<string>, calls: seq<Call>, done: bool)
    requires SoFar(api, dryRun, ids, accepted, log, start) && start < |ids|
    requires chunk == ChunkAt(ids, start)
    requires Answered(api, |log|, calls) && Attempts(dryRun, chunk, calls, done)
    ensures Answered(api, 0, log + calls)
    ensures AcceptedIn(dryRun, log + calls) == accepted + (if done then [chunk] else [])
    ensures |accepted| < ChunkCount(|ids|) && |log + calls| <= CallsFor(dryRun, |accepted| + 1)
    ensures CallsFor(dryRun, |accepted| + 1) <= CallsFor(dryRun, ChunkCount(|ids|))
    ensures Cut(ids, accepted + [chunk], ChunkEnd(ids, start))
    ensures log + calls != [] && (log + calls)[|log + calls| - 1] == calls[|calls| - 1]
    ensures calls[|calls| - 1].ids == chunk && |Flatten(accepted)| == start && Flatten(accepted) < ids
  {
    CutOneMore(dryRun, ids, accepted, start);
    AnsweredAppend(api, log, calls);
    AcceptedAppend(dryRun, log, calls);
    AcceptedAttempts(dryRun, chunk, calls, done);
  }

  /** The chunk after the first `start` ids was refused, and nothing was called after that. */
  ghost predicate StoppedAt(api: nat -> Answer, dryRun: bool, ids: seq<string>,
                            accepted: seq<seq<string>>, log: seq<Call>, code: string)
  {
    && accepted == AcceptedIn(dryRun, log)
    && Answered(api, 0, log)
    && Flatten(accepted) < ids && |accepted| < ChunkCount(|ids|)
    && (forall i :: 0 <= i < |accepted| ==> 1 <= |accepted[i]| <= CHUNK)
    && |log| <= CallsFor(dryRun, ChunkCount(|ids|))
    && log != [] && log[|log| - 1] == Call(ChunkAt(ids, |Flatten(accepted)|), ClientError(code))
  }

  /** One turn of the loop over the chunks. */
  method TerminateNext(api: nat -> Answer, dryRun: bool, ids: seq<string>,
                       accepted: seq<seq<string>>, log: seq<Call>, start: nat)
    returns (result: Result, newLog: seq<Call>)
    requires SoFar(api, dryRun, ids, accepted, log, start) && start < |ids|
    ensures result.Finished? ==>
      SoFar(api, dryRun, ids, accepted + [ChunkAt(ids, start)], newLog, ChunkEnd(ids, start))
    ensures result.Raised? ==> StoppedAt(api, dryRun, ids, accepted, newLog, result.code)
  {
    var chunk := ChunkAt(ids, start);
    var calls;
    calls, result := TerminateChunk(api, dryRun, chunk, |log|);
    NextChunk(api, dryRun, ids, accepted, log, start, chunk, calls, result.Finished?);
    newLog := log + calls;
  }

  /**
   Terminate all: the accepted chunks are those of the successful calls; on normal return they are
   exactly the input, on an exception a proper prefix of it; chunks are non-empty and hold at most
   1000 ids; and the API is called at most five times per chunk, once per chunk in a dry run.
   */
  method Terminate(api: nat -> Answer, ids: seq<string>, dryRun: bool)
    returns (result: Result, accepted: seq<seq<string>>, log: seq<Call>)
    ensures accepted == AcceptedIn(dryRun, log) && Answered(api, 0, log)
    ensures result.Finished? ==> Flatten(accepted) == ids && |accepted| == ChunkCount(|ids|)
    ensures result.Raised? ==> StoppedAt(api, dryRun, ids, accepted, log, result.code)
    ensures forall i :: 0 <= i < |accepted| ==> 1 <= |accepted[i]| <= 1000
    ensures |log| <= CallsFor(dryRun, ChunkCount(|ids|))
  {
    accepted, log := [], [];
    var start := 0;
    while start < |ids|
      invariant 0 <= start <= |ids| && SoFar(api, dryRun, ids, accepted, log, start)
      decreases |ids| - start
    {
      result, log := TerminateNext(api, dryRun, ids, accepted, log, start);
      if result.Raised? { return result, accepted, log; }
      accepted := accepted + [ChunkAt(ids, start)];
      start := ChunkEnd(ids, start);
    }
    result := Finished;
  }
}
