/**
 * The indexer's chunked reads: probing positions and previewing vaults a batch at a time, surviving a
 * batch that fails as a whole without shifting any result against its item.
 *
 * A batch call is an oracle of the chunk and its offset: it may throw, or return any number of results.
 */
module ChunkedProbe {
  import opened Common

  const PROBE_CHUNK_SIZE := 25

  type Error = string

  datatype Probe<T> = Success(value: T) | Failure(error: Error) | Unscanned(error: Error)

  datatype Batch<T> = Threw(error: Error) | Returned(results: seq<T>)

  // ---- Chunk size -------------------------------------------------------------------------------------

  /** The environment variable: absent or blank, something that is no integer, or an integer. */
  datatype RawSize = Blank | NotAnInteger | Whole(value: int)

  function ResolveChunkSize(raw: RawSize): (r: (nat, bool))
    ensures 1 <= r.0
    ensures r.1 <==> raw.NotAnInteger? || (raw.Whole? && raw.value < 1)
    ensures raw.Whole? && 1 <= raw.value ==> r.0 == raw.value
    ensures !(raw.Whole? && 1 <= raw.value) ==> r.0 == 25
  {
    match raw
    case Blank => (PROBE_CHUNK_SIZE, false)
    case NotAnInteger => (PROBE_CHUNK_SIZE, true)
    case Whole(n) => if n < 1 then (PROBE_CHUNK_SIZE, true) else (n, false)
  }

  // ---- Probing ------------------------------------------------------------------------------------------

  /** The chunk that item `i` is probed in starts here. */
  function ChunkStart(i: nat, size: nat): (o: nat)
    requires size > 0
    ensures o <= i < o + size
  {
    if i < size then 0 else size + ChunkStart(i - size, size)
  }

  predicate IsChunk(o: nat, size: nat)
    requires size > 0
  {
    ChunkStart(o, size) == o
  }

  /** Chunks start at the multiples of the chunk size. */
  lemma {:induction false} ChunksAreMultiples(o: nat, size: nat)
    requires size > 0
    ensures IsChunk(o, size) <==> o % size == 0
  {
    if o < size {
      ModUnique(o, size, 0, o);
    } else {
      ChunksAreMultiples(o - size, size);
      ModStep(o - size, size);
    }
  }

  function ChunkEnd(n: nat, offset: nat, size: nat): nat {
    Min(n, offset + size)
  }

  /** A batch is trusted only when it answers every item it was given. */
  predicate Trusted<T>(b: Batch<T>, length: nat) {
    b.Returned? && |b.results| == length
  }

  const WRONG_LENGTH := "batch returned the wrong number of results"

  function FailureOf<T>(b: Batch<T>): Error {
    if b.Threw? then b.error else WRONG_LENGTH
  }

  /** What item `i` gets: its own entry of its own batch, or the batch's failure. */
  function EntryFor<I, T>(items: seq<I>, run: (seq<I>, nat) -> Batch<Probe<T>>, size: nat, i: nat): Probe<T>
    requires size > 0 && i < |items|
  {
    var o := ChunkStart(i, size);
    var chunk := items[o..ChunkEnd(|items|, o, size)];
    var batch := run(chunk, o);
    if Trusted(batch, |chunk|) then batch.results[i - o] else Unscanned(FailureOf(batch))
  }

  predicate FailedChunk<I, T>(items: seq<I>, run: (seq<I>, nat) -> Batch<Probe<T>>, size: nat, o: nat)
    requires o <= |items|
  {
    var chunk := items[o..ChunkEnd(|items|, o, size)];
    !Trusted(run(chunk, o), |chunk|)
  }

  lemma {:induction false} ChunkOf(o: nat, size: nat, i: nat)
    requires size > 0 && IsChunk(o, size) && o <= i < o + size
    ensures ChunkStart(i, size) == o
  {
    if o > 0 {
      ChunkOf(o - size, size, i - size);
    }
  }

  /** Exactly one entry for each item, in input order, whatever the batches do. */
  method ProbeInChunks<I, T>(items: seq<I>, run: (seq<I>, nat) -> Batch<Probe<T>>, chunkSize: nat)
    returns (probes: seq<Probe<T>>, failed: seq<nat>)
    requires chunkSize >= 1
    ensures |probes| == |items|
    ensures forall i :: 0 <= i < |items| ==> probes[i] == EntryFor(items, run, chunkSize, i)
    ensures forall o: nat ::
              o in failed <==> o < |items| && IsChunk(o, chunkSize) && FailedChunk(items, run, chunkSize, o)
  {
    probes, failed := [], [];
    var offset := 0;
    while offset < |items|
      invariant IsChunk(offset, chunkSize)
      invariant |probes| == Min(|items|, offset)
      invariant forall i :: 0 <= i < |probes| ==> probes[i] == EntryFor(items, run, chunkSize, i)
      invariant forall o: nat ::
                  o in failed <==>
                    o < |items| && o < offset && IsChunk(o, chunkSize) && FailedChunk(items, run, chunkSize, o)
    {
      var chunk := items[offset..ChunkEnd(|items|, offset, chunkSize)];
      var batch := run(chunk, offset);
      forall i | offset <= i < offset + |chunk|
        ensures ChunkStart(i, chunkSize) == offset
      {
        ChunkOf(offset, chunkSize, i);
      }
      forall o: nat | offset <= o < offset + chunkSize && IsChunk(o, chunkSize)
        ensures o == offset
      {
        ChunkOf(offset, chunkSize, o);
      }
      if Trusted(batch, |chunk|) {
        probes := probes + batch.results;
      } else {
        probes := probes + seq(|chunk|, _ => Unscanned(FailureOf(batch)));
        failed := failed + [offset];
      }
      offset := offset + chunkSize;
    }
  }

  /**
   * Alignment: if each batch that answers in full answers each item by itself, then every entry is its
   * own item's answer or says the item was never probed. No chunk size moves an answer to another item.
   */
  lemma AnswersStayWithTheirItems<I, T>(items: seq<I>, run: (seq<I>, nat) -> Batch<Probe<T>>, size: nat,
                                        answer: I -> Probe<T>, i: nat)
    requires size > 0 && i < |items|
    requires forall chunk, o, j :: Trusted(run(chunk, o), |chunk|) && 0 <= j < |chunk| ==>
              run(chunk, o).results[j] == answer(chunk[j])
    ensures EntryFor(items, run, size, i) == answer(items[i]) || EntryFor(items, run, size, i).Unscanned?
  {
    var o := ChunkStart(i, size);
    var chunk := items[o..ChunkEnd(|items|, o, size)];
    assert chunk[i - o] == items[i];
  }

  // ---- Summing up ---------------------------------------------------------------------------------------

  /** The candidate has an answer this cycle: a success, or the revert of a healthy position. */
  predicate Answered<T>(p: Probe<T>, healthy: Error -> bool) {
    p.Success? || (p.Failure? && healthy(p.error))
  }

  function Succeeded<C, T>(candidates: seq<C>, probes: seq<Probe<T>>): seq<(C, T)>
    requires |probes| == |candidates|
  {
    if probes == [] then []
    else
      var n := |probes| - 1;
      Succeeded(candidates[..n], probes[..n]) + if probes[n].Success? then [(candidates[n], probes[n].value)] else []
  }

  function CountAnswered<T>(probes: seq<Probe<T>>, healthy: Error -> bool): nat {
    if probes == [] then 0
    else CountAnswered(probes[..|probes| - 1], healthy) + if Answered(probes[|probes| - 1], healthy) then 1 else 0
  }

  /** The candidates whose probe reverted for another reason than a healthy position. */
  function FaultyAt<T>(probes: seq<Probe<T>>, healthy: Error -> bool): set<int> {
    set i | 0 <= i < |probes| && probes[i].Failure? && !healthy(probes[i].error)
  }

  function AnsweredAt<T>(probes: seq<Probe<T>>, healthy: Error -> bool): set<int> {
    set i | 0 <= i < |probes| && Answered(probes[i], healthy)
  }

  lemma {:induction false} CountAnsweredExactly<T>(probes: seq<Probe<T>>, healthy: Error -> bool)
    ensures CountAnswered(probes, healthy) == |AnsweredAt(probes, healthy)|
    decreases |probes|
  {
    if probes != [] {
      var n := |probes| - 1;
      CountAnsweredExactly(probes[..n], healthy);
      assert AnsweredAt(probes, healthy)
          == AnsweredAt(probes[..n], healthy) + if Answered(probes[n], healthy) then {n} else {};
    }
  }

  lemma OneMoreFault<T>(probes: seq<Probe<T>>, healthy: Error -> bool, i: nat)
    requires i < |probes|
    ensures |FaultyAt(probes[..i + 1], healthy)|
         == |FaultyAt(probes[..i], healthy)| + if probes[i].Failure? && !healthy(probes[i].error) then 1 else 0
  {
    assert FaultyAt(probes[..i + 1], healthy)
        == FaultyAt(probes[..i], healthy) + if probes[i].Failure? && !healthy(probes[i].error) then {i as int} else {};
  }

  datatype Summary<C, T> = Summary(succeeded: seq<(C, T)>, checked: int, unscanned: int, faults: int)
  datatype SummaryResult<C, T> = Summed(summary: Summary<C, T>) | WrongLength

  /** Every candidate is counted once: as answered or as a gap. */
  method SummarizeProbes<C, T>(candidates: seq<C>, probes: seq<Probe<T>>, healthy: Error -> bool)
    returns (r: SummaryResult<C, T>)
    ensures r.WrongLength? <==> |probes| != |candidates|
    ensures r.Summed? ==>
              && r.summary.succeeded == Succeeded(candidates, probes)
              && r.summary.checked == |AnsweredAt(probes, healthy)|
              && r.summary.checked + r.summary.unscanned == |candidates|
              && r.summary.faults == |FaultyAt(probes, healthy)|
  {
    if |probes| != |candidates| {
      return WrongLength;
    }
    var succeeded, faults, unprobed := [], 0, 0;
    for i := 0 to |probes|
      invariant succeeded == Succeeded(candidates[..i], probes[..i])
      invariant 0 <= unprobed && faults == |FaultyAt(probes[..i], healthy)|
      invariant i - (unprobed + faults) == CountAnswered(probes[..i], healthy)
    {
      assert probes[..i + 1][..i] == probes[..i] && candidates[..i + 1][..i] == candidates[..i];
      OneMoreFault(probes, healthy, i);
      match probes[i]
      case Success(value) => succeeded := succeeded + [(candidates[i], value)];
      case Unscanned(_) => unprobed := unprobed + 1;
      case Failure(error) =>
        if !healthy(error) {
          faults := faults + 1;
        }
    }
    assert probes[..|probes|] == probes && candidates[..|candidates|] == candidates;
    CountAnsweredExactly(probes, healthy);
    var unscanned := unprobed + faults;
    return Summed(Summary(succeeded, |candidates| - unscanned, unscanned, faults));
  }

  /** Each success is paired with the candidate its probe was run for. */
  lemma {:induction false} SucceededIsAligned<C, T>(candidates: seq<C>, probes: seq<Probe<T>>, c: C, v: T)
    requires |probes| == |candidates|
    ensures (c, v) in Succeeded(candidates, probes) <==>
              exists i :: 0 <= i < |probes| && probes[i].Success? && candidates[i] == c && probes[i].value == v
    decreases |probes|
  {
    if probes != [] {
      var n := |probes| - 1;
      SucceededIsAligned(candidates[..n], probes[..n], c, v);
      assert forall i :: 0 <= i < n ==> probes[..n][i] == probes[i] && candidates[..n][i] == candidates[i];
    }
  }

  // ---- Previewing vaults ----------------------------------------------------------------------------------

  datatype Preview<T> = Answer(value: T) | GoneFromEscrow | FailedRead(error: Error)

  const EMPTY_RESPONSE := "empty response"

  /** What a call for one vault alone says about it. */
  function Alone<T>(b: Batch<T>, gone: Error -> bool): Preview<T> {
    match b
    case Returned(rs) => if |rs| > 0 then Answer(rs[0]) else FailedRead(EMPTY_RESPONSE)
    case Threw(e) => if gone(e) then GoneFromEscrow else FailedRead(e)
  }

  /** What the calls answer: a chunk by its offset, a vault read alone, and which reverts mean it left escrow. */
  datatype Reads<!I, !T> = Reads(batch: (seq<I>, nat) -> Batch<T>, single: nat -> Batch<T>, gone: Error -> bool)

  function BatchAt<I, T>(ids: seq<I>, calls: Reads<I, T>, size: nat, o: nat): Batch<T>
    requires o <= |ids|
  {
    calls.batch(ids[o..ChunkEnd(|ids|, o, size)], o)
  }

  /** Vault `i`'s own outcome: its entry of a full batch, or what its own call said. */
  function PreviewFor<I, T>(ids: seq<I>, calls: Reads<I, T>, size: nat, i: nat): Preview<T>
    requires size > 0 && i < |ids|
  {
    var o := ChunkStart(i, size);
    var b := BatchAt(ids, calls, size, o);
    if Trusted(b, ChunkEnd(|ids|, o, size) - o) then Answer(b.results[i - o]) else Alone(calls.single(i), calls.gone)
  }

  /**
   * A vault answers if its chunk's batch answered in full or its own call answered at all; it is gone only if its
   * own call reverted so, and anything else is a failure under the error of that call.
   */
  lemma PreviewsExactly<I, T>(ids: seq<I>, calls: Reads<I, T>, size: nat, i: nat)
    requires size > 0 && i < |ids|
    ensures var o := ChunkStart(i, size);
            var chunk := ids[o..Min(|ids|, o + size)];
            var b, s, p := calls.batch(chunk, o), calls.single(i), PreviewFor(ids, calls, size, i);
            if b.Returned? && |b.results| == |chunk| then p == Answer(b.results[i - o])
            else
              && (p.Answer? <==> s.Returned? && s.results != []) && (p.Answer? ==> p.value == s.results[0])
              && (p.GoneFromEscrow? <==> s.Threw? && calls.gone(s.error))
              && (p == FailedRead("empty response") <==>
                    (s.Returned? && s.results == []) || (s == Threw("empty response") && !calls.gone(s.error)))
              && (s.Threw? && !calls.gone(s.error) ==> p == FailedRead(s.error))
  {
  }

  datatype Tally<I, T> = Tally(previews: seq<T>, gone: nat, failures: seq<(I, Error)>)

  /** Count one vault's outcome: once, under its own id. */
  function Add<I, T>(t: Tally<I, T>, id: I, p: Preview<T>): Tally<I, T> {
    match p
    case Answer(v) => t.(previews := t.previews + [v])
    case GoneFromEscrow => t.(gone := t.gone + 1)
    case FailedRead(e) => t.(failures := t.failures + [(id, e)])
  }

  /** The own outcomes of the first `n` vaults, in input order. */
  function Outcomes<I, T>(ids: seq<I>, calls: Reads<I, T>, size: nat, n: nat): (ps: seq<Preview<T>>)
    requires size > 0 && n <= |ids|
    ensures |ps| == n
  {
    if n == 0 then [] else Outcomes(ids, calls, size, n - 1) + [PreviewFor(ids, calls, size, n - 1)]
  }

  lemma {:induction false} OutcomeAt<I, T>(ids: seq<I>, calls: Reads<I, T>, size: nat, n: nat, i: nat)
    requires size > 0 && i < n <= |ids|
    ensures Outcomes(ids, calls, size, n)[i] == PreviewFor(ids, calls, size, i)
  {
    if i < n - 1 {
      OutcomeAt(ids, calls, size, n - 1, i);
    }
  }

  /** The first `n` outcomes counted, in input order. */
  function TallyUpTo<I, T>(ids: seq<I>, ps: seq<Preview<T>>, n: nat): Tally<I, T>
    requires n <= |ids| == |ps|
  {
    if n == 0 then Tally([], 0, []) else Add(TallyUpTo(ids, ps, n - 1), ids[n - 1], ps[n - 1])
  }

  lemma {:induction false} EveryVaultIsCounted<I, T>(ids: seq<I>, ps: seq<Preview<T>>, n: nat)
    requires n <= |ids| == |ps|
    ensures var t := TallyUpTo(ids, ps, n); |t.previews| + t.gone + |t.failures| == n
  {
    if n > 0 {
      EveryVaultIsCounted(ids, ps, n - 1);
    }
  }

  /** A vault is reported failed exactly when its own outcome is that failure. */
  lemma {:induction false} FailuresAreTheirOwn<I, T>(ids: seq<I>, ps: seq<Preview<T>>, n: nat, id: I, e: Error)
    requires n <= |ids| == |ps|
    ensures (id, e) in TallyUpTo(ids, ps, n).failures <==>
              exists i :: 0 <= i < n && ids[i] == id && ps[i] == FailedRead(e)
  {
    if n > 0 {
      FailuresAreTheirOwn(ids, ps, n - 1, id, e);
    }
  }

  function GoneAt<T>(ps: seq<Preview<T>>, n: nat): set<int>
    requires n <= |ps|
  {
    set i | 0 <= i < n && ps[i].GoneFromEscrow?
  }

  /** As many vaults are reported gone as have that outcome. */
  lemma {:induction false} GoneExactly<I, T>(ids: seq<I>, ps: seq<Preview<T>>, n: nat)
    requires n <= |ids| == |ps|
    ensures TallyUpTo(ids, ps, n).gone == |GoneAt(ps, n)|
  {
    if n > 0 {
      GoneExactly(ids, ps, n - 1);
      assert GoneAt(ps, n) == GoneAt(ps, n - 1) + if ps[n - 1].GoneFromEscrow? then {n - 1} else {};
    }
  }

  /** How many of the first `n` vaults answered. */
  function AnsweredBefore<T>(ps: seq<Preview<T>>, n: nat): nat
    requires n <= |ps|
  {
    if n == 0 then 0 else AnsweredBefore(ps, n - 1) + if ps[n - 1].Answer? then 1 else 0
  }

  /** A vault that answered has its own preview, at its place among those that did. */
  lemma {:induction false} PreviewsKeepInputOrder<I, T>(ids: seq<I>, ps: seq<Preview<T>>, n: nat, i: nat)
    requires i < n <= |ids| == |ps| && ps[i].Answer?
    ensures var k := AnsweredBefore(ps, i);
            k < |TallyUpTo(ids, ps, n).previews| == AnsweredBefore(ps, n)
            && TallyUpTo(ids, ps, n).previews[k] == ps[i].value
    decreases n
  {
    if i < n - 1 {
      PreviewsKeepInputOrder(ids, ps, n - 1, i);
    } else {
      PreviewCount(ids, ps, i);
    }
  }

  lemma {:induction false} PreviewCount<I, T>(ids: seq<I>, ps: seq<Preview<T>>, n: nat)
    requires n <= |ids| == |ps|
    ensures |TallyUpTo(ids, ps, n).previews| == AnsweredBefore(ps, n)
  {
    if n > 0 {
      PreviewCount(ids, ps, n - 1);
    }
  }

  /** Each vault of the chunk gets its entry of `rs`. */
  predicate Batched<T(==)>(ps: seq<Preview<T>>, offset: nat, rs: seq<T>) {
    offset + |rs| <= |ps| && forall j :: 0 <= j < |rs| ==> ps[offset + j] == Answer(rs[j])
  }

  /** Entries of a full batch are counted by appending them. */
  lemma {:induction false} BatchAppends<I, T>(ids: seq<I>, ps: seq<Preview<T>>, offset: nat, rs: seq<T>)
    requires |ids| == |ps| && Batched(ps, offset, rs)
    ensures var before := TallyUpTo(ids, ps, offset);
            TallyUpTo(ids, ps, offset + |rs|) == before.(previews := before.previews + rs)
    decreases |rs|
  {
    if rs != [] {
      var n := |rs| - 1;
      assert Batched(ps, offset, rs[..n]);
      BatchAppends(ids, ps, offset, rs[..n]);
      assert rs == rs[..n] + [rs[n]] && ps[offset + n] == Answer(rs[n]);
    }
  }

  lemma EntryOf<I, T>(ids: seq<I>, calls: Reads<I, T>, size: nat, offset: nat, i: nat)
    requires size > 0 && IsChunk(offset, size) && offset < |ids| && offset <= i < ChunkEnd(|ids|, offset, size)
    ensures var b := BatchAt(ids, calls, size, offset);
            PreviewFor(ids, calls, size, i)
              == if Trusted(b, ChunkEnd(|ids|, offset, size) - offset) then Answer(b.results[i - offset])
                 else Alone(calls.single(i), calls.gone)
  {
    ChunkOf(offset, size, i);
  }

  lemma ChunkGets<I, T>(ids: seq<I>, calls: Reads<I, T>, size: nat, offset: nat)
    requires size > 0 && IsChunk(offset, size) && offset < |ids|
    requires Trusted(BatchAt(ids, calls, size, offset), ChunkEnd(|ids|, offset, size) - offset)
    ensures Batched(Outcomes(ids, calls, size, |ids|), offset, BatchAt(ids, calls, size, offset).results)
  {
    var ps, rs := Outcomes(ids, calls, size, |ids|), BatchAt(ids, calls, size, offset).results;
    forall j | 0 <= j < |rs|
      ensures ps[offset + j] == Answer(rs[j])
    {
      EntryOf(ids, calls, size, offset, offset + j);
      OutcomeAt(ids, calls, size, |ids|, offset + j);
    }
  }

  /** The chunk at `o` does not answer all of its vaults. */
  predicate ChunkFails<I, T>(ids: seq<I>, calls: Reads<I, T>, size: nat, o: nat) {
    o < |ids| && !Trusted(BatchAt(ids, calls, size, o), ChunkEnd(|ids|, o, size) - o)
  }

  /** The chunk at `o` is the first that fails. */
  ghost predicate FailsFirst<I, T>(ids: seq<I>, calls: Reads<I, T>, size: nat, o: nat)
    requires size > 0
  {
    ChunkFails(ids, calls, size, o) && forall p: nat :: p < o && IsChunk(p, size) ==> !ChunkFails(ids, calls, size, p)
  }

  /** Of the chunks below `end`, `error` is what the first failing one failed with. */
  ghost predicate FirstFailure<I, T>(ids: seq<I>, calls: Reads<I, T>, size: nat, end: nat, error: Option<Error>)
    requires size > 0
  {
    if error.None? then forall o: nat :: o < end && IsChunk(o, size) ==> !ChunkFails(ids, calls, size, o)
    else exists o: nat :: o < end && IsChunk(o, size) && FailsFirst(ids, calls, size, o)
                          && error == Some(FailureOf(BatchAt(ids, calls, size, o)))
  }

  lemma FirstFailureStep<I, T>(ids: seq<I>, calls: Reads<I, T>, size: nat, offset: nat, error: Option<Error>)
    requires size > 0 && IsChunk(offset, size) && offset < |ids| && FirstFailure(ids, calls, size, offset, error)
    ensures FirstFailure(ids, calls, size, offset + size,
                         if error.None? && ChunkFails(ids, calls, size, offset)
                         then Some(FailureOf(BatchAt(ids, calls, size, offset))) else error)
  {
    forall o: nat | offset <= o < offset + size && IsChunk(o, size)
      ensures o == offset
    {
      ChunkOf(offset, size, o);
    }
    if error.None? && ChunkFails(ids, calls, size, offset) {
      assert FailsFirst(ids, calls, size, offset);
    }
  }

  /**
   * Previews and failures in input order, each with its own vault; no vault counted twice or lost. The
   * error reported for the batches is that of the first chunk that failed.
   */
  method PreviewInChunks<I, T>(ids: seq<I>, calls: Reads<I, T>, chunkSize: nat)
    returns (out: Tally<I, T>, batchError: Option<Error>)
    requires chunkSize >= 1
    ensures out == TallyUpTo(ids, Outcomes(ids, calls, chunkSize, |ids|), |ids|)
    ensures |out.previews| + out.gone + |out.failures| == |ids|
    ensures FirstFailure(ids, calls, chunkSize, |ids|, batchError)
  {
    out, batchError := Tally([], 0, []), None;
    ghost var ps := Outcomes(ids, calls, chunkSize, |ids|);
    var offset := 0;
    while offset < |ids|
      invariant IsChunk(offset, chunkSize)
      invariant out == TallyUpTo(ids, ps, Min(|ids|, offset))
      invariant FirstFailure(ids, calls, chunkSize, offset, batchError)
    {
      var failure;
      FirstFailureStep(ids, calls, chunkSize, offset, batchError);
      out, failure := PreviewChunk(ids, calls, chunkSize, offset, out, ps);
      batchError := if batchError.None? then failure else batchError;
      offset := offset + chunkSize;
    }
    EveryVaultIsCounted(ids, ps, |ids|);
  }

  /** One chunk: its batch if that answers every vault, otherwise one call for each. */
  method PreviewChunk<I, T>(ids: seq<I>, calls: Reads<I, T>, size: nat, offset: nat, sofar: Tally<I, T>,
                            ghost ps: seq<Preview<T>>)
    returns (out: Tally<I, T>, failure: Option<Error>)
    requires size >= 1 && offset < |ids| && IsChunk(offset, size) && ps == Outcomes(ids, calls, size, |ids|)
    requires sofar == TallyUpTo(ids, ps, offset)
    ensures out == TallyUpTo(ids, ps, ChunkEnd(|ids|, offset, size))
    ensures failure ==
              if ChunkFails(ids, calls, size, offset) then Some(FailureOf(BatchAt(ids, calls, size, offset))) else None
  {
    var b := BatchAt(ids, calls, size, offset);
    if Trusted(b, ChunkEnd(|ids|, offset, size) - offset) {
      ChunkGets(ids, calls, size, offset);
      BatchAppends(ids, ps, offset, b.results);
      out, failure := sofar.(previews := sofar.previews + b.results), None;
    } else {
      out := PreviewAlone(ids, calls, size, offset, sofar, ps);
      failure := Some(FailureOf(b));
    }
  }

  lemma FailedChunkEntry<I, T>(ids: seq<I>, calls: Reads<I, T>, size: nat, offset: nat, i: nat)
    requires size > 0 && IsChunk(offset, size) && ChunkFails(ids, calls, size, offset)
    requires offset <= i < ChunkEnd(|ids|, offset, size)
    ensures Outcomes(ids, calls, size, |ids|)[i] == Alone(calls.single(i), calls.gone)
  {
    EntryOf(ids, calls, size, offset, i);
    OutcomeAt(ids, calls, size, |ids|, i);
  }

  /** Read a failed chunk again, one vault per call. */
  method PreviewAlone<I, T>(ids: seq<I>, calls: Reads<I, T>, size: nat, offset: nat, sofar: Tally<I, T>,
                            ghost ps: seq<Preview<T>>)
    returns (out: Tally<I, T>)
    requires size >= 1 && IsChunk(offset, size) && ChunkFails(ids, calls, size, offset)
    requires ps == Outcomes(ids, calls, size, |ids|)
    requires sofar == TallyUpTo(ids, ps, offset)
    ensures out == TallyUpTo(ids, ps, ChunkEnd(|ids|, offset, size))
  {
    out := sofar;
    for i := offset to ChunkEnd(|ids|, offset, size)
      invariant out == TallyUpTo(ids, ps, i)
    {
      FailedChunkEntry(ids, calls, size, offset, i);
      out := CountAlone(out, ids[i], calls.single(i), calls.gone);
    }
  }

  /** Count what one vault's own call said. */
  method CountAlone<I, T>(t: Tally<I, T>, id: I, b: Batch<T>, gone: Error -> bool) returns (out: Tally<I, T>)
    ensures out == Add(t, id, Alone(b, gone))
  {
    match b
    case Returned(rs) =>
      if |rs| > 0 {
        out := t.(previews := t.previews + [rs[0]]);
      } else {
        out := t.(failures := t.failures + [(id, EMPTY_RESPONSE)]);
      }
    case Threw(e) =>
      if gone(e) {
        out := t.(gone := t.gone + 1);
      } else {
        out := t.(failures := t.failures + [(id, e)]);
      }
  }
}
