/** The coordinator's own loops over the real builder: admission, results in any order, direct or held
    ingestion, and freezing. Every way in which they end is the end of a run of the state machine. */
module Operations {
  import opened Common
  import opened Report
  import opened Batches
  import opened Intakes
  import opened Builder
  import opened Finishing
  import opened Simulation
  import AliasTables
  import Coordinator
  import Fixes
  import Projection

  /** How a worker's scan of one input ended. */
  datatype Reply = Scanned(response: Projection.Response) | Panicked(failure: Failure)

  /** One operation: its requests by input, and what the workers reply to each. */
  datatype Work = Work(requests: seq<Projection.Request>, replies: seq<Reply>, workers: nat)

  ghost predicate ValidWork(work: Work) {
    && |work.requests| == |work.replies| && work.workers >= 1
    && forall i :: 0 <= i < |work.replies| && work.replies[i].Scanned? ==>
       Projection.ValidPointers(work.replies[i].response.result)
  }

  /** The same inputs for the coordinator's state machine. */
  function JobOf(v: Fixes.Versions, work: Work): (job: Coordinator.Job)
    requires |work.requests| == |work.replies|
    ensures |job.scans| == |work.replies|
  {
    Coordinator.Job(
      seq(|work.replies|, i requires 0 <= i < |work.replies| =>
        if work.replies[i].Scanned? then
          Coordinator.Answered(Projection.FactsOf(v, work.requests[i], work.replies[i].response))
        else Coordinator.Panicked(work.replies[i].failure)),
      work.workers)
  }

  lemma JobIsValid(v: Fixes.Versions, work: Work)
    requires ValidWork(work)
    ensures Coordinator.ValidJob(JobOf(v, work))
  {
    hide Projected, Projection.FactsOf;
    var job := JobOf(v, work);
    forall i | 0 <= i < |job.scans| && job.scans[i].Answered?
      ensures Projected(job.scans[i].facts)
    {
      Projection.FactsAreProjected(v, work.requests[i], work.replies[i].response);
    }
  }

  /** The admission window: as many inputs in flight as there are workers, while there are inputs. */
  ghost predicate InWindow(job: Coordinator.Job, p: Progress) {
    && p.merged <= |job.scans|
    && p.admitted == Smaller(|job.scans|, p.merged + Coordinator.Width(job))
    && p.working !! p.pending.Keys && p.working + p.pending.Keys == Coordinator.Between(p.merged, p.admitted)
  }

  ghost predicate Held(job: Coordinator.Job, pending: map<nat, Pending>) {
    forall i :: i in pending ==>
      i < |job.scans| && job.scans[i].Answered? &&
      pending[i] == BufferAll(job.scans[i].facts.image, job.scans[i].facts.calls)
  }

  /** What has been taken in is the merged inputs, one after the other. */
  ghost predicate Merged(job: Coordinator.Job, intake: Intake, merged: nat) {
    && Coordinator.AllAnswered(job, merged)
    && intake == StreamAll(Coordinator.FactsUpTo(job, merged))
  }

  lemma MergedNext(job: Coordinator.Job, intake: Intake, merged: nat)
    requires Merged(job, intake, merged) && merged < |job.scans| && job.scans[merged].Answered?
    ensures Merged(job, Stream(intake, job.scans[merged].facts), merged + 1)
    ensures !Fits(Stream(intake, job.scans[merged].facts)) ==> Coordinator.Overfull(job)
  {
    hide StreamAll, Stream, Coordinator.FactsUpTo, Fits, Freezes;
    Coordinator.FoldNext(job, merged);
    InputsFit(job, merged + 1);
  }

  lemma InputsFit(job: Coordinator.Job, n: nat)
    requires n <= |job.scans|
    ensures !Fits(StreamAll(Coordinator.FactsUpTo(job, n))) ==> Coordinator.Overfull(job)
  {
    hide StreamAll, Fits, Freezes;
    var all := Coordinator.FactsUpTo(job, |job.scans|);
    assert all[..n] == Coordinator.FactsUpTo(job, n);
    if Fits(StreamAll(all)) {
      StreamAllFits(all, n);
    }
  }

  lemma AdvanceStays(job: Coordinator.Job, p: Progress, q: Progress)
    requires InWindow(job, p) && p.merged < |job.scans|
    requires q == p.(working := p.working - {p.merged}, pending := p.pending - {p.merged})
    requires p.merged in p.working || p.merged in p.pending
    ensures InWindow(job, Advance(|job.scans|, q))
  {
    hide Coordinator.Width;
    var r := Advance(|job.scans|, q);
    assert r.pending.Keys == p.pending.Keys - {p.merged};
  }

  lemma MergedWithin(job: Coordinator.Job, p: Progress)
    requires InWindow(job, p)
    ensures forall i :: i in p.working || i in p.pending ==> p.merged <= i < p.admitted <= |job.scans|
    ensures |p.pending| <= p.admitted - p.merged
  {
    hide Coordinator.Width, Coordinator.Between;
    assert forall i :: i in p.working + p.pending.Keys <==> i in Coordinator.Between(p.merged, p.admitted);
    Coordinator.BetweenSize(p.merged, p.admitted);
    assert |p.working + p.pending.Keys| == |p.working| + |p.pending.Keys|;
  }

  /** The coordinator's loop invariant: the window and the fold are kept, and some run of the state
      machine leads here. */
  ghost predicate Placed(job: Coordinator.Job, intake: Intake, p: Progress) {
    InWindow(job, p) && Held(job, p.pending) && Merged(job, intake, p.merged) && Reached(job, intake, p)
  }

  /** Input `p.merged` is merged and leaves the window, or it overflows. */
  lemma PlacedNext(job: Coordinator.Job, intake: Intake, p: Progress, q: Progress, after: Intake)
    requires Coordinator.ValidJob(job) && Placed(job, intake, p) && p.merged < |job.scans|
             && job.scans[p.merged].Answered?
    requires q == p.(working := p.working - {p.merged}, pending := p.pending - {p.merged})
    requires p.merged in p.working || p.merged in p.pending
    requires after == Stream(intake, job.scans[p.merged].facts)
    ensures Fits(after) ==> Placed(job, after, Advance(|job.scans|, q))
    ensures !Fits(after) ==> Coordinator.Overfull(job) && Ends(job, PanicStatus(Overflow), None)
    ensures p.merged in p.pending ==> |q.pending| < |p.pending|
  {
    hide InWindow, Merged, BufferAll, Stream, Fits, Coordinator.Overfull, Reached, Ends, Coordinator.ValidJob, Absorb;
    MergedNext(job, intake, p.merged);
    AdvanceStays(job, p, q);
    FewerHeld(p);
    ReachedNext(job, intake, p, q, after);
  }

  lemma FewerHeld(p: Progress)
    ensures p.merged in p.pending ==> |p.pending - {p.merged}| < |p.pending|
  {
    var rest := p.pending - {p.merged};
    assert rest.Keys == p.pending.Keys - {p.merged};
    assert |rest.Keys| == |rest| && |p.pending| == |p.pending.Keys|;
  }

  /** Taking in the next image is a step of the state machine, whether it was held or has just arrived. */
  lemma ReachedNext(job: Coordinator.Job, intake: Intake, p: Progress, q: Progress, after: Intake)
    requires Coordinator.ValidJob(job) && Placed(job, intake, p) && p.merged < |job.scans|
             && job.scans[p.merged].Answered?
    requires q == p.(working := p.working - {p.merged}, pending := p.pending - {p.merged})
    requires p.merged in p.working || p.merged in p.pending
    requires after == Stream(intake, job.scans[p.merged].facts)
    ensures if Fits(after) then Reached(job, after, Advance(|job.scans|, q)) else Ends(job, PanicStatus(Overflow), None)
  {
    hide InWindow, Merged, BufferAll, Stream, Fits, Reached, Ends, Coordinator.ValidJob, Absorb;
    NotBoth(job, p);
    if p.merged in p.pending {
      HeldAbsorbs(job, intake, p);
      Absorbs(job, intake, p);
      assert q == p.(pending := p.pending - {p.merged});
    } else {
      Streams(job, intake, p);
      assert p.pending - {p.merged} == p.pending;
      assert q == p.(working := p.working - {p.merged});
    }
  }

  /** No input is with a worker and held at the same time. */
  lemma NotBoth(job: Coordinator.Job, p: Progress)
    requires InWindow(job, p)
    ensures p.merged in p.pending ==> p.working - {p.merged} == p.working
  {
  }

  lemma HeldAbsorbs(job: Coordinator.Job, intake: Intake, p: Progress)
    requires Coordinator.ValidJob(job) && Placed(job, intake, p) && p.merged in p.pending
    ensures p.merged < |job.scans| && job.scans[p.merged].Answered?
    ensures Absorb(intake, p.pending[p.merged]) == Stream(intake, job.scans[p.merged].facts)
  {
    hide InWindow, Merged, BufferAll, Stream, Absorb, Reached, WellOrdered, Named, OnePointer, KnownStatus;
    AbsorbIsStream(intake, job.scans[p.merged].facts);
  }

  lemma HeldIs(job: Coordinator.Job, intake: Intake, p: Progress)
    requires Coordinator.ValidJob(job) && Placed(job, intake, p) && p.merged in p.pending
    ensures p.merged < |job.scans| && job.scans[p.merged].Answered? && Projected(job.scans[p.merged].facts)
    ensures p.pending[p.merged] == BufferAll(job.scans[p.merged].facts.image, job.scans[p.merged].facts.calls)
  {
    hide InWindow, Merged, BufferAll, Projected, Reached;
  }

  /** Merging the held image whose turn it is, and admitting the next input. */
  method MergeHeld(ctx: Context, builder: BatchBuilder, n: nat, ghost job: Coordinator.Job, p: Progress)
    returns (r: Result<Progress>)
    requires builder.Valid() && builder.ctx == ctx && Coordinator.ValidJob(job) && n == |job.scans|
    requires Placed(job, builder.State(), p) && p.merged in p.pending
    modifies builder, builder.payload, builder.forest
    ensures r.Success? ==> builder.Valid() && Placed(job, builder.State(), r.value)
    ensures r.Success? ==> r.value.merged == p.merged + 1 && |r.value.pending| < |p.pending|
    ensures r.Fail? ==> (r.error == Canceled && ctx.Cancelable?) || (r.error == Overflow && Coordinator.Overfull(job))
    ensures r.Fail? ==> Ends(job, PanicStatus(r.error), None)
  {
    hide BatchBuilder.Valid, Stream, Fits, BatchBuilder.State, Placed, BufferAll, Projected, Coordinator.ValidJob,
      Coordinator.Overfull, Ends;
    Cancels(job);
    HeldIs(job, builder.State(), p);
    ghost var facts := job.scans[p.merged].facts;
    var held := p.pending[p.merged];
    var q := p.(working := p.working - {p.merged}, pending := p.pending - {p.merged});
    var canceled := CheckContext(ctx);
    if canceled {
      return Fail(Canceled);
    }
    PlacedNext(job, builder.State(), p, q, Stream(builder.State(), facts));
    var _ :- builder.Merge(held, facts);
    if q.admitted < n {
      canceled := CheckContext(ctx);
      if canceled {
        return Fail(Canceled);
      }
    }
    return Success(Advance(n, q));
  }

  /** Merging what is held, for as long as the next image is there. */
  method DrainHeld(ctx: Context, builder: BatchBuilder, n: nat, ghost job: Coordinator.Job, p0: Progress)
    returns (r: Result<Progress>)
    requires builder.Valid() && builder.ctx == ctx && Coordinator.ValidJob(job) && n == |job.scans|
    requires Placed(job, builder.State(), p0)
    modifies builder, builder.payload, builder.forest
    ensures r.Success? ==> builder.Valid() && Placed(job, builder.State(), r.value)
    ensures r.Success? ==> r.value.merged !in r.value.pending
    ensures r.Success? ==> p0.merged <= r.value.merged && (r.value.merged == p0.merged ==> r.value == p0)
    ensures r.Fail? ==> (r.error == Canceled && ctx.Cancelable?) || (r.error == Overflow && Coordinator.Overfull(job))
    ensures r.Fail? ==> Ends(job, PanicStatus(r.error), None)
  {
    hide BatchBuilder.Valid, BatchBuilder.State, Placed, Ends, Coordinator.ValidJob, Coordinator.Overfull;
    var p := p0;
    while p.merged in p.pending
      invariant builder.Valid() && Placed(job, builder.State(), p)
      invariant p0.merged <= p.merged && (p.merged == p0.merged ==> p == p0)
      decreases |p.pending|
    {
      p :- MergeHeld(ctx, builder, n, job, p);
    }
    return Success(p);
  }

  /** A result whose turn it is goes straight into the batch, and the next input is admitted. */
  method AddDirect(ctx: Context, v: Fixes.Versions, request: Projection.Request, response: Projection.Response,
                   builder: BatchBuilder, n: nat, ghost job: Coordinator.Job, p: Progress) returns (r: Result<Progress>)
    requires builder.Valid() && builder.ctx == ctx && Projection.ValidPointers(response.result) && n == |job.scans|
    requires Coordinator.ValidJob(job)
    requires Placed(job, builder.State(), p) && p.merged in p.working && p.merged !in p.pending && p.merged < n
    requires job.scans[p.merged] == Coordinator.Answered(Projection.FactsOf(v, request, response))
    modifies builder, builder.payload, builder.forest
    ensures r.Success? ==> builder.Valid() && Placed(job, builder.State(), r.value) && r.value.merged == p.merged + 1
    ensures r.Fail? ==> (r.error == Canceled && ctx.Cancelable?) || (r.error == Overflow && Coordinator.Overfull(job))
    ensures r.Fail? ==> Ends(job, PanicStatus(r.error), None)
  {
    hide BatchBuilder.Valid, Stream, Fits, BatchBuilder.State, Placed, Projection.FactsOf, Projection.ValidPointers,
      Coordinator.ValidJob, Coordinator.Overfull, Ends;
    Cancels(job);
    var q := p.(working := p.working - {p.merged});
    assert q.pending == p.pending - {p.merged};
    PlacedNext(job, builder.State(), p, q, Stream(builder.State(), job.scans[p.merged].facts));
    var _ :- builder.Add(v, request, response);
    if q.admitted < n {
      var canceled := CheckContext(ctx);
      if canceled {
        return Fail(Canceled);
      }
    }
    return Success(Advance(n, q));
  }

  /** Taking in one result: directly if it is its turn, otherwise it is projected and held. */
  method Receive(ctx: Context, v: Fixes.Versions, work: Work, builder: BatchBuilder, ghost job: Coordinator.Job,
                 p: Progress, i: nat) returns (r: Result<Progress>)
    requires builder.Valid() && builder.ctx == ctx && ValidWork(work) && job == JobOf(v, work)
             && Coordinator.ValidJob(job)
    requires p.merged < |job.scans|
    requires Placed(job, builder.State(), p) && i in p.working && p.merged !in p.pending && i < |job.scans|
    modifies builder, builder.payload, builder.forest
    ensures r.Success? ==> builder.Valid() && Placed(job, builder.State(), r.value)
    ensures r.Success? ==>
              r.value.merged > p.merged || (r.value.merged == p.merged && |r.value.pending| == |p.pending| + 1)
    ensures r.Fail? ==>
              (r.error == Canceled && ctx.Cancelable?) || (r.error == Overflow && Coordinator.Overfull(job))
                || Panicked(r.error) in work.replies
    ensures r.Fail? ==> Ends(job, PanicStatus(r.error), None)
  {
    hide BatchBuilder.Valid, BatchBuilder.State, Coordinator.Overfull, Coordinator.ValidJob, Ends, Placed,
      Coordinator.Width, Projection.FactsOf, Projection.ValidPointers, BufferAll, Projected;
    Cancels(job);
    var canceled := CheckContext(ctx);
    if canceled {
      return Fail(Canceled);
    }
    if work.replies[i].Panicked? {
      PanicEnds(job, builder.State(), p, i);
      return Fail(work.replies[i].failure);
    }
    var request, response := work.requests[i], work.replies[i].response;
    if i == p.merged {
      r := AddDirect(ctx, v, request, response, builder, |work.replies|, job, p);
    } else {
      var held :- Hold(ctx, v, request, response);
      HoldStays(job, builder.State(), p, i, held);
      return Success(p.(working := p.working - {i}, pending := p.pending[i := held]));
    }
  }

  lemma HoldStays(job: Coordinator.Job, intake: Intake, p: Progress, i: nat, held: Pending)
    requires Coordinator.ValidJob(job) && Placed(job, intake, p) && i in p.working && i < |job.scans|
             && job.scans[i].Answered?
    requires p.merged < |job.scans| && p.merged !in p.pending && i != p.merged
    requires held == BufferAll(job.scans[i].facts.image, job.scans[i].facts.calls)
    ensures Placed(job, intake, p.(working := p.working - {i}, pending := p.pending[i := held]))
    ensures |p.pending[i := held]| == |p.pending| + 1
  {
    hide BufferAll, Merged, InWindow, Reached, Coordinator.ValidJob;
    HoldMoves(job, p, i, held);
    Holds(job, intake, p, i);
  }

  lemma PanicEnds(job: Coordinator.Job, intake: Intake, p: Progress, i: nat)
    requires Coordinator.ValidJob(job) && Placed(job, intake, p) && p.merged < |job.scans| && p.merged !in p.pending
    requires i in p.working && i < |job.scans| && job.scans[i].Panicked?
    ensures Ends(job, PanicStatus(job.scans[i].failure), None)
  {
    hide Merged, InWindow, Reached, Coordinator.ValidJob, Ends;
    Panics(job, intake, p, i);
  }

  lemma HoldMoves(job: Coordinator.Job, p: Progress, i: nat, held: Pending)
    requires InWindow(job, p) && i in p.working
    ensures InWindow(job, p.(working := p.working - {i}, pending := p.pending[i := held]))
    ensures |p.pending[i := held]| == |p.pending| + 1
  {
    hide Coordinator.Width, Coordinator.Between;
    var added := p.pending[i := held];
    assert added.Keys == p.pending.Keys + {i};
    assert |added| == |added.Keys| && |p.pending| == |p.pending.Keys|;
    assert (p.working - {i}) + added.Keys == p.working + p.pending.Keys;
    assert (p.working - {i}) !! added.Keys;
  }

  /** Admitting the first inputs, one for each worker. */
  method Fill(ctx: Context, width: nat) returns (r: Result<Progress>)
    ensures r.Success? ==> r.value == Progress(width, 0, Coordinator.Between(0, width), map[])
    ensures r.Fail? ==> r.error == Canceled && ctx.Cancelable?
  {
    var p := Progress(0, 0, {}, map[]);
    while p.admitted < width
      invariant p == Progress(p.admitted, 0, Coordinator.Between(0, p.admitted), map[]) && p.admitted <= width
    {
      var canceled := CheckContext(ctx);
      if canceled {
        return Fail(Canceled);
      }
      p := p.(admitted := p.admitted + 1, working := p.working + {p.admitted});
    }
    return Success(p);
  }

  /** The loop over the results: the workers may reply in any order. */
  method Ingest(ctx: Context, v: Fixes.Versions, work: Work, builder: BatchBuilder, ghost job: Coordinator.Job,
                p0: Progress)
    returns (r: Result<Progress>)
    requires builder.Valid() && builder.ctx == ctx && ValidWork(work) && job == JobOf(v, work)
             && Coordinator.ValidJob(job)
    requires Placed(job, builder.State(), p0) && p0.merged !in p0.pending
    modifies builder, builder.payload, builder.forest
    ensures r.Success? ==> builder.Valid() && Placed(job, builder.State(), r.value)
    ensures r.Success? ==> r.value.merged == |job.scans| && r.value.merged !in r.value.pending
    ensures r.Fail? ==>
              || (r.error == Canceled && ctx.Cancelable?)
              || (r.error == Overflow && Coordinator.Overfull(job))
              || Panicked(r.error) in work.replies
    ensures r.Fail? ==> Ends(job, PanicStatus(r.error), None)
  {
    hide BatchBuilder.Valid, BatchBuilder.State, Placed, Coordinator.ValidJob, Coordinator.Overfull, Ends;
    Cancels(job);
    var n, p := |work.replies|, p0;
    PlacedWithin(job, builder.State(), p);
    while p.merged < n
      invariant builder.Valid() && Placed(job, builder.State(), p)
      invariant p.merged <= n && |p.pending| <= n && p.merged !in p.pending
      decreases n - p.merged, n - |p.pending|
    {
      WorkRemains(job, builder.State(), p);
      var canceled := CheckContext(ctx);
      if canceled {
        return Fail(Canceled);
      }
      var i :| i in p.working;
      var q :- Receive(ctx, v, work, builder, job, p, i);
      p :- DrainHeld(ctx, builder, n, job, q);
      PlacedWithin(job, builder.State(), p);
    }
    return Success(p);
  }

  /** Freezing what has been ingested. */
  method Conclude(ctx: Context, builder: BatchBuilder, ghost v: Fixes.Versions, ghost work: Work, ghost p: Progress)
    returns (r: Result<Frozen>)
    requires builder.Valid() && builder.ctx == ctx && ValidWork(work) && Coordinator.ValidJob(JobOf(v, work))
    requires Placed(JobOf(v, work), builder.State(), p) && p.merged == |work.replies| && p.merged !in p.pending
    modifies builder.payload, builder.forest
    ensures r.Success? ==>
              var fold := SequentialFold(Coordinator.FactsUpTo(JobOf(v, work), |work.replies|));
              var rows := AliasTables.TableOf(fold.groups);
              && FrozenFrom(r.value.store, Views(r.value.indexes), fold, rows)
              && Ends(JobOf(v, work), 0, Some(Coordinator.Product(r.value.store, Views(r.value.indexes), rows)))
    ensures r.Success? ==> !Coordinator.Overfull(JobOf(v, work))
    ensures r.Success? ==> forall i :: 0 <= i < |work.replies| ==> work.replies[i].Scanned?
    ensures r.Fail? ==>
              || (r.error == Canceled && ctx.Cancelable?)
              || (r.error == Overflow && Coordinator.Overfull(JobOf(v, work)))
    ensures r.Fail? ==> Ends(JobOf(v, work), PanicStatus(r.error), None)
  {
    hide BatchBuilder.Valid, Placed, FrozenFrom, Coordinator.ValidJob, Coordinator.Overfull, Coordinator.FactsUpTo,
      Ends, Fits, Freezes, SequentialFold, StreamAll;
    ghost var job, intake, batch := JobOf(v, work), builder.State(), builder.batch;
    Cancels(job);
    builder.StateFits();
    AllMerged(v, work, intake, p);
    if !Freezes(intake) {
      FullEnds(job, intake, p);
    }
    var frozen :- Finish(builder);
    ghost var views := Views(frozen.indexes);
    ghost var rows := AliasTables.TableOf(batch.groups);
    var canceled := CheckContext(ctx);
    if canceled {
      return Fail(Canceled);
    }
    assert Views(frozen.indexes) == views;
    FrozenEnds(job, intake, p, Coordinator.Product(frozen.store, views, rows));
    return Success(frozen);
  }

  /** The whole operation. Whichever order the replies come in, the report is frozen from their sequential
      fold, and it is the report of a run of the state machine; a failure is the failure of such a run. */
  method Run(ctx: Context, hash: seq<nat> -> nat, v: Fixes.Versions, work: Work) returns (r: Result<Frozen>)
    requires ValidWork(work)
    ensures r.Success? ==> forall i :: 0 <= i < |work.replies| ==> work.replies[i].Scanned?
    ensures r.Success? ==>
              var fold := SequentialFold(Coordinator.FactsUpTo(JobOf(v, work), |work.replies|));
              var rows := AliasTables.TableOf(fold.groups);
              && FrozenFrom(r.value.store, Views(r.value.indexes), fold, rows)
              && Ends(JobOf(v, work), 0, Some(Coordinator.Product(r.value.store, Views(r.value.indexes), rows)))
    ensures r.Success? ==> !Coordinator.Overfull(JobOf(v, work))
    ensures r.Fail? ==>
              || (r.error == Canceled && ctx.Cancelable?)
              || (r.error == Overflow && Coordinator.Overfull(JobOf(v, work)))
              || Panicked(r.error) in work.replies
    ensures r.Fail? ==> Ends(JobOf(v, work), PanicStatus(r.error), None)
  {
    hide BatchBuilder.Valid, BatchBuilder.State, Placed, FrozenFrom, Coordinator.ValidJob, Coordinator.Overfull, Ends,
      SequentialFold, Coordinator.FactsUpTo, Coordinator.Between;
    JobIsValid(v, work);
    ghost var job := JobOf(v, work);
    Cancels(job);
    var canceled := CheckContext(ctx);
    if canceled {
      return Fail(Canceled);
    }
    var builder := new BatchBuilder(ctx, hash);
    var n := |work.replies|;
    var p :- Fill(ctx, if work.workers < n then work.workers else n);
    PlacedFirst(job, p);
    p :- Ingest(ctx, v, work, builder, job, p);
    r := Conclude(ctx, builder, v, work, p);
  }

  lemma PlacedFirst(job: Coordinator.Job, p: Progress)
    requires p == Progress(Coordinator.Width(job), 0, Coordinator.Between(0, Coordinator.Width(job)), map[])
    requires Coordinator.ValidJob(job)
    ensures Placed(job, EMPTY_INTAKE, p)
  {
    hide Reached, Coordinator.ValidJob;
    ReachedFirst(job);
    assert Coordinator.FactsUpTo(job, 0) == [];
  }

  lemma FullEnds(job: Coordinator.Job, intake: Intake, p: Progress)
    requires Coordinator.ValidJob(job) && Placed(job, intake, p) && p.merged == |job.scans| && p.merged !in p.pending
             && !Freezes(intake)
    ensures Ends(job, PanicStatus(Overflow), None)
  {
    hide Merged, InWindow, Reached, Coordinator.ValidJob, Ends, Freezes;
    FreezingOverflows(job, intake, p);
  }

  lemma FrozenEnds(job: Coordinator.Job, intake: Intake, p: Progress, product: Coordinator.Product)
    requires Coordinator.ValidJob(job) && Placed(job, intake, p) && p.merged == |job.scans| && p.merged !in p.pending
    requires Freezes(intake) && FrozenFrom(product.store, product.indexes, intake.batch, product.rows)
    ensures Ends(job, 0, Some(product))
  {
    hide Merged, InWindow, Reached, Coordinator.ValidJob, Ends, Freezes, FrozenFrom;
    Freezing(job, intake, p, product);
  }

  lemma PlacedWithin(job: Coordinator.Job, intake: Intake, p: Progress)
    requires Placed(job, intake, p)
    ensures p.merged <= |job.scans| && |p.pending| <= |job.scans|
  {
    MergedWithin(job, p);
  }

  /** While an image is missing, some worker has an input. */
  lemma WorkRemains(job: Coordinator.Job, intake: Intake, p: Progress)
    requires Coordinator.ValidJob(job) && Placed(job, intake, p) && p.merged < |job.scans| && p.merged !in p.pending
    ensures p.merged in p.working && forall i :: i in p.working ==> i < |job.scans|
  {
    MergedWithin(job, p);
    assert p.merged in Coordinator.Between(p.merged, p.admitted);
    assert p.merged in p.working + p.pending.Keys;
  }

  lemma AllMerged(v: Fixes.Versions, work: Work, intake: Intake, p: Progress)
    requires ValidWork(work) && Placed(JobOf(v, work), intake, p) && p.merged == |work.replies| && Fits(intake)
    ensures forall i :: 0 <= i < |work.replies| ==> work.replies[i].Scanned?
    ensures intake == StreamAll(Coordinator.FactsUpTo(JobOf(v, work), |work.replies|))
    ensures Batches.Complete(intake.batch)
    ensures intake.batch == SequentialFold(Coordinator.FactsUpTo(JobOf(v, work), |work.replies|))
    ensures Coordinator.Overfull(JobOf(v, work)) <==> !Freezes(intake)
  {
    hide Batches.Complete, Projected, SequentialFold, StreamAll, Fits, Freezes, Projection.FactsOf,
      Coordinator.ValidJob, Held, InWindow;
    var job := JobOf(v, work);
    forall i | 0 <= i < |work.replies|
      ensures work.replies[i].Scanned? && Projected(job.scans[i].facts)
    {
      assert job.scans[i].Answered?;
      Projection.FactsAreProjected(v, work.requests[i], work.replies[i].response);
    }
    FoldComplete(Coordinator.FactsUpTo(job, |work.replies|));
    StreamAllBatch(Coordinator.FactsUpTo(job, |work.replies|));
  }
}
