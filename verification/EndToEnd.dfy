/** From the requests to the answers: whatever the workers' interleaving, a report that completes reads
    like a scan over the inputs taken in one after the other. */
module EndToEnd {
  import opened Common
  import opened Report
  import opened Aliases
  import opened Batches
  import opened Intakes
  import opened Indexes
  import opened Builder
  import opened Finishing
  import opened Query
  import opened Answers
  import opened Closure
  import opened Coordinator
  import opened Runs
  import opened Operations
  import AliasTables
  import Diagnostics
  import Logs
  import Reporting
  import Fixes
  import Projection

  /** What the replies say, taken in one after the other. */
  ghost function InOrder(v: Fixes.Versions, work: Work): Batch
    requires ValidWork(work)
  {
    SequentialFold(FactsUpTo(JobOf(v, work), |work.replies|))
  }

  lemma {:induction false} CallsKeepImages(b: Batch, calls: seq<SinkCall>)
    ensures ApplyAll(b, calls).images == b.images
  {
    if calls != [] {
      CallsKeepImages(b, calls[..|calls| - 1]);
    }
  }

  /** The fold has one image per input, in input order. */
  lemma {:induction false} FoldImages(facts: seq<Facts>)
    ensures |SequentialFold(facts).images| == |facts|
    ensures forall i :: 0 <= i < |facts| ==> SequentialFold(facts).images[i] == facts[i].image
  {
    if facts != [] {
      var n := |facts| - 1;
      FoldImages(facts[..n]);
      CallsKeepImages(SequentialFold(facts[..n]), facts[n].calls);
    }
  }

  /** Projected images never have too many diagnostics to count. */
  lemma ImagesReadable(v: Fixes.Versions, work: Work)
    requires ValidWork(work) && AllAnswered(JobOf(v, work), |work.replies|)
    ensures AllReadable(InOrder(v, work))
  {
    hide SequentialFold, Projection.FactsOf;
    var job := JobOf(v, work);
    var facts := FactsUpTo(job, |work.replies|);
    FoldImages(facts);
    forall i | 0 <= i < |facts|
      ensures ReadableImage(facts[i].image)
    {
      assert job.scans[i].Answered?;
      Diagnostics.DiagnosticsAreFew(v, work.requests[i], work.replies[i].response);
    }
  }

  /** What the fold is, in terms of the replies alone: it holds exactly the calls that the responses ask for,
      in the order of the inputs, and their image records. */
  lemma InOrderReports(v: Fixes.Versions, work: Work) returns (facts: seq<Facts>)
    requires ValidWork(work) && AllAnswered(JobOf(v, work), |work.replies|)
    ensures |facts| == |work.replies|
    ensures forall i :: 0 <= i < |facts| ==>
              work.replies[i].Scanned? &&
              Reporting.AreCalls(v, work.requests[i], work.replies[i].response, facts[i].calls)
    ensures Logs.Holds(InOrder(v, work), Logs.LogOf(facts))
    ensures |InOrder(v, work).images| == |facts|
    ensures forall i :: 0 <= i < |facts| ==>
              Diagnostics.IsImage(work.requests[i], work.replies[i].response, InOrder(v, work).images[i])
  {
    hide SequentialFold, Projection.FactsOf, Reporting.AreCalls, Diagnostics.IsImage, Logs.Holds;
    var job := JobOf(v, work);
    facts := FactsUpTo(job, |work.replies|);
    forall i | 0 <= i < |facts|
      ensures work.replies[i].Scanned? && WellOrdered(facts[i].calls)
      ensures Reporting.AreCalls(v, work.requests[i], work.replies[i].response, facts[i].calls)
      ensures Diagnostics.IsImage(work.requests[i], work.replies[i].response, facts[i].image)
    {
      assert job.scans[i].Answered?;
      Projection.FactsAreProjected(v, work.requests[i], work.replies[i].response);
      Reporting.CallsAre(v, work.requests[i], work.replies[i].response);
      Diagnostics.ImageIs(v, work.requests[i], work.replies[i].response);
    }
    FoldImages(facts);
    Logs.FoldHolds(facts);
  }

  /** Every read of a report that was frozen from the fold answers what scanning the fold answers:
      texts, lists, references and all sixteen relations. */
  lemma FrozenAnswers(v: Fixes.Versions, work: Work, store: ReportStore, indexes: seq<Index>, rows: seq<Vulnerability>,
                      kind: nat, row: nat, sub: nat, field: nat, index: int)
    requires ValidWork(work) && AllAnswered(JobOf(v, work), |work.replies|)
    requires FrozenFrom(store, indexes, InOrder(v, work), rows)
    ensures AliasTables.IsTable(InOrder(v, work).groups, rows)
    ensures Value(store, indexes, kind, row, sub, field, index)
            == Answer(InOrder(v, work), rows, kind, row, sub, field, index)
  {
    hide Value, Answer, FrozenFrom, InOrder, ReadableImage, JobOf, ValidWork, AllAnswered;
    ImagesReadable(v, work);
    FrozenRows(store, indexes, InOrder(v, work), rows);
    TableOf(store, InOrder(v, work), rows);
    ReadsAgree(store, indexes, InOrder(v, work), rows, kind, row, sub, field, index);
  }

  // ---------------------------------------------------------------- every interleaving

  /** A run of the coordinator over the inputs that completed with status zero. */
  ghost predicate Completed(v: Fixes.Versions, work: Work, states: seq<State>) {
    && ValidWork(work) && IsRun(JobOf(v, work), states)
    && states[|states| - 1].phase == Done && states[|states| - 1].status == 0
  }

  ghost function ReportOf(v: Fixes.Versions, work: Work, states: seq<State>): (report: Product)
    requires Completed(v, work, states)
    ensures AllAnswered(JobOf(v, work), |work.replies|)
    ensures FrozenFrom(report.store, report.indexes, InOrder(v, work), report.rows)
  {
    hide FrozenFrom, SequentialFold, FactsUpTo, ValidJob, IsRun, JobOf;
    JobIsValid(v, work);
    CompletedRun(JobOf(v, work), states);
    states[|states| - 1].report.value
  }

  /** For every interleaving that completes: the report reads like the fold of the inputs. */
  lemma CompletedReportAnswers(v: Fixes.Versions, work: Work, states: seq<State>, kind: nat, row: nat, sub: nat,
                               field: nat, index: int)
    requires Completed(v, work, states)
    ensures var report := ReportOf(v, work, states);
            && AliasTables.IsTable(InOrder(v, work).groups, report.rows)
            && Value(report.store, report.indexes, kind, row, sub, field, index)
               == Answer(InOrder(v, work), report.rows, kind, row, sub, field, index)
  {
    hide Value, Answer, FrozenFrom, InOrder, JobOf, AllAnswered, IsRun, AliasTables.IsTable;
    var report := ReportOf(v, work, states);
    FrozenAnswers(v, work, report.store, report.indexes, report.rows, kind, row, sub, field, index);
  }

  /** Two completed operations over the same inputs give the same answers to every read, whatever the
      number of workers, the order in which results arrived, and how they were buffered. */
  lemma ScheduleIndependence(v: Fixes.Versions, work: Work, states: seq<State>, other: Work, others: seq<State>,
                             kind: nat, row: nat, sub: nat, field: nat, index: int)
    requires Completed(v, work, states) && Completed(v, other, others)
    requires work.requests == other.requests && work.replies == other.replies
    ensures Value(ReportOf(v, work, states).store, ReportOf(v, work, states).indexes, kind, row, sub, field, index)
            == Value(ReportOf(v, other, others).store, ReportOf(v, other, others).indexes, kind, row, sub, field, index)
  {
    hide Value, Answer, Completed, ReportOf, AliasTables.IsTable, InOrder, AliasTables.Rearranges;
    CompletedIsValid(v, work, states);
    CompletedIsValid(v, other, others);
    SameInputs(v, work, other);
    CompletedReportAnswers(v, work, states, kind, row, sub, field, index);
    CompletedReportAnswers(v, other, others, kind, row, sub, field, index);
    var groups := InOrder(v, work).groups;
    SameGroups(groups);
    AliasTables.TableUnique(groups, groups, ReportOf(v, work, states).rows, ReportOf(v, other, others).rows);
  }

  lemma CompletedIsValid(v: Fixes.Versions, work: Work, states: seq<State>)
    requires Completed(v, work, states)
    ensures ValidWork(work)
  {
  }

  lemma SameInputs(v: Fixes.Versions, work: Work, other: Work)
    requires ValidWork(work) && ValidWork(other) && work.requests == other.requests && work.replies == other.replies
    ensures InOrder(v, work) == InOrder(v, other)
  {
    hide SequentialFold, Projection.FactsOf;
    assert JobOf(v, work).scans == JobOf(v, other).scans;
    assert FactsUpTo(JobOf(v, work), |work.replies|) == FactsUpTo(JobOf(v, other), |other.replies|);
  }

  lemma SameGroups(groups: seq<seq<string>>)
    ensures AliasTables.Rearranges(groups, groups)
  {
  }

  /** In a completed report every chain of reads from the root that uses fields of the objects and
      indexes below the reported lengths succeeds, and no other read does. */
  lemma CompletedReportIsClosed(v: Fixes.Versions, work: Work, states: seq<State>, steps: seq<(nat, int)>,
                                kind: nat, row: nat, sub: nat, field: nat, index: int)
    requires Completed(v, work, states)
    requires Reachable(ReportOf(v, work, states).store, ReportOf(v, work, states).indexes, steps, kind, row, sub)
    ensures var report := ReportOf(v, work, states);
            var length := Value(report.store, report.indexes, kind, row, sub, field, -1);
            Value(report.store, report.indexes, kind, row, sub, field, index).Success? <==>
            HasField(kind, field) && (length.Success? && length.value.Count? ==> index < length.value.n)
  {
    hide Value, Reachable, FrozenFrom, InOrder, JobOf, AllAnswered, IsRun, HasField, AllReadable;
    var report := ReportOf(v, work, states);
    ImagesReadable(v, work);
    ReachableReads(report.store, report.indexes, InOrder(v, work), report.rows, steps, kind, row, sub, field, index);
  }

  // ---------------------------------------------------------------- the outcome

  /** Nobody canceled, every scan answered, and the operation is done. */
  ghost predicate Undisturbed(v: Fixes.Versions, work: Work, states: seq<State>) {
    && ValidWork(work) && AllAnswered(JobOf(v, work), |work.replies|)
    && IsRun(JobOf(v, work), states)
    && states[|states| - 1].phase == Done && !states[|states| - 1].canceled
  }

  /** Two undisturbed operations over the same inputs end in the same way, and with the same answers:
      either both overflow, because the inputs exceed a limit, or both complete. */
  lemma OutcomeIndependence(v: Fixes.Versions, work: Work, states: seq<State>, other: Work, others: seq<State>)
    requires Undisturbed(v, work, states) && Undisturbed(v, other, others)
    requires work.requests == other.requests && work.replies == other.replies
    ensures states[|states| - 1].status == others[|others| - 1].status
    ensures Completed(v, work, states) <==> !Overfull(JobOf(v, work))
    ensures Completed(v, work, states) <==> Completed(v, other, others)
  {
    hide ValidJob, IsRun, Overfull, JobOf, AllAnswered;
    JobIsValid(v, work);
    JobIsValid(v, other);
    OutcomeIsDetermined(JobOf(v, work), states);
    OutcomeIsDetermined(JobOf(v, other), others);
    SameLimits(v, work, other);
  }

  lemma SameLimits(v: Fixes.Versions, work: Work, other: Work)
    requires ValidWork(work) && ValidWork(other) && work.requests == other.requests && work.replies == other.replies
    ensures Overfull(JobOf(v, work)) <==> Overfull(JobOf(v, other))
  {
    hide Projection.FactsOf, StreamAll, Fits, Freezes;
    assert JobOf(v, work).scans == JobOf(v, other).scans;
    assert FactsUpTo(JobOf(v, work), |work.replies|) == FactsUpTo(JobOf(v, other), |other.replies|);
  }

  /** Completed operations exist: over any inputs within the limits whose scans all answer. */
  lemma CompletedExists(v: Fixes.Versions, work: Work) returns (states: seq<State>)
    requires ValidWork(work) && AllAnswered(JobOf(v, work), |work.replies|) && !Overfull(JobOf(v, work))
    ensures Completed(v, work, states)
  {
    hide ValidJob, IsRun, Overfull, JobOf, AllAnswered;
    JobIsValid(v, work);
    states := CompletedRunExists(JobOf(v, work));
  }

  /** The smallest of them: an operation without inputs. */
  lemma NoInputsComplete(v: Fixes.Versions) returns (states: seq<State>)
    ensures Completed(v, Work([], [], 1), states)
    ensures InOrder(v, Work([], [], 1)) == EMPTY_BATCH
  {
    var work := Work([], [], 1);
    var all := FactsUpTo(JobOf(v, work), 0);
    assert all == [];
    EmptyFreezes();
    states := CompletedExists(v, work);
  }

  lemma EmptyFreezes()
    ensures Fits(EMPTY_INTAKE) && Freezes(EMPTY_INTAKE)
  {
    EmptyPacked();
    assert AliasTables.IsTable([], []);
    AliasTables.TableIs([], []);
  }
}
