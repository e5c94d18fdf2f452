/** What all runs of the coordinator have in common: sends never block, nothing gets stuck, every run
    ends, completion comes after all workers have left, and the report does not depend on the order
    in which results arrive. */
module Runs {
  import opened Common
  import opened Report
  import opened Batches
  import opened Intakes
  import opened Indexes
  import opened Finishing
  import opened Coordinator
  import AliasTables

  // ---------------------------------------------------------------- no blocking, no deadlock

  lemma {:induction false} BusyWorker(workers: seq<Worker>, w: nat)
    requires w < |workers| && workers[w].Delivering?
    ensures |JobsOf(workers)| >= 1
  {
    JobsOfUpdate(workers, w, Idle);
    FewerFit(InHand(workers[w]), JobsOf(workers));
  }

  /** Whenever the coordinator or a worker sends, the channel has room. */
  lemma SendsNeverBlock(job: Job, s: State)
    requires Inv(job, s)
    ensures s.phase == Filling || s.phase == Admitting ==> |s.jobs| < Width(job)
    ensures forall w :: 0 <= w < |s.workers| && s.workers[w].Delivering? ==> |s.results| < Width(job)
    ensures |s.jobs| <= Width(job) && |s.results| <= Width(job)
  {
    hide Width, InFlight, JobsOf, Between, Folded, Reported, Genuine, Staff;
    FlightFits(s);
    forall w | 0 <= w < |s.workers| && s.workers[w].Delivering?
      ensures |s.results| < Width(job)
    {
      BusyWorker(s.workers, w);
    }
  }

  /** Some step other than cancellation is possible. */
  ghost predicate CanStep(job: Job, s: State) {
    exists step, s' :: step != Cancel && Next(job, s, step, s')
  }

  lemma TakesStep(job: Job, s: State, step: Step, s': State)
    requires step != Cancel && Next(job, s, step, s')
    ensures CanStep(job, s)
  {
  }

  /** While the coordinator waits, the next image is somewhere with the workers. */
  lemma NextIsInWork(job: Job, s: State)
    requires ValidJob(job) && Inv(job, s) && s.phase == Selecting && !s.canceled && s.results == []
    ensures |s.workers| > 0 && s.workers[0] != Exited
    ensures s.jobs != [] || exists w :: 0 <= w < |s.workers| && (s.workers[w].Scanning? || s.workers[w].Delivering?)
  {
    hide Folded, Reported, Genuine;
    assert Between(s.merged, s.admitted) >= {s.merged};
    assert s.merged in InFlight(s);
    if s.jobs == [] {
      assert s.merged in JobsOf(s.workers);
      SomeoneWorks(s.workers, s.merged);
    }
  }

  lemma {:induction false} SomeoneWorks(workers: seq<Worker>, i: nat)
    requires i in JobsOf(workers)
    ensures exists w :: 0 <= w < |workers| && (workers[w].Scanning? || workers[w].Delivering?)
  {
    var n := |workers| - 1;
    if i in JobsOf(workers[..n]) {
      SomeoneWorks(workers[..n], i);
      var w :| 0 <= w < n && (workers[..n][w].Scanning? || workers[..n][w].Delivering?);
      assert workers[w].Scanning? || workers[w].Delivering?;
    } else {
      assert i in InHand(workers[n]);
    }
  }

  /** A worker that has not left can move, if there is work or it is told to stop. */
  lemma WorkerSteps(job: Job, s: State, w: nat)
    requires Inv(job, s) && w < |s.workers| && s.workers[w] != Exited
    requires s.workers[w] == Idle ==> s.jobs != [] || Stopped(s)
    ensures CanStep(job, s)
  {
    SendsNeverBlock(job, s);
    match s.workers[w] {
      case Idle =>
        if s.jobs != [] {
          TakesStep(job, s, TakeJob(w), s.(jobs := s.jobs[1..], workers := s.workers[w := Scanning(s.jobs[0])]));
        } else {
          TakesStep(job, s, Leave(w), s.(workers := s.workers[w := Exited]));
        }
      case Scanning(j) =>
        ScannedIsInput(job, s, w);
        TakesStep(job, s, EndScan(w, job.scans[j]), s.(workers := s.workers[w := Delivering(Item(j, job.scans[j]))]));
      case Delivering(item) =>
        TakesStep(job, s, Deliver(w), s.(results := s.results + [item], workers := s.workers[w := Idle]));
    }
  }

  lemma ScannedIsInput(job: Job, s: State, w: nat)
    requires Window(job, s) && Partition(s) && w < |s.workers| && s.workers[w].Scanning?
    ensures s.workers[w].job < |job.scans|
  {
    hide JobsOf, IndexesOf;
    JobsOfUpdate(s.workers, w, Idle);
    assert s.workers[w].job in JobsOf(s.workers);
    assert s.workers[w].job in InFlight(s);
  }

  lemma WaitingSteps(job: Job, s: State)
    requires s.phase == Selecting && (s.canceled || s.results != [])
    ensures CanStep(job, s)
  {
    hide CanStep, Width;
    if s.canceled {
      TakesStep(job, s, Receive, Unwind(s, PanicStatus(Canceled)));
    } else {
      var item, rest := s.results[0], s.(results := s.results[1..]);
      match item.scan {
        case Panicked(failure) => TakesStep(job, s, Receive, Unwind(rest, PanicStatus(failure)));
        case Answered(facts) =>
          if item.index == s.merged {
            TakesStep(job, s, Receive, Advanced(job, rest, Stream(s.intake, facts)));
          } else {
            TakesStep(job, s, Receive,
              rest.(pending := s.pending[item.index := BufferAll(facts.image, facts.calls)], phase := Draining));
          }
      }
    }
  }

  lemma MergingSteps(job: Job, s: State)
    requires s.phase == Draining
    ensures CanStep(job, s)
  {
    hide CanStep, Width;
    var rest := s.(pending := s.pending - {s.merged});
    if s.merged !in s.pending {
      TakesStep(job, s, Drain, s.(phase := if s.merged < |job.scans| then Selecting else Finishing));
    } else if s.canceled {
      TakesStep(job, s, Drain, Unwind(rest, PanicStatus(Canceled)));
    } else {
      TakesStep(job, s, Drain, Advanced(job, rest, Absorb(s.intake, s.pending[s.merged])));
    }
  }

  /** What has been taken in is complete and packed. */
  lemma IntakeReady(job: Job, s: State)
    requires ValidJob(job) && Folded(job, s)
    ensures AllPacked(s.intake) && Fits(s.intake) && Complete(s.intake.batch)
    ensures s.intake.batch == SequentialFold(FactsUpTo(job, s.merged))
  {
    hide AllPacked, Fits, Complete, Projected, StreamAll, SequentialFold;
    var facts := FactsUpTo(job, s.merged);
    forall i | 0 <= i < |facts|
      ensures Projected(facts[i])
    {
      assert job.scans[i].Answered?;
    }
    StreamAllBatch(facts);
    StreamAllPacked(facts);
    FoldComplete(facts);
  }

  /** Freezing succeeds exactly when there is room: what has room has a frozen form. */
  lemma FinishingSteps(job: Job, s: State)
    requires ValidJob(job) && Inv(job, s) && s.phase == Finishing
    ensures CanStep(job, s)
  {
    hide CanStep, Window, Partition, Staff, Genuine, Reported, Folded, AllPacked, Fits, Complete, Freezes, FrozenFrom;
    IntakeReady(job, s);
    if s.canceled {
      TakesStep(job, s, Finish(None), Unwind(s, PanicStatus(Canceled)));
    } else if !Freezes(s.intake) {
      TakesStep(job, s, Finish(None), Unwind(s, PanicStatus(Overflow)));
    } else {
      var store, indexes := FrozenExists(s.intake);
      var product := Some(Product(store, indexes, AliasTables.TableOf(s.intake.batch.groups)));
      TakesStep(job, s, Finish(product), Unwind(s, 0).(report := product));
    }
  }

  lemma CoordinatorSteps(job: Job, s: State)
    requires Inv(job, s)
    requires s.phase == Starting || s.phase == Filling || s.phase == Admitting || (s.phase == Unwinding && !s.stopping)
    ensures CanStep(job, s)
  {
    SendsNeverBlock(job, s);
    hide Inv, Width, CanStep;
    match s.phase {
      case Starting =>
        TakesStep(job, s, Begin, if s.canceled then s.(phase := Done, status := PanicStatus(Canceled))
                                 else s.(phase := if Width(job) == 0 then Finishing else Filling,
                                   workers := seq(Width(job), _ => Idle)));
      case Filling | Admitting =>
        TakesStep(job, s, Admit, if s.canceled then Unwind(s, PanicStatus(Canceled))
                                 else s.(jobs := s.jobs + [s.admitted], admitted := s.admitted + 1,
                                         phase := if s.phase == Admitting then Draining
                                           else if s.admitted + 1 < Width(job) then Filling else Selecting));
      case Unwinding =>
        TakesStep(job, s, Stop, s.(stopping := true));
    }
  }

  /** No reachable state is stuck: until the operation is done, the coordinator or a worker can step. */
  lemma NeverStuck(job: Job, s: State)
    requires ValidJob(job) && Inv(job, s) && s.phase != Done
    ensures CanStep(job, s)
  {
    hide CanStep;
    if s.phase == Selecting && !s.canceled && s.results == [] {
      NextIsInWork(job, s);
      hide Inv;
      if s.jobs != [] {
        WorkerSteps(job, s, 0);
      } else {
        var w :| 0 <= w < |s.workers| && (s.workers[w].Scanning? || s.workers[w].Delivering?);
        WorkerSteps(job, s, w);
      }
    } else if s.phase == Unwinding && s.stopping {
      if w :| 0 <= w < |s.workers| && s.workers[w] != Exited {
        WorkerSteps(job, s, w);
      } else {
        TakesStep(job, s, Join, s.(phase := Done));
      }
    } else if s.phase == Selecting {
      WaitingSteps(job, s);
    } else if s.phase == Draining {
      MergingSteps(job, s);
    } else if s.phase == Finishing {
      FinishingSteps(job, s);
    } else {
      CoordinatorSteps(job, s);
    }
  }

  // ---------------------------------------------------------------- every run ends

  function WorkerWeight(w: Worker): nat {
    match w
    case Idle => 1
    case Scanning(_) => 17
    case Delivering(_) => 13
    case Exited => 0
  }

  function Weight(workers: seq<Worker>): nat {
    if workers == [] then 0 else Weight(workers[..|workers| - 1]) + WorkerWeight(workers[|workers| - 1])
  }

  lemma {:induction false} WeightUpdate(workers: seq<Worker>, w: nat, x: Worker)
    requires w < |workers|
    ensures Weight(workers[w := x]) == Weight(workers) - WorkerWeight(workers[w]) + WorkerWeight(x)
  {
    hide WorkerWeight;
    var n := |workers| - 1;
    if w == n {
      assert workers[w := x][..n] == workers[..n];
    } else {
      WeightUpdate(workers[..n], w, x);
      assert workers[w := x][..n] == workers[..n][w := x];
    }
  }

  lemma {:induction false} WeightIdle(workers: seq<Worker>)
    requires forall w :: 0 <= w < |workers| ==> workers[w] == Idle
    ensures Weight(workers) == |workers|
  {
    if workers != [] {
      WeightIdle(workers[..|workers| - 1]);
    }
  }

  function Rank(job: Job, s: State): nat {
    match s.phase
    case Starting => 6 + Width(job)
    case Filling | Admitting => 5
    case Draining => 4
    case Selecting | Finishing => 3
    case Unwinding => if s.stopping then 1 else 2
    case Done => 0
  }

  /** How much is left to do: every input still to go through its stages, every worker still to
      leave, and the phases still to come. */
  function Measure(job: Job, s: State): nat
    requires s.admitted <= |job.scans|
  {
    24 * (|job.scans| - s.admitted) + 20 * |s.jobs| + Weight(s.workers) + 8 * |s.results| + 4 * |s.pending|
    + Rank(job, s) + if s.canceled then 0 else 1
  }

  lemma PendingSize(pending: map<nat, Pending>, i: nat, p: Pending)
    ensures |pending[i := p]| <= |pending| + 1
    ensures i in pending ==> |pending - {i}| == |pending| - 1
  {
    var added := pending[i := p];
    assert added.Keys == pending.Keys + {i};
    assert |added| == |added.Keys| && |pending| == |pending.Keys|;
    if i in pending {
      var removed := pending - {i};
      assert pending.Keys == removed.Keys + {i};
      assert |removed| == |removed.Keys|;
    }
  }

  lemma WorkersDecrease(job: Job, s: State, step: Step, s': State)
    requires s.admitted <= |job.scans| && Next(job, s, step, s')
             && (step.TakeJob? || step.EndScan? || step.Deliver? || step.Leave?)
    ensures s'.admitted <= |job.scans| && Measure(job, s') < Measure(job, s)
  {
    hide Weight, Width;
    var w := step.w;
    WeightUpdate(s.workers, w, s'.workers[w]);
    assert s'.workers == s.workers[w := s'.workers[w]];
  }

  lemma DrainDecreases(job: Job, s: State, s': State)
    requires s.admitted <= |job.scans| && NextDrain(job, s, s')
    ensures s'.admitted <= |job.scans| && Measure(job, s') < Measure(job, s)
  {
    hide Weight, Width, Stream, Absorb, Fits, BufferAll;
    PendingSize(s.pending, s.merged, Pending(Image("", None, "", []), [], []));
  }

  lemma LessHeld(job: Job, s: State, s': State)
    requires s.admitted <= |job.scans|
    requires s'.admitted == s.admitted && s'.jobs == s.jobs && s'.workers == s.workers && s'.canceled == s.canceled
    requires 8 * |s'.results| + 4 * |s'.pending| + Rank(job, s') < 8 * |s.results| + 4 * |s.pending| + Rank(job, s)
    ensures Measure(job, s') < Measure(job, s)
  {
    hide Weight, Rank;
  }

  lemma ReceiveFrame(job: Job, s: State, s': State)
    requires NextReceive(job, s, s')
    ensures s'.admitted == s.admitted && s'.jobs == s.jobs && s'.workers == s.workers && s'.canceled == s.canceled
    ensures s'.stopping == s.stopping
  {
    hide Stream, Fits, BufferAll, Width;
  }

  lemma ReceivePhases(job: Job, s: State, s': State)
    requires NextReceive(job, s, s')
    ensures Rank(job, s) == 3 && (s'.phase == Unwinding || s'.phase == Draining || s'.phase == Admitting)
  {
    hide Stream, Fits, BufferAll, Width;
  }

  lemma ReceiveTakes(job: Job, s: State, s': State)
    requires NextReceive(job, s, s')
    ensures if s'.phase == Unwinding then |s'.results| <= |s.results| else |s'.results| + 1 == |s.results|
  {
    hide Stream, Fits, BufferAll, Width;
  }

  lemma ReceiveHolds(job: Job, s: State, s': State)
    requires NextReceive(job, s, s')
    ensures s'.phase == Unwinding ==> s'.pending == s.pending
    ensures |s'.pending| <= |s.pending| + 1
  {
    hide Stream, Fits, BufferAll, Width;
    if s.results != [] && s.results[0].scan.Answered? {
      var facts := s.results[0].scan.facts;
      PendingSize(s.pending, s.results[0].index, BufferAll(facts.image, facts.calls));
    }
  }

  lemma ReceiveDecreases(job: Job, s: State, s': State)
    requires s.admitted <= |job.scans| && NextReceive(job, s, s')
    ensures s'.admitted <= |job.scans| && Measure(job, s') < Measure(job, s)
  {
    hide NextReceive, Measure;
    ReceiveFrame(job, s, s');
    ReceivePhases(job, s, s');
    ReceiveTakes(job, s, s');
    ReceiveHolds(job, s, s');
    LessHeld(job, s, s');
  }

  /** Every step, cancellation included, leaves strictly less to do. */
  lemma StepsDecrease(job: Job, s: State, step: Step, s': State)
    requires Inv(job, s) && Inv(job, s') && Next(job, s, step, s')
    ensures s.admitted <= |job.scans| && s'.admitted <= |job.scans| && Measure(job, s') < Measure(job, s)
  {
    hide Weight, Width, Partition, Folded, Reported, Genuine, NextTakeJob, NextEndScan, NextDeliver, NextLeave,
      NextReceive, NextDrain, FrozenFrom;
    match step {
      case TakeJob(_) => WorkersDecrease(job, s, step, s');
      case EndScan(_, _) => WorkersDecrease(job, s, step, s');
      case Deliver(_) => WorkersDecrease(job, s, step, s');
      case Leave(_) => WorkersDecrease(job, s, step, s');
      case Receive => ReceiveDecreases(job, s, s');
      case Drain => DrainDecreases(job, s, s');
      case Begin => WeightIdle(s'.workers);
      case _ =>
    }
  }

  lemma OnlyCancelCancels(job: Job, s: State, step: Step, s': State)
    requires Next(job, s, step, s') && step != Cancel
    ensures s'.canceled == s.canceled
  {
    hide Stream, Absorb, Fits, Freezes, BufferAll, Width, FrozenFrom;
  }

  /** From every reachable state the operation can complete, and since every step leaves less to do,
      it does: no run goes on forever and none stops early. */
  lemma {:induction false} Completes(job: Job, s: State) returns (tail: seq<State>)
    requires ValidJob(job) && Inv(job, s) && s.admitted <= |job.scans|
    ensures tail != [] && tail[0] == s && tail[|tail| - 1].phase == Done
    ensures forall i :: 0 <= i < |tail| - 1 ==> Steps(job, tail[i], tail[i + 1])
    ensures |tail| <= Measure(job, s) + 1
    ensures tail[|tail| - 1].canceled == s.canceled
    decreases Measure(job, s)
  {
    hide Inv, Measure, ValidJob, Next;
    if s.phase == Done {
      tail := [s];
    } else {
      NeverStuck(job, s);
      var step, s' :| step != Cancel && Next(job, s, step, s');
      StepKeeps(job, s, step, s');
      StepsDecrease(job, s, step, s');
      OnlyCancelCancels(job, s, step, s');
      var rest := Completes(job, s');
      assert Steps(job, s, s');
      tail := [s] + rest;
    }
  }

  /** A run has no more states than its inputs and workers account for. */
  lemma {:induction false} RunsAreBounded(job: Job, states: seq<State>, n: nat)
    requires ValidJob(job) && IsRun(job, states) && n < |states|
    ensures states[n].admitted <= |job.scans| && n + Measure(job, states[n]) <= 24 * |job.scans| + Width(job) + 7
  {
    hide Inv, ValidJob, Next, Width;
    RunKeeps(job, states, n);
    if n > 0 {
      RunsAreBounded(job, states, n - 1);
      RunKeeps(job, states, n - 1);
      assert Steps(job, states[n - 1], states[n - 1 + 1]);
      var step :| Next(job, states[n - 1], step, states[n]);
      StepsDecrease(job, states[n - 1], step, states[n]);
    }
  }

  // ---------------------------------------------------------------- completion

  /** Completion is signalled only after every worker has left, and nothing moves afterwards. */
  lemma DoneIsFinal(job: Job, s: State, step: Step, s': State)
    requires Inv(job, s) && s.phase == Done
    ensures forall w :: 0 <= w < |s.workers| ==> s.workers[w] == Exited
    ensures Next(job, s, step, s') ==> step == Cancel
  {
    hide Partition, Folded, Reported, Genuine, Window;
  }

  /** Where a step's status comes from: nowhere else than cancellation, inputs that exceed a limit, or a
      panic in a scan. */
  lemma StatusComesFrom(job: Job, s: State, step: Step, s': State)
    requires ValidJob(job) && Inv(job, s) && Next(job, s, step, s') && s'.status != s.status
    ensures || (s'.status == PanicStatus(Canceled) && s.canceled)
            || (s'.status == PanicStatus(Overflow) && Overfull(job))
            || ScanPanics(job, s'.status)
  {
    hide Partition, Width, Staff, FrozenFrom, Stream, Absorb, BufferAll, Overfull, Fits, Freezes, StreamAll;
    match step {
      case Receive =>
        if !s.canceled {
          SelectingIsLive(job, s);
          assert GenuineItem(job, s.results[0]);
          if s.results[0].scan.Answered? && s.results[0].index == s.merged {
            TooMuch(job, s);
          }
        }
      case Drain =>
        if s.merged in s.pending && !s.canceled {
          HeldMerges(job, s);
          TooMuch(job, s);
        }
      case Finish(_) => FinishTooMuch(job, s);
      case _ =>
    }
  }

  /** An image that does not fit makes the inputs too much. */
  lemma TooMuch(job: Job, s: State)
    requires Folded(job, s) && s.merged < |job.scans| && job.scans[s.merged].Answered?
    ensures !Fits(Stream(s.intake, job.scans[s.merged].facts)) ==> Overfull(job)
  {
    hide Fits, Freezes, Stream, StreamAll;
    FoldNext(job, s.merged);
    var all := FactsUpTo(job, |job.scans|);
    assert all[..s.merged + 1] == FactsUpTo(job, s.merged + 1);
    if Fits(StreamAll(all)) {
      StreamAllFits(all, s.merged + 1);
    }
  }

  lemma FinishTooMuch(job: Job, s: State)
    requires Folded(job, s)
    ensures s.merged == |job.scans| && !Freezes(s.intake) ==> Overfull(job)
  {
    hide Fits, Freezes, StreamAll;
  }

  /** Schedule independence: however the workers interleave, a run that completes with status zero
      has had an answer for every input, and its report is frozen from the sequential fold of the
      projected answers in input order. */
  lemma CompletedRun(job: Job, states: seq<State>)
    requires ValidJob(job) && IsRun(job, states)
    requires var s := states[|states| - 1]; s.phase == Done && s.status == 0
    ensures AllAnswered(job, |job.scans|)
    ensures var s := states[|states| - 1];
            && s.report.Some?
            && FrozenFrom(s.report.value.store, s.report.value.indexes, SequentialFold(FactsUpTo(job, |job.scans|)),
               s.report.value.rows)
  {
    hide FrozenFrom, SequentialFold, StreamAll, Fits, FactsUpTo, ValidJob, Partition, Genuine, Complete, AllPacked;
    RunKeeps(job, states, |states| - 1);
    IntakeReady(job, states[|states| - 1]);
  }

  /** A run that does not complete with status zero transfers no report. */
  lemma FailedRun(job: Job, states: seq<State>)
    requires ValidJob(job) && IsRun(job, states)
    ensures var s := states[|states| - 1]; s.report.Some? ==> (s.phase == Done || s.phase == Unwinding) && s.status == 0
  {
    hide FrozenFrom, ValidJob, Partition, Genuine, Folded, Staff;
    RunKeeps(job, states, |states| - 1);
  }

  // ---------------------------------------------------------------- the same, of every run

  /** In every run: merged images are admitted, no more inputs are in flight than workers were asked for, no
      input is in two places, and until someone stops the workers every admitted input is merged or in flight.
      There are as many workers as were asked for, but no more than inputs. */
  lemma WindowHolds(job: Job, states: seq<State>, n: nat)
    requires ValidJob(job) && IsRun(job, states) && n < |states|
    ensures var s := states[n];
            && s.merged <= s.admitted <= |job.scans| && s.admitted <= s.merged + job.workers
            && InFlight(s) <= multiset(Between(s.merged, s.admitted))
            && |s.jobs| + |JobsOf(s.workers)| + |s.results| + |s.pending| <= job.workers
            && (s.phase != Starting && s.phase != Done ==>
                  |s.workers| == if job.workers < |job.scans| then job.workers else |job.scans|)
            && (!Stopped(s) && s.phase != Unwinding ==> InFlight(s) == multiset(Between(s.merged, s.admitted)))
  {
    hide IsRun, ValidJob, Folded, Reported, Genuine, InFlight, JobsOf, Between;
    RunKeeps(job, states, n);
    FlightFits(states[n]);
  }

  /** In every run: whenever the coordinator or a worker is about to send, the channel has room. */
  lemma RunSendsNeverBlock(job: Job, states: seq<State>, n: nat)
    requires ValidJob(job) && IsRun(job, states) && n < |states|
    ensures states[n].phase == Filling || states[n].phase == Admitting ==> |states[n].jobs| < Width(job)
    ensures (exists w :: 0 <= w < |states[n].workers| && states[n].workers[w].Delivering?) ==>
              |states[n].results| < Width(job)
  {
    hide IsRun, ValidJob, Inv, Width;
    RunKeeps(job, states, n);
    SendsNeverBlock(job, states[n]);
  }

  /** In every run: until the operation is done it can step, without anybody canceling. */
  lemma RunNeverStuck(job: Job, states: seq<State>, n: nat)
    requires ValidJob(job) && IsRun(job, states) && n < |states| && states[n].phase != Done
    ensures CanStep(job, states[n])
  {
    hide IsRun, ValidJob, Inv, CanStep;
    RunKeeps(job, states, n);
    NeverStuck(job, states[n]);
  }

  /** In every run: when completion is signalled every worker has left, and only a late cancellation
      can follow. */
  lemma RunDoneIsFinal(job: Job, states: seq<State>, n: nat)
    requires ValidJob(job) && IsRun(job, states) && n < |states| && states[n].phase == Done
    ensures forall w :: 0 <= w < |states[n].workers| ==> states[n].workers[w] == Exited
    ensures n + 1 < |states| ==> states[n + 1] == states[n].(canceled := true)
  {
    hide IsRun, ValidJob, Inv, Next;
    RunKeeps(job, states, n);
    DoneIsFinal(job, states[n], Cancel, states[n]);
    if n + 1 < |states| {
      var step := RunStep(job, states, n);
      DoneIsFinal(job, states[n], step, states[n + 1]);
      CancelIs(job, states[n], states[n + 1]);
    }
  }

  lemma RunStep(job: Job, states: seq<State>, n: nat) returns (step: Step)
    requires IsRun(job, states) && n + 1 < |states|
    ensures Next(job, states[n], step, states[n + 1])
  {
    hide Next;
    assert Steps(job, states[n], states[n + 1]);
    step :| Next(job, states[n], step, states[n + 1]);
  }

  lemma CancelIs(job: Job, s: State, s': State)
    requires Next(job, s, Cancel, s')
    ensures s' == s.(canceled := true)
  {
  }

  /** A scan of some input panics with this status. */
  ghost predicate ScanPanics(job: Job, status: nat) {
    exists i :: 0 <= i < |job.scans| && job.scans[i].Panicked? && status == PanicStatus(job.scans[i].failure)
  }

  ghost predicate Explained(job: Job, s: State) {
    || s.status == 0
    || (s.status == PanicStatus(Canceled) && s.canceled)
    || (s.status == PanicStatus(Overflow) && Overfull(job))
    || ScanPanics(job, s.status)
  }

  lemma CanceledStays(job: Job, s: State, step: Step, s': State)
    requires Next(job, s, step, s') && s.canceled
    ensures s'.canceled
  {
    hide Stream, Absorb, Fits, Freezes, BufferAll, Width, FrozenFrom;
  }

  lemma StatusStep(job: Job, s: State, step: Step, s': State)
    requires ValidJob(job) && Inv(job, s) && Next(job, s, step, s') && Explained(job, s)
    ensures Explained(job, s')
  {
    hide Inv, ValidJob, Overfull, Next;
    if s.canceled {
      CanceledStays(job, s, step, s');
    }
    if s'.status != s.status {
      StatusComesFrom(job, s, step, s');
    }
  }

  /** In every run a nonzero status comes from cancellation, from inputs that exceed a limit, or from a
      panic in a scan, and from nowhere else. */
  lemma {:induction false} RunStatus(job: Job, states: seq<State>, n: nat)
    requires ValidJob(job) && IsRun(job, states) && n < |states|
    ensures Explained(job, states[n])
  {
    hide ValidJob, Inv, Next, Explained;
    if n == 0 {
      StartIsExplained(job);
    } else {
      RunStatus(job, states, n - 1);
      RunKeeps(job, states, n - 1);
      var step := RunStep(job, states, n - 1);
      StatusStep(job, states[n - 1], step, states[n]);
    }
  }

  lemma StartIsExplained(job: Job)
    ensures Explained(job, Start())
  {
  }

  // ---------------------------------------------------------------- the outcome does not depend on the schedule

  /** A report is only made when the inputs are within all limits. */
  lemma FinishNotOverfull(job: Job, s: State, product: Option<Product>, s': State)
    requires Inv(job, s) && NextFinish(s, s', product) && s'.report.Some?
    ensures !Overfull(job)
  {
    hide Partition, Staff, Genuine, FrozenFrom, Fits, Freezes, StreamAll, Width;
  }

  lemma ReportStep(job: Job, s: State, step: Step, s': State)
    requires ValidJob(job) && Inv(job, s) && Next(job, s, step, s') && s'.report.Some? && s.report.None?
    ensures !Overfull(job)
  {
    hide Inv, Overfull, Stream, Absorb, Fits, BufferAll, Width, NextFinish, FrozenFrom;
    match step {
      case Finish(product) => FinishNotOverfull(job, s, product, s');
      case _ =>
    }
  }

  lemma {:induction false} RunReport(job: Job, states: seq<State>, n: nat)
    requires ValidJob(job) && IsRun(job, states) && n < |states| && states[n].report.Some?
    ensures !Overfull(job)
  {
    hide ValidJob, Inv, Next, Overfull;
    if n > 0 && states[n - 1].report.None? {
      RunKeeps(job, states, n - 1);
      var step := RunStep(job, states, n - 1);
      ReportStep(job, states[n - 1], step, states[n]);
    } else if n > 0 {
      RunReport(job, states, n - 1);
    }
  }

  /** Every uncanceled run whose scans all answer ends in the same way: with status zero if the inputs are
      within all limits, and with the overflow status if they are not. Neither the number of workers nor
      the order in which results arrive makes a difference. */
  lemma OutcomeIsDetermined(job: Job, states: seq<State>)
    requires ValidJob(job) && IsRun(job, states) && AllAnswered(job, |job.scans|)
    requires var s := states[|states| - 1]; s.phase == Done && !s.canceled
    ensures states[|states| - 1].status == if Overfull(job) then 2 else 0
  {
    var n := |states| - 1;
    RunStatus(job, states, n);
    assert !ScanPanics(job, states[n].status);
    RunReported(job, states, n);
    hide IsRun, Overfull, ValidJob;
    if states[n].report.Some? {
      RunReport(job, states, n);
    }
  }

  lemma RunReported(job: Job, states: seq<State>, n: nat)
    requires ValidJob(job) && IsRun(job, states) && n < |states|
    ensures Reported(job, states[n])
  {
    hide ValidJob, Partition, Staff, Genuine, Folded, Window, Reported;
    RunKeeps(job, states, n);
  }

  /** The status of a run that is done: zero, or the number of what went wrong. Without cancellation it is
      zero exactly when every scan answered and the inputs are within all limits. */
  lemma DoneStatus(job: Job, states: seq<State>)
    requires ValidJob(job) && IsRun(job, states) && states[|states| - 1].phase == Done
    ensures var s := states[|states| - 1];
            && (s.status == 0 || s.status == 1 || s.status == 2 || s.status == 4)
            && (s.status == 1 ==> Panicked(Internal) in job.scans)
            && (s.status == 2 ==> Overfull(job) || Panicked(Overflow) in job.scans)
            && (s.status == 4 ==> s.canceled || Panicked(Canceled) in job.scans)
            && (!s.canceled ==> (s.status == 0 <==> AllAnswered(job, |job.scans|) && !Overfull(job)))
  {
    var n := |states| - 1;
    RunStatus(job, states, n);
    assert forall i :: 0 <= i < |job.scans| && job.scans[i].Panicked? ==>
             job.scans[i] == Panicked(job.scans[i].failure);
    RunReported(job, states, n);
    hide IsRun, Overfull, ValidJob, Folded, StreamAll;
    if states[n].status == 0 {
      CompletedRun(job, states);
      RunReport(job, states, n);
    } else if AllAnswered(job, |job.scans|) && !Overfull(job) && !states[n].canceled {
      OutcomeIsDetermined(job, states);
    }
  }

  /** Where scans panic for one reason only, and nothing else goes wrong, the status is the number of that
      reason: 1 for an internal error, 2 for an overflow, 4 for a cancellation. */
  lemma PanickedRun(job: Job, states: seq<State>, failure: Failure)
    requires ValidJob(job) && IsRun(job, states) && states[|states| - 1].phase == Done
    requires !states[|states| - 1].canceled && !Overfull(job) && Panicked(failure) in job.scans
    requires forall i :: 0 <= i < |job.scans| && job.scans[i].Panicked? ==> job.scans[i].failure == failure
    ensures failure == Internal ==> states[|states| - 1].status == 1
    ensures failure == Overflow ==> states[|states| - 1].status == 2
    ensures failure == Canceled ==> states[|states| - 1].status == 4
  {
    hide IsRun, Overfull, ValidJob;
    DoneStatus(job, states);
  }

  /** Light inputs always get their report: some run over them completes with status zero. */
  lemma CompletedRunExists(job: Job) returns (states: seq<State>)
    requires ValidJob(job) && AllAnswered(job, |job.scans|) && !Overfull(job)
    ensures IsRun(job, states) && states[|states| - 1].phase == Done && states[|states| - 1].status == 0
    ensures !states[|states| - 1].canceled
  {
    hide Inv, ValidJob, Overfull, Measure;
    StartKeeps(job);
    states := Completes(job, Start());
    OutcomeIsDetermined(job, states);
  }
}
