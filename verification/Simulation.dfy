/** The coordinator's loop and the state machine: every point of the loop is the end of a run in which the
    same inputs are admitted, merged and held, and every way the loop ends is the end of such a run. */
module Simulation {
  import opened Common
  import opened Report
  import opened Batches
  import opened Indexes
  import opened Intakes
  import opened Finishing
  import opened Coordinator
  import opened Runs

  /** Where the loop is: how many inputs are admitted and merged, which of those in between are with the
      workers, and which are held for their turn. */
  datatype Progress = Progress(admitted: nat, merged: nat, working: set<nat>, pending: map<nat, Pending>)

  // ---------------------------------------------------------------- runs and their ends

  ghost function Last(trace: seq<State>): State
    requires trace != []
  {
    trace[|trace| - 1]
  }

  lemma Extend(job: Job, trace: seq<State>, step: Step, s: State) returns (longer: seq<State>)
    requires IsRun(job, trace) && Next(job, Last(trace), step, s)
    ensures longer == trace + [s] && IsRun(job, longer) && Last(longer) == s
  {
    hide Next;
    longer := trace + [s];
    forall i | 0 <= i < |longer| - 1
      ensures Steps(job, longer[i], longer[i + 1])
    {
      if i < |trace| - 1 {
        assert Steps(job, trace[i], trace[i + 1]);
      } else {
        assert Next(job, longer[i], step, longer[i + 1]);
      }
    }
  }

  lemma LastKeeps(job: Job, trace: seq<State>)
    requires ValidJob(job) && IsRun(job, trace)
    ensures Inv(job, Last(trace))
  {
    RunKeeps(job, trace, |trace| - 1);
  }

  lemma Append(job: Job, trace: seq<State>, tail: seq<State>)
    requires IsRun(job, trace) && tail != [] && tail[0] == Last(trace)
    requires forall i :: 0 <= i < |tail| - 1 ==> Steps(job, tail[i], tail[i + 1])
    ensures IsRun(job, trace + tail[1..]) && Last(trace + tail[1..]) == Last(tail)
  {
    hide Steps;
    var all := trace + tail[1..];
    forall i | 0 <= i < |all| - 1
      ensures Steps(job, all[i], all[i + 1])
    {
      if i < |trace| - 1 {
        assert Steps(job, trace[i], trace[i + 1]);
      } else {
        var k := i - (|trace| - 1);
        assert all[i] == tail[k] && all[i + 1] == tail[k + 1];
      }
    }
  }

  /** Some run ends like this. */
  ghost predicate Ends(job: Job, status: nat, report: Option<Product>) {
    exists trace :: IsRun(job, trace) && EndsAs(trace, status, report)
  }

  ghost predicate EndsAs(trace: seq<State>, status: nat, report: Option<Product>) {
    trace != [] && Last(trace).phase == Done && Last(trace).status == status && Last(trace).report == report
  }

  /** A run that unwinds can be completed, with the status and the report that it unwinds with. */
  lemma {:induction false} UnwindsTo(job: Job, s: State, tail: seq<State>)
    requires s.phase == Unwinding && tail != [] && tail[0] == s
    requires forall i :: 0 <= i < |tail| - 1 ==> Steps(job, tail[i], tail[i + 1])
    ensures Last(tail).status == s.status && Last(tail).report == s.report
    ensures Last(tail).phase == Unwinding || Last(tail).phase == Done
    decreases |tail|
  {
    hide Next;
    if |tail| > 1 {
      var n := |tail| - 1;
      var init := tail[..n];
      forall i | 0 <= i < |init| - 1
        ensures Steps(job, init[i], init[i + 1])
      {
        assert Steps(job, tail[i], tail[i + 1]);
      }
      UnwindsTo(job, s, init);
      assert Steps(job, tail[n - 1], tail[n - 1 + 1]);
      var step :| Next(job, tail[n - 1], step, tail[n]);
      UnwindingStep(job, tail[n - 1], step, tail[n]);
    }
  }

  lemma UnwindingStep(job: Job, s: State, step: Step, s': State)
    requires (s.phase == Unwinding || s.phase == Done) && Next(job, s, step, s')
    ensures s'.status == s.status && s'.report == s.report && (s'.phase == Unwinding || s'.phase == Done)
  {
    hide Stream, Absorb, Fits, Freezes, BufferAll, Width, FrozenFrom;
  }

  lemma Unwinds(job: Job, trace: seq<State>)
    requires ValidJob(job) && IsRun(job, trace) && Last(trace).phase == Unwinding
    ensures Ends(job, Last(trace).status, Last(trace).report)
  {
    hide Inv, Measure, ValidJob, Steps;
    LastKeeps(job, trace);
    AdmittedFits(job, Last(trace));
    var tail := Completes(job, Last(trace));
    UnwindsTo(job, Last(trace), tail);
    Append(job, trace, tail);
    assert EndsAs(trace + tail[1..], Last(trace).status, Last(trace).report);
  }

  lemma AdmittedFits(job: Job, s: State)
    requires Inv(job, s)
    ensures s.admitted <= |job.scans|
  {
    hide Partition, Staff, Genuine, Folded, Reported, Width;
  }

  // ---------------------------------------------------------------- the loop's state in a run

  /** Every worker is idle or has one of the inputs `working`. */
  ghost predicate Busy(workers: seq<Worker>, working: set<nat>) {
    && (forall w :: 0 <= w < |workers| ==> workers[w] == Idle || workers[w].Scanning?)
    && JobsOf(workers) == multiset(working)
  }

  /** `s` is where the loop is, with all admitted inputs in the hands of the workers. */
  ghost predicate Shows(job: Job, intake: Intake, p: Progress, s: State) {
    && !s.canceled && !s.stopping && s.report.None?
    && s.admitted == p.admitted && s.merged == p.merged && s.pending == p.pending && s.intake == intake
    && s.jobs == [] && s.results == []
    && |s.workers| == Width(job) && Busy(s.workers, p.working)
  }

  /** At the head of the inner loop, or past it when the next image is not held. */
  ghost predicate AtHead(job: Job, intake: Intake, p: Progress, s: State) {
    && Shows(job, intake, p, s)
    && (s.phase == Draining ||
        (p.merged !in p.pending && s.phase == if p.merged < |job.scans| then Selecting else Finishing))
  }

  /** Some run leads to this point of the loop. */
  ghost predicate Reached(job: Job, intake: Intake, p: Progress) {
    exists trace :: IsRun(job, trace) && AtHead(job, intake, p, Last(trace))
  }

  lemma {:induction false} WorkerOf(workers: seq<Worker>, i: nat) returns (w: nat)
    requires i in JobsOf(workers) && forall k :: 0 <= k < |workers| ==> workers[k] == Idle || workers[k].Scanning?
    ensures w < |workers| && workers[w] == Scanning(i)
  {
    var n := |workers| - 1;
    if i in JobsOf(workers[..n]) {
      w := WorkerOf(workers[..n], i);
    } else {
      w := n;
    }
  }

  lemma {:induction false} IdleWorker(workers: seq<Worker>) returns (w: nat)
    requires |JobsOf(workers)| < |workers|
    requires forall k :: 0 <= k < |workers| ==> workers[k] == Idle || workers[k].Scanning?
    ensures w < |workers| && workers[w] == Idle
  {
    var n := |workers| - 1;
    if workers[n] == Idle {
      w := n;
    } else {
      assert JobsOf(workers) == JobsOf(workers[..n]) + multiset{workers[n].job};
      w := IdleWorker(workers[..n]);
    }
  }

  lemma BusyMore(workers: seq<Worker>, working: set<nat>, w: nat, i: nat)
    requires Busy(workers, working) && w < |workers| && workers[w] == Idle && i !in working
    ensures Busy(workers[w := Scanning(i)], working + {i})
  {
    JobsOfUpdate(workers, w, Scanning(i));
    assert multiset(working + {i}) == multiset(working) + multiset{i};
  }

  lemma BusyLess(workers: seq<Worker>, working: set<nat>, w: nat, i: nat)
    requires Busy(workers, working) && w < |workers| && workers[w] == Scanning(i) && i in working
    ensures Busy(workers[w := Idle], working - {i})
  {
    JobsOfUpdate(workers, w, Idle);
    assert multiset(working) == multiset(working - {i}) + multiset{i};
  }

  // ---------------------------------------------------------------- what the loop does, step by step

  /** The next input goes to an idle worker. */
  lemma Admits(job: Job, trace: seq<State>, intake: Intake, p: Progress) returns (longer: seq<State>)
    requires ValidJob(job) && IsRun(job, trace) && Shows(job, intake, p, Last(trace))
    requires Last(trace).phase == Admitting || Last(trace).phase == Filling
    ensures IsRun(job, longer)
            && Shows(job, intake, p.(admitted := p.admitted + 1, working := p.working + {p.admitted}), Last(longer))
    ensures Last(longer).phase ==
            if Last(trace).phase == Admitting then Draining
              else if p.admitted + 1 < Width(job) then Filling else Selecting
  {
    hide Steps, ValidJob, Inv, Next, Width;
    var s := Last(trace);
    LastKeeps(job, trace);
    HasRoom(job, s, intake, p);
    var w := IdleWorker(s.workers);
    BusyMore(s.workers, p.working, w, p.admitted);
    var s1 := s.(jobs := [p.admitted], admitted := s.admitted + 1,
                 phase := if s.phase == Admitting then Draining
                   else if s.admitted + 1 < Width(job) then Filling else Selecting);
    AdmitIs(job, s, s1);
    var t := Extend(job, trace, Admit, s1);
    var s2 := s1.(jobs := [], workers := s.workers[w := Scanning(p.admitted)]);
    TakeIs(job, s1, s2, w);
    longer := Extend(job, t, TakeJob(w), s2);
  }

  lemma HasRoom(job: Job, s: State, intake: Intake, p: Progress)
    requires Inv(job, s) && Shows(job, intake, p, s) && (s.phase == Admitting || s.phase == Filling)
    ensures |JobsOf(s.workers)| < |s.workers| && p.admitted !in p.working && 0 < Width(job)
  {
    hide Width, Staff, Genuine, Folded, Reported;
    FlightFits(s);
    forall i | i in p.working
      ensures i < p.admitted
    {
      assert i in InFlight(s);
    }
  }

  lemma AdmitIs(job: Job, s: State, s': State)
    requires (s.phase == Filling || s.phase == Admitting) && !s.canceled && s.jobs == [] && 0 < Width(job)
    requires s' == s.(jobs := [s.admitted], admitted := s.admitted + 1,
                      phase := if s.phase == Admitting then Draining
                        else if s.admitted + 1 < Width(job) then Filling else Selecting)
    ensures Next(job, s, Admit, s')
  {
  }

  lemma TakeIs(job: Job, s: State, s': State, w: nat)
    requires w < |s.workers| && s.workers[w] == Idle && |s.jobs| == 1
    requires s' == s.(jobs := [], workers := s.workers[w := Scanning(s.jobs[0])])
    ensures Next(job, s, TakeJob(w), s')
  {
  }

  /** The loop's head with nothing to merge: the coordinator waits. */
  lemma Waits(job: Job, trace: seq<State>, intake: Intake, p: Progress) returns (longer: seq<State>)
    requires IsRun(job, trace) && AtHead(job, intake, p, Last(trace)) && p.merged !in p.pending
    ensures IsRun(job, longer) && Shows(job, intake, p, Last(longer))
    ensures Last(longer).phase == if p.merged < |job.scans| then Selecting else Finishing
  {
    hide Steps, Next, Width, Busy;
    longer := trace;
    var s := Last(trace);
    if s.phase == Draining {
      var s1 := s.(phase := if s.merged < |job.scans| then Selecting else Finishing);
      DrainIs(job, s, s1);
      longer := Extend(job, trace, Drain, s1);
    }
  }

  lemma DrainIs(job: Job, s: State, s': State)
    requires s.phase == Draining && s.merged !in s.pending
    requires s' == s.(phase := if s.merged < |job.scans| then Selecting else Finishing)
    ensures Next(job, s, Drain, s')
  {
  }

  /** The worker that has input `i` ends its scan and delivers the result. */
  lemma Delivers(job: Job, trace: seq<State>, intake: Intake, p: Progress, i: nat) returns (longer: seq<State>)
    requires IsRun(job, trace) && Shows(job, intake, p, Last(trace)) && Last(trace).phase == Selecting
    requires i in p.working && i < |job.scans|
    ensures IsRun(job, longer) && Last(longer).results == [Item(i, job.scans[i])] && Last(longer).phase == Selecting
    ensures Shows(job, intake, p.(working := p.working - {i}), Last(longer).(results := []))
  {
    hide Steps, Next, Width;
    var s := Last(trace);
    assert i in JobsOf(s.workers);
    var w := WorkerOf(s.workers, i);
    BusyLess(s.workers, p.working, w, i);
    var item := Item(i, job.scans[i]);
    var s1 := s.(workers := s.workers[w := Delivering(item)]);
    EndIs(job, s, s1, w, i);
    var t := Extend(job, trace, EndScan(w, job.scans[i]), s1);
    var s2 := s1.(results := [item], workers := s1.workers[w := Idle]);
    DeliverIs(job, s1, s2, w);
    longer := Extend(job, t, Deliver(w), s2);
    assert s1.workers[w := Idle] == s.workers[w := Idle];
  }

  lemma EndIs(job: Job, s: State, s': State, w: nat, i: nat)
    requires w < |s.workers| && s.workers[w] == Scanning(i) && i < |job.scans|
    requires s' == s.(workers := s.workers[w := Delivering(Item(i, job.scans[i]))])
    ensures Next(job, s, EndScan(w, job.scans[i]), s')
  {
  }

  lemma DeliverIs(job: Job, s: State, s': State, w: nat)
    requires w < |s.workers| && s.workers[w].Delivering? && s.results == [] && |s.workers| == Width(job)
    requires s' == s.(results := [s.workers[w].item], workers := s.workers[w := Idle])
    ensures Next(job, s, Deliver(w), s')
  {
  }

  /** After an image has been taken in, the next input is admitted if there is one. */
  lemma MovesOn(job: Job, trace: seq<State>, after: Intake, q: Progress) returns (longer: seq<State>)
    requires ValidJob(job) && IsRun(job, trace) && Shows(job, after, q.(merged := q.merged + 1), Last(trace))
    requires Last(trace).phase == if q.admitted < |job.scans| then Admitting else Draining
    ensures IsRun(job, longer) && Last(longer).phase == Draining
    ensures Shows(job, after, Advance(|job.scans|, q), Last(longer))
  {
    hide Steps, ValidJob, Busy, Width;
    longer := trace;
    if q.admitted < |job.scans| {
      longer := Admits(job, trace, after, q.(merged := q.merged + 1));
    }
  }

  /** One input out of the window, merged, and the next one in. */
  function Advance(n: nat, p: Progress): Progress {
    if p.admitted < n then Progress(p.admitted + 1, p.merged + 1, p.working + {p.admitted}, p.pending)
    else p.(merged := p.merged + 1)
  }

  lemma ReachedBy(job: Job, trace: seq<State>, intake: Intake, p: Progress)
    requires IsRun(job, trace) && AtHead(job, intake, p, Last(trace))
    ensures Reached(job, intake, p)
  {
  }

  /** A result whose turn it is: it is streamed, or it overflows. */
  lemma Streams(job: Job, intake: Intake, p: Progress)
    requires ValidJob(job) && Reached(job, intake, p) && p.merged < |job.scans| && job.scans[p.merged].Answered?
    requires p.merged in p.working && p.merged !in p.pending
    ensures var after := Stream(intake, job.scans[p.merged].facts);
            if Fits(after) then Reached(job, after, Advance(|job.scans|, p.(working := p.working - {p.merged})))
            else Ends(job, PanicStatus(Overflow), None)
  {
    hide Steps, ValidJob, Stream, Fits, Shows, Next, Width;
    var trace :| IsRun(job, trace) && AtHead(job, intake, p, Last(trace));
    var t := Waits(job, trace, intake, p);
    t := Delivers(job, t, intake, p, p.merged);
    var q := p.(working := p.working - {p.merged});
    var after := Stream(intake, job.scans[p.merged].facts);
    var s := Last(t);
    var rest := s.(results := []);
    ReceiveIs(job, s, intake, q);
    t := Extend(job, t, Coordinator.Receive, Advanced(job, rest, after));
    Progresses(job, t, rest, after, intake, q);
  }

  lemma ReceiveIs(job: Job, s: State, intake: Intake, q: Progress)
    requires s.phase == Selecting && Shows(job, intake, q, s.(results := []))
    requires q.merged < |job.scans| && job.scans[q.merged].Answered?
             && s.results == [Item(q.merged, job.scans[q.merged])]
    ensures Next(job, s, Coordinator.Receive,
            Advanced(job, s.(results := []), Stream(intake, job.scans[q.merged].facts)))
  {
    hide Stream, Fits, Busy, Width, Advanced;
    assert s.results[1..] == [];
  }

  /** From the state after an image has been taken in. */
  lemma Progresses(job: Job, trace: seq<State>, rest: State, after: Intake, intake: Intake, q: Progress)
    requires ValidJob(job) && IsRun(job, trace) && Shows(job, intake, q, rest)
             && Last(trace) == Advanced(job, rest, after)
    requires (rest.phase == Selecting || rest.phase == Draining)
    ensures if Fits(after) then Reached(job, after, Advance(|job.scans|, q)) else Ends(job, PanicStatus(Overflow), None)
  {
    hide Steps, ValidJob, Fits, Busy, Width;
    if Fits(after) {
      var t := MovesOn(job, trace, after, q);
      ReachedBy(job, t, after, Advance(|job.scans|, q));
    } else {
      Unwinds(job, trace);
    }
  }

  /** A held image whose turn it is: it is absorbed, or it overflows. */
  lemma Absorbs(job: Job, intake: Intake, p: Progress)
    requires ValidJob(job) && Reached(job, intake, p) && p.merged in p.pending
    ensures var after := Absorb(intake, p.pending[p.merged]);
            if Fits(after) then Reached(job, after, Advance(|job.scans|, p.(pending := p.pending - {p.merged})))
            else Ends(job, PanicStatus(Overflow), None)
  {
    hide Steps, ValidJob, Stream, Absorb, Fits, Next, Width, Busy;
    var trace :| IsRun(job, trace) && AtHead(job, intake, p, Last(trace));
    var s := Last(trace);
    var q := p.(pending := p.pending - {p.merged});
    var rest := s.(pending := q.pending);
    var after := Absorb(intake, p.pending[p.merged]);
    AbsorbIs(job, s);
    var t := Extend(job, trace, Drain, Advanced(job, rest, after));
    Progresses(job, t, rest, after, intake, q);
  }

  lemma AbsorbIs(job: Job, s: State)
    requires s.phase == Draining && !s.canceled && s.merged in s.pending
    ensures Next(job, s, Drain,
            Advanced(job, s.(pending := s.pending - {s.merged}), Absorb(s.intake, s.pending[s.merged])))
  {
    hide Absorb, Fits, Advanced;
  }

  /** A result whose turn it is not is held. */
  lemma Holds(job: Job, intake: Intake, p: Progress, i: nat)
    requires ValidJob(job) && Reached(job, intake, p) && p.merged < |job.scans| && p.merged !in p.pending
    requires i in p.working && i != p.merged && i < |job.scans| && job.scans[i].Answered?
    ensures var held := BufferAll(job.scans[i].facts.image, job.scans[i].facts.calls);
            Reached(job, intake, p.(working := p.working - {i}, pending := p.pending[i := held]))
  {
    hide Steps, ValidJob, BufferAll, Next, Width, Busy;
    var trace :| IsRun(job, trace) && AtHead(job, intake, p, Last(trace));
    var t := Waits(job, trace, intake, p);
    t := Delivers(job, t, intake, p, i);
    var s := Last(t);
    var held := BufferAll(job.scans[i].facts.image, job.scans[i].facts.calls);
    var s1 := s.(results := [], pending := s.pending[i := held], phase := Draining);
    HoldIs(job, s, s1, i);
    t := Extend(job, t, Coordinator.Receive, s1);
    ReachedBy(job, t, intake, p.(working := p.working - {i}, pending := p.pending[i := held]));
  }

  lemma HoldIs(job: Job, s: State, s': State, i: nat)
    requires s.phase == Selecting && !s.canceled && i < |job.scans| && job.scans[i].Answered?
    requires s.results == [Item(i, job.scans[i])] && i != s.merged
    requires s' == s.(results := [], phase := Draining,
                      pending := s.pending[i := BufferAll(job.scans[i].facts.image, job.scans[i].facts.calls)])
    ensures Next(job, s, Coordinator.Receive, s')
  {
    hide BufferAll, Stream, Advanced;
    assert s.results[1..] == [];
  }

  /** A panic in a scan ends the operation with its status. */
  lemma Panics(job: Job, intake: Intake, p: Progress, i: nat)
    requires ValidJob(job) && Reached(job, intake, p) && p.merged < |job.scans| && p.merged !in p.pending
    requires i in p.working && i < |job.scans| && job.scans[i].Panicked?
    ensures Ends(job, PanicStatus(job.scans[i].failure), None)
  {
    hide Steps, ValidJob, Next, Width, Busy;
    var trace :| IsRun(job, trace) && AtHead(job, intake, p, Last(trace));
    var t := Waits(job, trace, intake, p);
    t := Delivers(job, t, intake, p, i);
    var s := Last(t);
    var s1 := Unwind(s.(results := []), PanicStatus(job.scans[i].failure));
    PanicIs(job, s, s1, i);
    t := Extend(job, t, Coordinator.Receive, s1);
    Unwinds(job, t);
  }

  lemma PanicIs(job: Job, s: State, s': State, i: nat)
    requires s.phase == Selecting && !s.canceled && i < |job.scans| && job.scans[i].Panicked?
    requires s.results == [Item(i, job.scans[i])]
    requires s' == Unwind(s.(results := []), PanicStatus(job.scans[i].failure))
    ensures Next(job, s, Coordinator.Receive, s')
  {
    assert s.results[1..] == [];
  }

  /** Freezing ends the operation with this very report. */
  lemma Freezing(job: Job, intake: Intake, p: Progress, product: Product)
    requires ValidJob(job) && Reached(job, intake, p) && p.merged == |job.scans| && p.merged !in p.pending
    requires Freezes(intake) && FrozenFrom(product.store, product.indexes, intake.batch, product.rows)
    ensures Ends(job, 0, Some(product))
  {
    hide Steps, ValidJob, Next, Width, Busy, Freezes, FrozenFrom;
    var trace :| IsRun(job, trace) && AtHead(job, intake, p, Last(trace));
    var t := Waits(job, trace, intake, p);
    var s := Last(t);
    FreezeIs(job, s, product);
    t := Extend(job, t, Finish(Some(product)), Unwind(s, 0).(report := Some(product)));
    Unwinds(job, t);
  }

  lemma FreezeIs(job: Job, s: State, product: Product)
    requires s.phase == Finishing && !s.canceled && Freezes(s.intake)
    requires FrozenFrom(product.store, product.indexes, s.intake.batch, product.rows)
    ensures Next(job, s, Finish(Some(product)), Unwind(s, 0).(report := Some(product)))
  {
    hide Freezes, FrozenFrom;
  }

  /** Without room for freezing the operation overflows. */
  lemma FreezingOverflows(job: Job, intake: Intake, p: Progress)
    requires ValidJob(job) && Reached(job, intake, p) && p.merged == |job.scans| && p.merged !in p.pending
             && !Freezes(intake)
    ensures Ends(job, PanicStatus(Overflow), None)
  {
    hide Steps, ValidJob, Next, Width, Busy, Freezes;
    var trace :| IsRun(job, trace) && AtHead(job, intake, p, Last(trace));
    var t := Waits(job, trace, intake, p);
    var s := Last(t);
    FullIs(job, s);
    t := Extend(job, t, Finish(None), Unwind(s, PanicStatus(Overflow)));
    Unwinds(job, t);
  }

  lemma FullIs(job: Job, s: State)
    requires s.phase == Finishing && !s.canceled && !Freezes(s.intake)
    ensures Next(job, s, Finish(None), Unwind(s, PanicStatus(Overflow)))
  {
    hide Freezes;
  }

  // ---------------------------------------------------------------- the start

  /** The first inputs are admitted, one for each worker. */
  lemma {:induction false} Fills(job: Job, n: nat) returns (trace: seq<State>)
    requires ValidJob(job) && n <= Width(job) && 0 < Width(job)
    ensures IsRun(job, trace) && Shows(job, EMPTY_INTAKE, Progress(n, 0, Between(0, n), map[]), Last(trace))
    ensures Last(trace).phase == if n < Width(job) then Filling else Selecting
  {
    hide Steps, ValidJob, Next, Width, Busy;
    if n == 0 {
      var s := Start().(phase := Filling, workers := seq(Width(job), _ => Idle));
      BeginIs(job, s);
      NobodyBusy(s.workers);
      trace := Extend(job, [Start()], Begin, s);
    } else {
      var before := Fills(job, n - 1);
      trace := Admits(job, before, EMPTY_INTAKE, Progress(n - 1, 0, Between(0, n - 1), map[]));
      assert Between(0, n - 1) + {n - 1} == Between(0, n);
    }
  }

  lemma BeginIs(job: Job, s: State)
    requires s == Start().(phase := if Width(job) == 0 then Finishing else Filling,
             workers := seq(Width(job), _ => Idle))
    ensures Next(job, Start(), Begin, s)
  {
  }

  lemma NobodyBusy(workers: seq<Worker>)
    requires forall w :: 0 <= w < |workers| ==> workers[w] == Idle
    ensures Busy(workers, {})
  {
    NoWork(workers);
  }

  lemma ReachedFirst(job: Job)
    requires ValidJob(job)
    ensures Reached(job, EMPTY_INTAKE, Progress(Width(job), 0, Between(0, Width(job)), map[]))
  {
    hide Steps, ValidJob, Next, Busy;
    var p := Progress(Width(job), 0, Between(0, Width(job)), map[]);
    if Width(job) == 0 {
      var s := Start().(phase := Finishing, workers := seq(Width(job), _ => Idle));
      BeginIs(job, s);
      NobodyBusy(s.workers);
      var trace := Extend(job, [Start()], Begin, s);
      NoInputs(job);
      ReachedBy(job, trace, EMPTY_INTAKE, p);
    } else {
      var trace := Fills(job, Width(job));
      ReachedBy(job, trace, EMPTY_INTAKE, p);
    }
  }

  lemma NoInputs(job: Job)
    requires ValidJob(job) && Width(job) == 0
    ensures |job.scans| == 0
  {
  }

  // ---------------------------------------------------------------- cancellation

  /** Canceled before it unwinds: it will end with the status of cancellation. */
  ghost predicate Doomed(s: State) {
    s.canceled && s.report.None? && ((s.phase != Unwinding && s.phase != Done) || s.status == PanicStatus(Canceled))
  }

  lemma DoomedStep(job: Job, s: State, step: Step, s': State)
    requires Doomed(s) && Next(job, s, step, s')
    ensures Doomed(s')
  {
    hide Stream, Absorb, Fits, Freezes, BufferAll, Width, FrozenFrom;
  }

  lemma {:induction false} DoomedStays(job: Job, tail: seq<State>)
    requires tail != [] && Doomed(tail[0]) && forall i :: 0 <= i < |tail| - 1 ==> Steps(job, tail[i], tail[i + 1])
    ensures Doomed(Last(tail))
    decreases |tail|
  {
    hide Next, Doomed;
    if |tail| > 1 {
      var n := |tail| - 1;
      var init := tail[..n];
      forall i | 0 <= i < |init| - 1
        ensures Steps(job, init[i], init[i + 1])
      {
        assert Steps(job, tail[i], tail[i + 1]);
      }
      DoomedStays(job, init);
      assert Steps(job, tail[n - 1], tail[n - 1 + 1]);
      var step :| Next(job, tail[n - 1], step, tail[n]);
      DoomedStep(job, tail[n - 1], step, tail[n]);
    }
  }

  /** Wherever the loop notices cancellation, some run ends with the status of cancellation. */
  lemma Cancels(job: Job)
    requires ValidJob(job)
    ensures Ends(job, PanicStatus(Canceled), None)
  {
    hide Steps, Inv, ValidJob, Next, Measure;
    var s := Start().(canceled := true);
    CancelFirst(job, s);
    var trace := Extend(job, [Start()], Cancel, s);
    LastKeeps(job, trace);
    AdmittedFits(job, s);
    var tail := Completes(job, s);
    DoomedStays(job, tail);
    Append(job, trace, tail);
    assert EndsAs(trace + tail[1..], PanicStatus(Canceled), None);
  }

  lemma CancelFirst(job: Job, s: State)
    requires s == Start().(canceled := true)
    ensures Next(job, Start(), Cancel, s)
  {
  }

  /** In every run, cancellation before the coordinator unwinds decides the status. */
  lemma {:induction false} CanceledRun(job: Job, states: seq<State>, m: nat, n: nat)
    requires IsRun(job, states) && m <= n < |states|
    requires states[m].canceled && states[m].phase != Unwinding && states[m].phase != Done && states[m].report.None?
    requires states[n].phase == Done
    ensures states[n].status == 4 && states[n].report.None?
  {
    hide Next;
    var tail := states[m..n + 1];
    forall i | 0 <= i < |tail| - 1
      ensures Steps(job, tail[i], tail[i + 1])
    {
      assert Steps(job, states[m + i], states[m + i + 1]);
    }
    DoomedStays(job, tail);
  }
}
