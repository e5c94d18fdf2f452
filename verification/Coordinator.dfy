/** The batch coordinator as a state machine: a coordinator, a bounded pool of workers, two bounded
    channels, and a caller that may cancel at any moment. Every interleaving of their steps is a run. */
module Coordinator {
  import opened Common
  import opened Report
  import opened Batches
  import opened Intakes
  import opened Indexes
  import opened Finishing

  // ---------------------------------------------------------------- state

  /** How scanning one input ends. */
  datatype Scan = Answered(facts: Facts) | Panicked(failure: Failure)

  datatype Item = Item(index: nat, scan: Scan)

  datatype Worker = Idle | Scanning(job: nat) | Delivering(item: Item) | Exited

  datatype Phase = Starting | Filling | Selecting | Admitting | Draining | Finishing | Unwinding | Done

  /** The tables and indexes of a report, with the vulnerabilities that the tables pack. */
  datatype Product = Product(store: ReportStore, indexes: seq<Index>, rows: seq<Vulnerability>)

  /** The inputs, by how their scans end when nobody cancels, and the number of workers asked for. */
  datatype Job = Job(scans: seq<Scan>, workers: nat)

  datatype State = State(
    phase: Phase,
    canceled: bool,
    stopping: bool,
    admitted: nat,
    merged: nat,
    jobs: seq<nat>,
    results: seq<Item>,
    workers: seq<Worker>,
    pending: map<nat, Pending>,
    intake: Intake,
    status: nat,
    report: Option<Product>)

  /** Workers started, and the capacity of both channels. */
  function Width(job: Job): nat {
    if job.workers < |job.scans| then job.workers else |job.scans|
  }

  function Start(): State {
    State(Starting, false, false, 0, 0, [], [], [], map[], EMPTY_INTAKE, 0, None)
  }

  // ---------------------------------------------------------------- steps

  datatype Step =
    | Cancel
    | Begin
    | Admit
    | Receive
    | Drain
    | Finish(product: Option<Product>)
    | Stop
    | Join
    | TakeJob(w: nat)
    | EndScan(w: nat, scan: Scan)
    | Deliver(w: nat)
    | Leave(w: nat)

  /** A panic, or the return, of the coordinator. */
  function Unwind(s: State, status: nat): State {
    s.(phase := Unwinding, status := status)
  }

  /** The caller cancels. */
  ghost predicate NextCancel(s: State, s': State) {
    !s.canceled && s' == s.(canceled := true)
  }

  /** The coordinator starts the workers, unless it is canceled already. */
  ghost predicate NextBegin(job: Job, s: State, s': State) {
    && s.phase == Starting
    && s' ==
       if s.canceled then s.(phase := Done, status := PanicStatus(Canceled))
       else s.(phase := if Width(job) == 0 then Finishing else Filling, workers := seq(Width(job), _ => Idle))
  }

  /** The coordinator sends the next input to the workers. The send blocks while the channel is full. */
  ghost predicate NextAdmit(job: Job, s: State, s': State) {
    && (s.phase == Filling || s.phase == Admitting)
    && if s.canceled then s' == Unwind(s, PanicStatus(Canceled))
       else
         && |s.jobs| < Width(job)
         && s' == s.(jobs := s.jobs + [s.admitted], admitted := s.admitted + 1,
                     phase := if s.phase == Admitting then Draining
                       else if s.admitted + 1 < Width(job) then Filling else Selecting)
  }

  /** An image has been taken in: it overflows when the state with it does not fit, and otherwise the
      next input is admitted if there is one. */
  ghost function Advanced(job: Job, s: State, after: Intake): State {
    if !Fits(after) then Unwind(s, PanicStatus(Overflow))
    else s.(intake := after, merged := s.merged + 1, phase := if s.admitted < |job.scans| then Admitting else Draining)
  }

  /** The coordinator waits for a result or for cancellation. A result whose turn it is is streamed, any
      other is projected and held. */
  ghost predicate NextReceive(job: Job, s: State, s': State) {
    && s.phase == Selecting
    && if s.canceled then
         s' == Unwind(s, PanicStatus(Canceled)) ||
         (s.results != [] && s' == Unwind(s.(results := s.results[1..]), PanicStatus(Canceled)))
       else
         && s.results != []
         && var item, rest := s.results[0], s.(results := s.results[1..]);
            match item.scan
            case Panicked(failure) => s' == Unwind(rest, PanicStatus(failure))
            case Answered(facts) =>
              if item.index == s.merged then s' == Advanced(job, rest, Stream(s.intake, facts))
              else s' == rest.(pending := s.pending[item.index := BufferAll(facts.image, facts.calls)],
                phase := Draining)
  }

  /** The coordinator absorbs what it holds, as long as the next image is there. */
  ghost predicate NextDrain(job: Job, s: State, s': State) {
    && s.phase == Draining
    && if s.merged !in s.pending then
         s' == s.(phase := if s.merged < |job.scans| then Selecting else Finishing)
       else
         var rest := s.(pending := s.pending - {s.merged});
         if s.canceled then s' == Unwind(rest, PanicStatus(Canceled))
         else s' == Advanced(job, rest, Absorb(s.intake, s.pending[s.merged]))
  }

  /** The coordinator freezes the report, or overflows when there is no room for that, or finds that it
      was canceled. */
  ghost predicate NextFinish(s: State, s': State, product: Option<Product>) {
    && s.phase == Finishing
    && if s.canceled then s' == Unwind(s, PanicStatus(Canceled))
       else if !Freezes(s.intake) then s' == Unwind(s, PanicStatus(Overflow))
       else
         && product.Some?
         && FrozenFrom(product.value.store, product.value.indexes, s.intake.batch, product.value.rows)
         && s' == Unwind(s, 0).(report := product)
  }

  /** On the way out the coordinator cancels the workers and closes their channel. */
  ghost predicate NextStop(s: State, s': State) {
    s.phase == Unwinding && !s.stopping && s' == s.(stopping := true)
  }

  /** It waits for all workers before it signals completion. */
  ghost predicate NextJoin(s: State, s': State) {
    && s.phase == Unwinding && s.stopping
    && (forall w :: 0 <= w < |s.workers| ==> s.workers[w] == Exited)
    && s' == s.(phase := Done)
  }

  predicate Stopped(s: State) {
    s.canceled || s.stopping
  }

  /** An idle worker takes an input. */
  ghost predicate NextTakeJob(s: State, s': State, w: nat) {
    && w < |s.workers| && s.workers[w] == Idle && s.jobs != []
    && s' == s.(jobs := s.jobs[1..], workers := s.workers[w := Scanning(s.jobs[0])])
  }

  /** A scan ends. After cancellation it may end in any way. */
  ghost predicate NextEndScan(job: Job, s: State, s': State, w: nat, scan: Scan) {
    && w < |s.workers| && s.workers[w].Scanning?
    && var j := s.workers[w].job;
       && (Stopped(s) || (j < |job.scans| && scan == job.scans[j]))
       && s' == s.(workers := s.workers[w := Delivering(Item(j, scan))])
  }

  /** A worker sends its result. The send blocks while the channel is full. */
  ghost predicate NextDeliver(job: Job, s: State, s': State, w: nat) {
    && w < |s.workers| && s.workers[w].Delivering? && |s.results| < Width(job)
    && s' == s.(results := s.results + [s.workers[w].item], workers := s.workers[w := Idle])
  }

  /** A worker that is waiting leaves once it is told to stop. */
  ghost predicate NextLeave(s: State, s': State, w: nat) {
    && w < |s.workers| && (s.workers[w] == Idle || s.workers[w].Delivering?) && Stopped(s)
    && s' == s.(workers := s.workers[w := Exited])
  }

  ghost predicate Next(job: Job, s: State, step: Step, s': State) {
    match step
    case Cancel => NextCancel(s, s')
    case Begin => NextBegin(job, s, s')
    case Admit => NextAdmit(job, s, s')
    case Receive => NextReceive(job, s, s')
    case Drain => NextDrain(job, s, s')
    case Finish(product) => NextFinish(s, s', product)
    case Stop => NextStop(s, s')
    case Join => NextJoin(s, s')
    case TakeJob(w) => NextTakeJob(s, s', w)
    case EndScan(w, scan) => NextEndScan(job, s, s', w, scan)
    case Deliver(w) => NextDeliver(job, s, s', w)
    case Leave(w) => NextLeave(s, s', w)
  }

  ghost predicate Steps(job: Job, s: State, s': State) {
    exists step :: Next(job, s, step, s')
  }

  /** A run: its states, one step apart, from the start. */
  ghost predicate IsRun(job: Job, states: seq<State>) {
    && states != [] && states[0] == Start()
    && forall i :: 0 <= i < |states| - 1 ==> Steps(job, states[i], states[i + 1])
  }

  // ---------------------------------------------------------------- what every run keeps

  /** The inputs in the hands of one worker. */
  function InHand(w: Worker): multiset<nat> {
    match w
    case Scanning(j) => multiset{j}
    case Delivering(item) => multiset{item.index}
    case _ => multiset{}
  }

  function JobsOf(workers: seq<Worker>): multiset<nat> {
    if workers == [] then multiset{} else JobsOf(workers[..|workers| - 1]) + InHand(workers[|workers| - 1])
  }

  function IndexesOf(items: seq<Item>): multiset<nat> {
    if items == [] then multiset{} else IndexesOf(items[..|items| - 1]) + multiset{items[|items| - 1].index}
  }

  /** The inputs that are queued, being scanned, being delivered, delivered, or held. */
  function InFlight(s: State): multiset<nat> {
    multiset(s.jobs) + JobsOf(s.workers) + IndexesOf(s.results) + multiset(s.pending.Keys)
  }

  function Between(a: nat, b: nat): (s: set<nat>)
    ensures forall i: nat :: i in s <==> a <= i < b
  {
    if a >= b then {} else Between(a, b - 1) + {b - 1}
  }

  /** The admission window: never more than `Width` inputs beyond the merged ones, and always that
      many while the coordinator waits. */
  ghost predicate Window(job: Job, s: State) {
    && s.merged <= s.admitted <= |job.scans| && s.admitted <= s.merged + Width(job)
    && (s.phase == Starting ==> s.admitted == 0)
    && (s.phase == Filling ==> s.merged == 0 && s.admitted < Width(job) && s.pending == map[])
    && (s.phase == Admitting ==> s.admitted < |job.scans| && s.admitted < s.merged + Width(job))
    && (s.phase == Admitting ==> s.admitted + 1 == s.merged + Width(job))
    && (s.phase == Selecting || s.phase == Draining ==> s.admitted == Smaller(|job.scans|, s.merged + Width(job)))
    && (s.phase == Selecting ==> s.merged < |job.scans| && s.merged !in s.pending)
    && (s.phase == Finishing ==> s.merged == |job.scans|)
    && (s.stopping ==> s.phase == Unwinding || s.phase == Done)
  }

  /** No input is in two places, and none is lost until the coordinator unwinds. */
  ghost predicate Partition(s: State) {
    && InFlight(s) <= multiset(Between(s.merged, s.admitted))
    && (!Stopped(s) && s.phase != Unwinding ==> InFlight(s) == multiset(Between(s.merged, s.admitted)))
  }

  ghost predicate Staff(job: Job, s: State) {
    && (s.phase == Starting ==> s.workers == [] && s.jobs == [] && s.results == [] && s.pending == map[])
    && (s.phase != Starting && s.phase != Done ==> |s.workers| == Width(job))
    && (s.phase != Starting && !Stopped(s) ==> forall w :: 0 <= w < |s.workers| ==> s.workers[w] != Exited)
    && (s.phase == Done ==> forall w :: 0 <= w < |s.workers| ==> s.workers[w] == Exited)
  }

  ghost predicate GenuineItem(job: Job, item: Item) {
    item.index < |job.scans| && item.scan == job.scans[item.index]
  }

  /** While nobody stops the workers, results are what the scans returned. */
  ghost predicate Genuine(job: Job, s: State) {
    !Stopped(s) ==>
      && (forall i :: 0 <= i < |s.results| ==> GenuineItem(job, s.results[i]))
      && (forall w :: 0 <= w < |s.workers| && s.workers[w].Delivering? ==> GenuineItem(job, s.workers[w].item))
  }

  ghost predicate AllAnswered(job: Job, n: nat) {
    n <= |job.scans| && forall i :: 0 <= i < n ==> job.scans[i].Answered?
  }

  function FactsUpTo(job: Job, n: nat): (facts: seq<Facts>)
    requires n <= |job.scans|
    ensures |facts| == n
  {
    seq(n, i requires 0 <= i < n =>
      if job.scans[i].Answered? then job.scans[i].facts else Facts([], Image("", None, "", [])))
  }

  /** What has been taken in is the merged inputs one after the other, it fits, and what is held is what
      was projected. */
  ghost predicate Folded(job: Job, s: State) {
    && AllAnswered(job, s.merged)
    && s.intake == StreamAll(FactsUpTo(job, s.merged)) && Fits(s.intake)
    && (forall i :: i in s.pending ==>
          i < |job.scans| && job.scans[i].Answered? &&
          s.pending[i] == BufferAll(job.scans[i].facts.image, job.scans[i].facts.calls))
  }

  /** A report is transferred only with status zero, and only when everything has been merged. */
  ghost predicate Reported(job: Job, s: State) {
    && (s.phase != Unwinding && s.phase != Done ==> s.status == 0 && s.report.None?)
    && (s.report.Some? <==> (s.phase == Unwinding || s.phase == Done) && s.status == 0)
    && (s.report.Some? ==>
          s.merged == |job.scans|
            && FrozenFrom(s.report.value.store, s.report.value.indexes, s.intake.batch, s.report.value.rows))
  }

  ghost predicate Inv(job: Job, s: State) {
    Window(job, s) && Partition(s) && Staff(job, s) && Genuine(job, s) && Folded(job, s) && Reported(job, s)
  }

  /** The inputs, taken in one after the other and frozen, exceed some limit. */
  ghost predicate Overfull(job: Job) {
    var all := StreamAll(FactsUpTo(job, |job.scans|));
    !Fits(all) || !Freezes(all)
  }

  /** What the inputs guarantee: there is a worker, and projections are well formed. */
  ghost predicate ValidJob(job: Job) {
    job.workers >= 1 && forall i :: 0 <= i < |job.scans| && job.scans[i].Answered? ==> Projected(job.scans[i].facts)
  }

  lemma StartKeeps(job: Job)
    ensures Inv(job, Start())
  {
    assert Between(0, 0) == {};
    assert FactsUpTo(job, 0) == [];
    EmptyPacked();
  }

  // ---------------------------------------------------------------- multisets of inputs

  lemma {:induction false} JobsOfUpdate(workers: seq<Worker>, w: nat, x: Worker)
    requires w < |workers|
    ensures InHand(workers[w]) <= JobsOf(workers)
    ensures JobsOf(workers[w := x]) == JobsOf(workers) - InHand(workers[w]) + InHand(x)
  {
    hide InHand;
    var n := |workers| - 1;
    if w == n {
      assert workers[w := x][..n] == workers[..n];
    } else {
      JobsOfUpdate(workers[..n], w, x);
      assert workers[w := x][..n] == workers[..n][w := x];
    }
  }

  lemma {:induction false} IndexesOfFirst(items: seq<Item>)
    requires items != []
    ensures IndexesOf(items) == multiset{items[0].index} + IndexesOf(items[1..])
  {
    if |items| > 1 {
      var n := |items| - 1;
      IndexesOfFirst(items[..n]);
      assert items[..n][1..] == items[1..][..n - 1];
    }
  }

  lemma IndexesOfAppend(items: seq<Item>, item: Item)
    ensures IndexesOf(items + [item]) == IndexesOf(items) + multiset{item.index}
  {
    assert (items + [item])[..|items|] == items;
  }

  lemma {:induction false} BetweenSize(a: nat, b: nat)
    requires a <= b
    ensures |Between(a, b)| == b - a
    decreases b
  {
    if a == b {
      assert Between(a, b) == {};
    } else {
      BetweenSize(a, b - 1);
      assert Between(a, b) == Between(a, b - 1) + {b - 1};
    }
  }

  lemma BetweenFirst(a: nat, b: nat)
    requires a < b
    ensures multiset(Between(a, b)) == multiset{a} + multiset(Between(a + 1, b))
  {
    assert Between(a, b) == {a} + Between(a + 1, b);
  }

  lemma BetweenNext(a: nat, b: nat)
    requires a <= b
    ensures multiset(Between(a, b + 1)) == multiset(Between(a, b)) + multiset{b}
  {
    assert Between(a, b + 1) == Between(a, b) + {b};
  }

  lemma {:induction false} IndexesOfSize(items: seq<Item>)
    ensures |IndexesOf(items)| == |items|
  {
    if items != [] {
      IndexesOfSize(items[..|items| - 1]);
    }
  }

  /** The inputs in flight fit in the window. */
  lemma FlightFits(s: State)
    requires Partition(s) && s.merged <= s.admitted
    ensures |s.jobs| + |JobsOf(s.workers)| + |s.results| + |s.pending| <= s.admitted - s.merged
  {
    hide JobsOf, IndexesOf, Between;
    BetweenSize(s.merged, s.admitted);
    IndexesOfSize(s.results);
    FewerFit(InFlight(s), multiset(Between(s.merged, s.admitted)));
    assert |InFlight(s)|
           == |multiset(s.jobs)| + |JobsOf(s.workers)| + |IndexesOf(s.results)| + |multiset(s.pending.Keys)|;
  }

  lemma FewerFit(a: multiset<nat>, b: multiset<nat>)
    requires a <= b
    ensures |a| <= |b|
  {
    assert b == a + (b - a);
  }

  // ---------------------------------------------------------------- workers keep the invariant

  /** `s'` differs from `s` only in the queues and the workers. */
  predicate OnlyMoves(s: State, s': State) {
    s' == s.(jobs := s'.jobs, results := s'.results, workers := s'.workers)
  }

  lemma MovesKeep(job: Job, s: State, s': State)
    requires OnlyMoves(s, s') && s.phase != Starting
    ensures Window(job, s) ==> Window(job, s')
    ensures Folded(job, s) ==> Folded(job, s')
    ensures Reported(job, s) ==> Reported(job, s')
    ensures Partition(s) && InFlight(s') == InFlight(s) ==> Partition(s')
    ensures Partition(s) && InFlight(s') <= InFlight(s) && Stopped(s) ==> Partition(s')
  {
    hide Width, FactsUpTo, StreamAll, Fits, BufferAll, FrozenFrom, InFlight;
  }

  lemma TakeJobKeeps(job: Job, s: State, s': State, w: nat)
    requires Inv(job, s) && NextTakeJob(s, s', w)
    ensures Inv(job, s')
  {
    hide Window, Partition, Folded, Reported, InFlight, GenuineItem, Width;
    MovesKeep(job, s, s');
    TakeJobMoves(s, s', w);
  }

  lemma TakeJobMoves(s: State, s': State, w: nat)
    requires NextTakeJob(s, s', w)
    ensures InFlight(s') == InFlight(s)
  {
    hide JobsOf, IndexesOf;
    assert s.jobs == [s.jobs[0]] + s.jobs[1..];
    JobsOfUpdate(s.workers, w, Scanning(s.jobs[0]));
  }

  lemma EndScanKeeps(job: Job, s: State, s': State, w: nat, scan: Scan)
    requires Inv(job, s) && NextEndScan(job, s, s', w, scan)
    ensures Inv(job, s')
  {
    hide Window, Partition, Folded, Reported, InFlight, JobsOf, Width;
    MovesKeep(job, s, s');
    EndScanMoves(job, s, s', w, scan);
  }

  lemma EndScanMoves(job: Job, s: State, s': State, w: nat, scan: Scan)
    requires NextEndScan(job, s, s', w, scan)
    ensures InFlight(s') == InFlight(s)
  {
    hide JobsOf, IndexesOf;
    JobsOfUpdate(s.workers, w, s'.workers[w]);
  }

  lemma DeliverKeeps(job: Job, s: State, s': State, w: nat)
    requires Inv(job, s) && NextDeliver(job, s, s', w)
    ensures Inv(job, s')
  {
    hide Window, Partition, Folded, Reported, InFlight, GenuineItem, Width;
    MovesKeep(job, s, s');
    DeliverMoves(job, s, s', w);
  }

  lemma DeliverMoves(job: Job, s: State, s': State, w: nat)
    requires NextDeliver(job, s, s', w)
    ensures InFlight(s') == InFlight(s)
  {
    hide JobsOf, IndexesOf;
    JobsOfUpdate(s.workers, w, Idle);
    IndexesOfAppend(s.results, s.workers[w].item);
  }

  lemma LeaveKeeps(job: Job, s: State, s': State, w: nat)
    requires Inv(job, s) && NextLeave(s, s', w)
    ensures Inv(job, s')
  {
    hide Window, Partition, Folded, Reported, InFlight, GenuineItem, Width;
    MovesKeep(job, s, s');
    LeaveMoves(s, s', w);
  }

  lemma LeaveMoves(s: State, s': State, w: nat)
    requires NextLeave(s, s', w)
    ensures InFlight(s') <= InFlight(s)
  {
    hide JobsOf, IndexesOf;
    JobsOfUpdate(s.workers, w, Exited);
  }

  // ---------------------------------------------------------------- the coordinator keeps the invariant

  lemma CancelKeeps(job: Job, s: State, s': State)
    requires Inv(job, s) && NextCancel(s, s')
    ensures Inv(job, s')
  {
    hide Width, FactsUpTo, StreamAll, Fits, BufferAll, FrozenFrom, InFlight, GenuineItem, AllAnswered, Between;
    assert InFlight(s') == InFlight(s) by {
      SameFlight(s, s');
    }
  }

  lemma SameFlight(s: State, s': State)
    requires s.jobs == s'.jobs && s.results == s'.results && s.workers == s'.workers && s.pending == s'.pending
    ensures InFlight(s') == InFlight(s)
  {
  }

  lemma NoWork(workers: seq<Worker>)
    requires forall w :: 0 <= w < |workers| ==> workers[w] == Idle
    ensures JobsOf(workers) == multiset{}
  {
  }

  lemma BeginKeeps(job: Job, s: State, s': State)
    requires ValidJob(job) && Inv(job, s) && NextBegin(job, s, s')
    ensures Inv(job, s')
  {
    if s.canceled {
      hide Width, FactsUpTo, StreamAll, Fits, BufferAll, FrozenFrom, GenuineItem, AllAnswered, InFlight, Between;
      SameFlight(s, s');
    } else {
      hide Inv, Width, StreamAll, Fits, Window, Partition, Staff, Genuine, Folded, Reported;
      BeginWindow(job, s, s');
      BeginStaff(job, s, s');
      BeginReport(job, s, s');
      BeginIsInv(job, s');
    }
  }

  lemma BeginIsInv(job: Job, s: State)
    requires Window(job, s) && Partition(s) && Staff(job, s) && Genuine(job, s) && Folded(job, s) && Reported(job, s)
    ensures Inv(job, s)
  {
    hide Window, Partition, Staff, Genuine, Folded, Reported;
  }

  lemma BeginWindow(job: Job, s: State, s': State)
    requires ValidJob(job) && Inv(job, s) && NextBegin(job, s, s') && !s.canceled
    ensures Window(job, s') && Partition(s')
  {
    hide Folded, Reported, Genuine, InFlight, Between, Width;
    NoWork(s'.workers);
    WorkersStart(s, s');
    WidthFits(job);
  }

  lemma BeginStaff(job: Job, s: State, s': State)
    requires Inv(job, s) && NextBegin(job, s, s') && !s.canceled
    ensures Staff(job, s') && Genuine(job, s')
  {
    hide Folded, Reported, Partition, Window, Width;
  }

  lemma BeginReport(job: Job, s: State, s': State)
    requires Inv(job, s) && NextBegin(job, s, s') && !s.canceled
    ensures Folded(job, s') && Reported(job, s')
  {
    hide Partition, Window, Staff, Genuine, Width, FactsUpTo, StreamAll, Fits, AllAnswered, FrozenFrom, BufferAll;
  }

  lemma WidthFits(job: Job)
    ensures Width(job) <= |job.scans|
    ensures ValidJob(job) && |job.scans| > 0 ==> Width(job) > 0
  {
  }

  lemma WorkersStart(s: State, s': State)
    requires s.workers == [] && JobsOf(s'.workers) == multiset{} && s' == s.(workers := s'.workers, phase := s'.phase)
    ensures InFlight(s') == InFlight(s)
  {
  }

  /** The coordinator panics, or returns. */
  lemma UnwindKeeps(job: Job, s: State, status: nat)
    requires Inv(job, s) && s.phase != Starting && s.phase != Done && s.phase != Unwinding && status > 0
    ensures Inv(job, Unwind(s, status))
  {
    hide Width, FactsUpTo, StreamAll, Fits, BufferAll, FrozenFrom, InFlight, GenuineItem, AllAnswered, Between;
    SameFlight(s, Unwind(s, status));
  }

  lemma AdmitKeeps(job: Job, s: State, s': State)
    requires ValidJob(job) && Inv(job, s) && NextAdmit(job, s, s')
    ensures Inv(job, s')
  {
    hide Inv, Width;
    if s.canceled {
      UnwindKeeps(job, s, PanicStatus(Canceled));
    } else {
      AdmitSends(job, s, s');
    }
  }

  lemma AdmitSends(job: Job, s: State, s': State)
    requires ValidJob(job) && Inv(job, s) && NextAdmit(job, s, s') && !s.canceled
    ensures Inv(job, s')
  {
    hide Partition, InFlight, FactsUpTo, StreamAll, Fits, BufferAll, FrozenFrom, GenuineItem, AllAnswered, Between;
    AdmitMoves(s, s');
  }

  lemma AdmitMoves(s: State, s': State)
    requires Partition(s) && s.merged <= s.admitted && !Stopped(s) && s.phase != Unwinding
    requires s' == s.(jobs := s.jobs + [s.admitted], admitted := s.admitted + 1, phase := s'.phase)
    ensures Partition(s')
  {
    hide JobsOf, IndexesOf;
    BetweenNext(s.merged, s.admitted);
  }

  lemma StopKeeps(job: Job, s: State, s': State)
    requires Inv(job, s) && NextStop(s, s')
    ensures Inv(job, s')
  {
    hide Width, FactsUpTo, StreamAll, Fits, BufferAll, FrozenFrom, InFlight, GenuineItem, AllAnswered;
    SameFlight(s, s');
  }

  lemma JoinKeeps(job: Job, s: State, s': State)
    requires Inv(job, s) && NextJoin(s, s')
    ensures Inv(job, s')
  {
    hide Width, FactsUpTo, StreamAll, Fits, BufferAll, FrozenFrom, InFlight, GenuineItem, AllAnswered;
    SameFlight(s, s');
  }

  lemma FinishKeeps(job: Job, s: State, s': State, product: Option<Product>)
    requires Inv(job, s) && NextFinish(s, s', product)
    ensures Inv(job, s')
  {
    hide Width, FactsUpTo, StreamAll, Fits, BufferAll, FrozenFrom, InFlight, GenuineItem, AllAnswered;
    SameFlight(s, s');
  }

  /** Taking in the next image keeps the fold. */
  lemma FoldNext(job: Job, n: nat)
    requires n < |job.scans| && job.scans[n].Answered?
    ensures StreamAll(FactsUpTo(job, n + 1)) == Stream(StreamAll(FactsUpTo(job, n)), job.scans[n].facts)
  {
    assert FactsUpTo(job, n + 1)[..n] == FactsUpTo(job, n);
  }

  /** The coordinator takes an input out of the results or out of what it holds, and merges it. */
  lemma AdvanceKeeps(job: Job, s: State, rest: State)
    requires Inv(job, s) && !Stopped(s) && (s.phase == Selecting || s.phase == Draining)
    requires rest == s.(results := rest.results, pending := rest.pending)
    requires forall i :: i in rest.pending ==> i in s.pending && s.pending[i] == rest.pending[i]
    requires forall i :: 0 <= i < |rest.results| ==> GenuineItem(job, rest.results[i])
    requires InFlight(s) == InFlight(rest) + multiset{s.merged}
    requires s.merged < |job.scans| && job.scans[s.merged].Answered?
    requires Fits(Stream(s.intake, job.scans[s.merged].facts))
    ensures Inv(job, Advanced(job, rest, Stream(s.intake, job.scans[s.merged].facts)))
  {
    hide FactsUpTo, StreamAll, Fits, BufferAll, FrozenFrom, InFlight, GenuineItem, Stream, Between;
    var s' := Advanced(job, rest, Stream(s.intake, job.scans[s.merged].facts));
    SameFlight(rest, s');
    FoldNext(job, s.merged);
    MergedWasAdmitted(s);
    BetweenFirst(s.merged, s.admitted);
    assert InFlight(s') == multiset(Between(s'.merged, s'.admitted)) by {
      assert InFlight(rest) == InFlight(s) - multiset{s.merged};
    }
  }

  lemma MergedWasAdmitted(s: State)
    requires Partition(s) && s.merged in InFlight(s)
    ensures s.merged < s.admitted
  {
  }

  /** The result in front is in flight once, so it is not among the held ones. */
  lemma FrontResult(s: State)
    requires Partition(s) && s.results != []
    ensures var i := s.results[0].index;
            && i !in s.pending && i in InFlight(s)
            && InFlight(s) == InFlight(s.(results := s.results[1..])) + multiset{i}
  {
    hide JobsOf, IndexesOf;
    IndexesOfFirst(s.results);
    var i := s.results[0].index;
    assert multiset(Between(s.merged, s.admitted))[i] <= 1;
  }

  /** Dropping something and panicking. */
  lemma DropKeeps(job: Job, s: State, rest: State, status: nat)
    requires Inv(job, s) && status > 0 && (s.phase == Selecting || s.phase == Draining)
    requires rest == s.(results := rest.results, pending := rest.pending)
    requires forall i :: i in rest.pending ==> i in s.pending && s.pending[i] == rest.pending[i]
    requires forall i :: 0 <= i < |rest.results| ==> rest.results[i] in s.results
    requires InFlight(rest) <= InFlight(s)
    ensures Inv(job, Unwind(rest, status))
  {
    hide Width, FactsUpTo, StreamAll, Fits, BufferAll, FrozenFrom, InFlight, GenuineItem, AllAnswered, Between;
    SameFlight(rest, Unwind(rest, status));
  }

  lemma HoldKeeps(job: Job, s: State, rest: State, i: nat)
    requires Inv(job, s) && !Stopped(s) && s.phase == Selecting
    requires rest == s.(results := rest.results)
    requires forall k :: 0 <= k < |rest.results| ==> GenuineItem(job, rest.results[k])
    requires i !in s.pending && i != s.merged && InFlight(s) == InFlight(rest) + multiset{i}
    requires i < |job.scans| && job.scans[i].Answered?
    ensures Inv(job, rest.(pending := s.pending[i := BufferAll(job.scans[i].facts.image, job.scans[i].facts.calls)],
            phase := Draining))
  {
    hide FactsUpTo, StreamAll, Fits, BufferAll, FrozenFrom, InFlight, GenuineItem, AllAnswered, Between;
    var p := BufferAll(job.scans[i].facts.image, job.scans[i].facts.calls);
    var s' := rest.(pending := s.pending[i := p], phase := Draining);
    HeldFlight(rest, s', i, p);
  }

  lemma HeldFlight(rest: State, s': State, i: nat, p: Pending)
    requires i !in rest.pending && s' == rest.(pending := rest.pending[i := p], phase := s'.phase)
    ensures InFlight(s') == InFlight(rest) + multiset{i}
  {
    hide JobsOf, IndexesOf;
    assert s'.pending.Keys == rest.pending.Keys + {i};
    assert multiset(rest.pending.Keys + {i}) == multiset(rest.pending.Keys) + multiset{i};
  }

  lemma ReceiveKeeps(job: Job, s: State, s': State)
    requires ValidJob(job) && Inv(job, s) && NextReceive(job, s, s')
    ensures Inv(job, s')
  {
    hide Window, Staff, Folded, Reported, InFlight, Between, Stream, Fits, BufferAll, Width;
    if s.results == [] {
      UnwindKeeps(job, s, PanicStatus(Canceled));
      return;
    }
    var item, rest := s.results[0], s.(results := s.results[1..]);
    FrontResult(s);
    if s.canceled {
      if s' == Unwind(s, PanicStatus(Canceled)) {
        UnwindKeeps(job, s, PanicStatus(Canceled));
      } else {
        DropKeeps(job, s, rest, PanicStatus(Canceled));
      }
    } else {
      SelectingIsLive(job, s);
      assert GenuineItem(job, item);
      if item.scan.Panicked? {
        DropKeeps(job, s, rest, PanicStatus(item.scan.failure));
      } else if item.index != s.merged {
        HoldKeeps(job, s, rest, item.index);
      } else if !Fits(Stream(s.intake, item.scan.facts)) {
        DropKeeps(job, s, rest, PanicStatus(Overflow));
      } else {
        AdvanceKeeps(job, s, rest);
      }
    }
  }

  lemma SelectingIsLive(job: Job, s: State)
    requires Window(job, s) && (s.phase == Selecting || s.phase == Draining) && !s.canceled
    ensures !Stopped(s)
  {
  }

  /** A held image is in flight, and releasing it leaves the rest. */
  lemma HeldRelease(s: State)
    requires s.merged in s.pending
    ensures InFlight(s) == InFlight(s.(pending := s.pending - {s.merged})) + multiset{s.merged}
  {
    hide JobsOf, IndexesOf;
    var rest := s.pending - {s.merged};
    assert s.pending.Keys == rest.Keys + {s.merged};
    assert multiset(rest.Keys + {s.merged}) == multiset(rest.Keys) + multiset{s.merged};
  }

  lemma DrainKeeps(job: Job, s: State, s': State)
    requires ValidJob(job) && Inv(job, s) && NextDrain(job, s, s')
    ensures Inv(job, s')
  {
    hide InFlight, Between, Stream, Absorb, Fits, BufferAll, Width, GenuineItem, FactsUpTo, StreamAll, FrozenFrom,
      AllAnswered, Projected, WellOrdered;
    if s.merged !in s.pending {
      SameFlight(s, s');
    } else {
      var rest := s.(pending := s.pending - {s.merged});
      HeldRelease(s);
      if s.canceled {
        DropKeeps(job, s, rest, PanicStatus(Canceled));
      } else if !Fits(Absorb(s.intake, s.pending[s.merged])) {
        DropKeeps(job, s, rest, PanicStatus(Overflow));
      } else {
        SelectingIsLive(job, s);
        HeldMerges(job, s);
        AdvanceKeeps(job, s, rest);
      }
    }
  }

  /** Absorbing a held image is streaming it. */
  lemma HeldMerges(job: Job, s: State)
    requires ValidJob(job) && Folded(job, s) && s.merged in s.pending
    ensures s.merged < |job.scans| && job.scans[s.merged].Answered?
    ensures Absorb(s.intake, s.pending[s.merged]) == Stream(s.intake, job.scans[s.merged].facts)
  {
    hide Stream, Absorb, BufferAll, WellOrdered, Named, OnePointer, KnownStatus, FactsUpTo, StreamAll;
    AbsorbIsStream(s.intake, job.scans[s.merged].facts);
  }

  /** Every step of every interleaving keeps the invariant. */
  lemma StepKeeps(job: Job, s: State, step: Step, s': State)
    requires ValidJob(job) && Inv(job, s) && Next(job, s, step, s')
    ensures Inv(job, s')
  {
    hide Inv, ValidJob;
    match step {
      case Cancel => CancelKeeps(job, s, s');
      case Begin => BeginKeeps(job, s, s');
      case Admit => AdmitKeeps(job, s, s');
      case Receive => ReceiveKeeps(job, s, s');
      case Drain => DrainKeeps(job, s, s');
      case Finish(product) => FinishKeeps(job, s, s', product);
      case Stop => StopKeeps(job, s, s');
      case Join => JoinKeeps(job, s, s');
      case TakeJob(w) => TakeJobKeeps(job, s, s', w);
      case EndScan(w, scan) => EndScanKeeps(job, s, s', w, scan);
      case Deliver(w) => DeliverKeeps(job, s, s', w);
      case Leave(w) => LeaveKeeps(job, s, s', w);
    }
  }

  lemma {:induction false} RunKeeps(job: Job, states: seq<State>, n: nat)
    requires ValidJob(job) && IsRun(job, states) && n < |states|
    ensures Inv(job, states[n])
  {
    hide Inv, ValidJob;
    if n == 0 {
      StartKeeps(job);
    } else {
      RunKeeps(job, states, n - 1);
      assert Steps(job, states[n - 1], states[n - 1 + 1]);
      var step :| Next(job, states[n - 1], step, states[n]);
      StepKeeps(job, states[n - 1], step, states[n]);
    }
  }
}
