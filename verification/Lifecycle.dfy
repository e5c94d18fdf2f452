/** The operation object behind a handle: it starts once, cancellation wins over every other status,
    and a report is transferred at most once. */
module Lifecycle {
  import opened Common
  import opened Coordinator
  import Finishing

  class Operation {
    var canceled: bool
    var started: bool
    var done: bool
    var finished: bool
    var status: nat
    var report: Option<Product>
    /** How often a report has been transferred, and whether the operation has been released. */
    ghost var transfers: nat
    ghost var released: bool

    ghost predicate Valid()
      reads this
    {
      && (done ==> started)
      && (report.Some? ==> done && status == 0 && !finished && !released)
      && (done && status == 0 && !finished && !released ==> report.Some?)
      && (finished ==> done && status == 0)
      && transfers == (if finished then 1 else 0)
    }

    constructor ()
      ensures Valid() && !canceled && !started && !done && !finished && transfers == 0 && !released
    {
      canceled, started, done, finished, status, report := false, false, false, false, 0, None;
      transfers, released := 0, false;
    }

    /** Starting twice is starting once: the goroutine is launched at most once. */
    method Start() returns (launched: bool)
      requires Valid()
      modifies this`started
      ensures Valid() && started && launched == !old(started)
    {
      if started {
        return false;
      }
      started := true;
      return true;
    }

    method Cancel()
      requires Valid()
      modifies this`canceled
      ensures Valid() && canceled
    {
      canceled := true;
    }

    /** The coordinator's run has ended in the state `s`. */
    method RunEnds(job: Job, s: State)
      requires Valid() && started && !done && !released
      requires Inv(job, s) && s.phase == Done && s.canceled == canceled
      modifies this`done, this`status, this`report
      ensures Valid() && done && status == s.status && report == s.report
    {
      hide Coordinator.Window, Coordinator.Partition, Coordinator.Genuine, Coordinator.Folded, Coordinator.Staff,
        Finishing.FrozenFrom;
      done, status, report := true, s.status, s.report;
    }

    /** Waiting returns only when the run has ended, and cancellation wins over every other status. */
    method Wait() returns (code: nat)
      requires Valid() && done
      ensures code == if canceled then 4 else status
    {
      if canceled {
        return PanicStatus(Canceled);
      }
      return status;
    }

    /** The report moves out of the operation, at most once. */
    method Finish() returns (moved: Option<Product>, code: nat)
      requires Valid() && done && !released
      modifies this`finished, this`report, this`transfers
      ensures Valid()
      ensures moved.Some? <==> code == 0
      ensures code == 0 <==> !canceled && status == 0 && !old(finished)
      ensures code == 0 ==> moved == old(report) && report.None? && transfers == old(transfers) + 1
      ensures code != 0 ==> report == old(report) && transfers == old(transfers)
      ensures code == if canceled then 4 else if status != 0 then status
              else if old(finished) then 1 else 0
      ensures transfers <= 1
    {
      code := Wait();
      if code != 0 {
        return None, code;
      }
      if finished {
        return None, 1;
      }
      finished := true;
      transfers := transfers + 1;
      moved := report;
      report := None;
      return moved, 0;
    }

    /** Releasing cancels, waits for the run if there is one, and drops what was not transferred. A run that
        is under way ends in the state `s`, for which the release waits. */
    method Release(job: Job, s: State)
      requires Valid() && !released
      requires started && !done ==> Inv(job, s) && s.phase == Done && s.canceled
      modifies this`canceled, this`done, this`status, this`report, this`released
      ensures Valid() && canceled && released && report.None? && done == started
      ensures status == if started && !old(done) then s.status else old(status)
    {
      hide Coordinator.Window, Coordinator.Partition, Coordinator.Genuine, Coordinator.Folded, Coordinator.Staff,
        Finishing.FrozenFrom;
      canceled := true;
      if started && !done {
        RunEnds(job, s);
      }
      report := None;
      released := true;
    }
  }

  /** One operation from its creation to its release, around any run of the coordinator: the report of the
      run is handed over once, unless the operation was canceled or failed. */
  method Serve(job: Job, s: State) returns (moved: Option<Product>, code: nat)
    requires Inv(job, s) && s.phase == Done
    ensures code == if s.canceled then 4 else s.status
    ensures moved == if s.canceled then None else s.report
  {
    hide Inv, Coordinator.Window, Coordinator.Partition, Coordinator.Genuine, Coordinator.Folded, Coordinator.Staff,
      Finishing.FrozenFrom;
    var op := new Operation();
    var launched := op.Start();
    if s.canceled {
      op.Cancel();
    }
    ReportOfRun(job, s);
    op.RunEnds(job, s);
    moved, code := op.Finish();
    var again, refused := op.Finish();
    assert launched && again.None? && refused != 0;
    op.Release(job, s);
  }

  lemma ReportOfRun(job: Job, s: State)
    requires Inv(job, s) && s.phase == Done
    ensures s.report.Some? <==> s.status == 0
  {
    hide Coordinator.Window, Coordinator.Partition, Coordinator.Genuine, Coordinator.Folded, Coordinator.Staff,
      Finishing.FrozenFrom;
  }
}

/** One scan and any number of concurrent cancellations, down to the handles that cross the native
    boundary. */
module Scans {
  import opened Common

  // ---------------------------------------------------------------- state

  /** Where the scanning thread is. `Creating` up to `Transferring` are protected by the clean-up that
      starts at `Detaching`. */
  datatype Pc =
    | Entered
    | Creating
    | Publishing
    | Starting
    | Waiting
    | Finishing
    | Transferring
    | Detaching
    | ReleasingResult
    | ReleasingOperation
    | Rechecking
    | Viewing
    | Dropping
    | Left

  datatype Canceller = Outside | Locked | Calling | Unlocking

  /** Zero is no handle. */
  datatype State = State(
    pc: Pc,
    failing: bool,
    operation: nat,
    result: nat,
    owner: nat,
    returned: bool,
    wasCanceled: bool,
    handle: nat,
    lock: Option<nat>,
    cancellers: seq<Canceller>,
    created: set<nat>,
    operations: set<nat>,
    results: set<nat>,
    released: multiset<nat>)

  function Start(cancellers: nat): State {
    State(Entered, false, 0, 0, 0, false, false, 0, None, seq(cancellers, _ => Outside), {}, {}, {}, multiset{})
  }

  // ---------------------------------------------------------------- the scanning thread

  /** Before anything else the scan looks at the controller. */
  ghost predicate NextEnter(s: State, s': State) {
    && s.pc == Entered && s.lock.None?
    && s' == if s.wasCanceled then s.(pc := Detaching, failing := true) else s.(pc := Creating)
  }

  /** The native side makes an operation and hands out a handle that was never used before. */
  ghost predicate NextCreate(s: State, s': State, h: nat) {
    && s.pc == Creating && h > 0 && h !in s.created
    && s' == s.(pc := Publishing, operation := h, created := s.created + {h}, operations := s.operations + {h})
  }

  /** The controller learns the handle, unless it was canceled. */
  ghost predicate NextPublish(s: State, s': State) {
    && s.pc == Publishing && s.lock.None?
    && s' == if s.wasCanceled then s.(pc := Detaching, failing := true) else s.(pc := Starting, handle := s.operation)
  }

  ghost predicate NextStart(s: State, s': State) {
    s.pc == Starting && s' == s.(pc := Waiting)
  }

  ghost predicate NextWait(s: State, s': State) {
    s.pc == Waiting && s' == s.(pc := Finishing)
  }

  /** The native side transfers the report and hands out a result handle. */
  ghost predicate NextFinish(s: State, s': State, h: nat) {
    && s.pc == Finishing && h > 0 && h !in s.created
    && s' == s.(pc := Transferring, result := h, created := s.created + {h}, results := s.results + {h})
  }

  ghost predicate NextTransfer(s: State, s': State) {
    s.pc == Transferring && s' == s.(pc := Detaching, owner := s.result, result := 0)
  }

  predicate Protected(pc: Pc) {
    pc == Creating || pc == Publishing || pc == Starting || pc == Waiting || pc == Finishing || pc == Transferring
  }

  /** A status other than zero, or an interrupt, at any statement that the clean-up protects. */
  ghost predicate NextRaise(s: State, s': State) {
    Protected(s.pc) && s' == s.(pc := Detaching, failing := true)
  }

  ghost predicate NextDetach(s: State, s': State) {
    s.pc == Detaching && s.lock.None? && s' == s.(pc := ReleasingResult, handle := 0)
  }

  /** A result that was never transferred is disposed of. */
  ghost predicate NextReleaseResult(s: State, s': State) {
    && s.pc == ReleasingResult
    && s' ==
       if s.result == 0 then s.(pc := ReleasingOperation)
       else s.(pc := ReleasingOperation, result := 0, results := s.results - {s.result},
         released := s.released + multiset{s.result})
  }

  /** The operation is released; the check of the status may raise. */
  ghost predicate NextReleaseOperation(s: State, s': State, raised: bool) {
    && s.pc == ReleasingOperation
    && var next := s.(pc := if s.failing || raised then Dropping else Rechecking, failing := s.failing || raised);
       s' ==
       if s.operation == 0 then next
       else next.(operations := s.operations - {s.operation}, released := s.released + multiset{s.operation})
  }

  ghost predicate NextRecheck(s: State, s': State) {
    && s.pc == Rechecking && s.lock.None?
    && s' == if s.wasCanceled then s.(pc := Dropping, failing := true) else s.(pc := Viewing)
  }

  /** The view takes over the owner, or cannot be allocated. */
  ghost predicate NextView(s: State, s': State, viewed: bool) {
    && s.pc == Viewing
    && s' == if viewed then s.(pc := Dropping, returned := true) else s.(pc := Dropping, failing := true)
  }

  /** The scan gives up its own reference to the owner. Without a view that was the last one. */
  ghost predicate NextDrop(s: State, s': State) {
    && s.pc == Dropping
    && s' ==
       if s.returned || s.owner == 0 then s.(pc := Left)
       else s.(pc := Left, owner := 0, results := s.results - {s.owner}, released := s.released + multiset{s.owner})
  }

  /** The last view is dropped by whoever got it. */
  ghost predicate NextForget(s: State, s': State) {
    && s.pc == Left && s.returned && s.owner != 0
    && s' == s.(owner := 0, results := s.results - {s.owner}, released := s.released + multiset{s.owner})
  }

  // ---------------------------------------------------------------- the cancelling threads

  ghost predicate NextLock(s: State, s': State, i: nat) {
    && i < |s.cancellers| && s.cancellers[i] == Outside && s.lock.None?
    && s' == s.(lock := Some(i), cancellers := s.cancellers[i := Locked])
  }

  ghost predicate NextFlag(s: State, s': State, i: nat) {
    && i < |s.cancellers| && s.cancellers[i] == Locked
    && s' == s.(wasCanceled := true, cancellers := s.cancellers[i := if s.handle != 0 then Calling else Unlocking])
  }

  /** The native call on the published handle. */
  ghost predicate NextCall(s: State, s': State, i: nat) {
    && i < |s.cancellers| && s.cancellers[i] == Calling
    && s' == s.(cancellers := s.cancellers[i := Unlocking])
  }

  ghost predicate NextUnlock(s: State, s': State, i: nat) {
    && i < |s.cancellers| && s.cancellers[i] == Unlocking
    && s' == s.(lock := None, cancellers := s.cancellers[i := Outside])
  }

  datatype Step =
    | Enter
    | Create(h: nat)
    | Publish
    | StartIt
    | Wait
    | Finish(h: nat)
    | Transfer
    | Raise
    | Detach
    | ReleaseResult
    | ReleaseOperation(raised: bool)
    | Recheck
    | View(viewed: bool)
    | Drop
    | Forget
    | Lock(i: nat)
    | Flag(i: nat)
    | Call(i: nat)
    | Unlock(i: nat)

  ghost predicate Next(s: State, step: Step, s': State) {
    match step
    case Enter => NextEnter(s, s')
    case Create(h) => NextCreate(s, s', h)
    case Publish => NextPublish(s, s')
    case StartIt => NextStart(s, s')
    case Wait => NextWait(s, s')
    case Finish(h) => NextFinish(s, s', h)
    case Transfer => NextTransfer(s, s')
    case Raise => NextRaise(s, s')
    case Detach => NextDetach(s, s')
    case ReleaseResult => NextReleaseResult(s, s')
    case ReleaseOperation(raised) => NextReleaseOperation(s, s', raised)
    case Recheck => NextRecheck(s, s')
    case View(viewed) => NextView(s, s', viewed)
    case Drop => NextDrop(s, s')
    case Forget => NextForget(s, s')
    case Lock(i) => NextLock(s, s', i)
    case Flag(i) => NextFlag(s, s', i)
    case Call(i) => NextCall(s, s', i)
    case Unlock(i) => NextUnlock(s, s', i)
  }

  ghost predicate Steps(s: State, s': State) {
    exists step :: Next(s, step, s')
  }

  ghost predicate IsRun(cancellers: nat, states: seq<State>) {
    && states != [] && states[0] == Start(cancellers)
    && forall i :: 0 <= i < |states| - 1 ==> Steps(states[i], states[i + 1])
  }

  // ---------------------------------------------------------------- what every run keeps

  /** The lock is held by the one canceller that is inside. */
  ghost predicate Exclusive(s: State) {
    && (s.lock.Some? ==> s.lock.value < |s.cancellers| && s.cancellers[s.lock.value] != Outside)
    && (forall i :: 0 <= i < |s.cancellers| && s.cancellers[i] != Outside ==> s.lock == Some(i))
    && (forall i :: 0 <= i < |s.cancellers| && s.cancellers[i] == Calling ==> s.handle != 0)
  }

  predicate AfterRelease(pc: Pc) {
    pc == Rechecking || pc == Viewing || pc == Dropping || pc == Left
  }

  predicate BeforeCreate(pc: Pc) {
    pc == Entered || pc == Creating
  }

  /** Which handles are alive, by where the scan is. */
  ghost predicate Owned(s: State) {
    && (s.handle != 0 ==>
       s.handle == s.operation && !AfterRelease(s.pc) && s.pc != ReleasingResult && s.pc != ReleasingOperation)
    && (BeforeCreate(s.pc) ==> s.operation == 0)
    && s.operations == (if s.operation == 0 || AfterRelease(s.pc) then {} else {s.operation})
    && (s.result != 0 ==> s.owner == 0 && (s.pc == Transferring || s.pc == Detaching || s.pc == ReleasingResult))
    && (s.owner != 0 ==> !Protected(s.pc) && s.pc != Entered)
    && s.results == (if s.result != 0 then {s.result} else if s.owner != 0 then {s.owner} else {})
    && (s.returned ==> (s.pc == Dropping || s.pc == Left) && !s.failing)
    && (s.pc == Left && !s.returned ==> s.owner == 0)
    && (s.pc == Left && !s.returned ==> s.failing)
    && (s.pc == Viewing || s.pc == Rechecking ==> !s.failing)
    && (s.pc == Dropping && !s.returned ==> s.failing)
    && (!s.failing && !BeforeCreate(s.pc) ==> s.operation != 0)
    && (s.pc == Transferring ==> s.result != 0)
    && (!s.failing && Transferred(s.pc) ==> s.owner != 0)
  }

  predicate Transferred(pc: Pc) {
    pc == Detaching || pc == ReleasingResult || pc == ReleasingOperation || pc == Rechecking || pc == Viewing
      || pc == Dropping
  }

  /** Every handle that was ever handed out is alive or has been released, exactly once. */
  ghost predicate Conserved(s: State) {
    && multiset(s.operations) + multiset(s.results) + s.released == multiset(s.created)
    && 0 !in s.created
  }

  ghost predicate Inv(s: State) {
    Exclusive(s) && Owned(s) && Conserved(s)
  }

  lemma StartKeeps(cancellers: nat)
    ensures Inv(Start(cancellers))
  {
  }

  lemma CancellerKeeps(s: State, step: Step, s': State)
    requires Inv(s) && Next(s, step, s') && (step.Lock? || step.Flag? || step.Call? || step.Unlock?)
    ensures Inv(s')
  {
  }

  lemma HandleKeeps(s: State, step: Step, s': State)
    requires Inv(s) && Next(s, step, s') && (step.Create? || step.Finish?)
    ensures Inv(s')
  {
    assert multiset(s'.created) == multiset(s.created) + multiset{step.h};
  }

  /** Releasing a handle that is alive keeps the account. */
  lemma ReleaseAccounts(s: State, s': State, h: nat)
    requires Conserved(s) && s'.created == s.created && s'.released == s.released + multiset{h}
    requires (h in s.operations && s'.operations == s.operations - {h} && s'.results == s.results) ||
             (h in s.results && s'.results == s.results - {h} && s'.operations == s.operations)
    ensures Conserved(s')
  {
    if h in s.operations && s'.operations == s.operations - {h} {
      assert multiset(s.operations) == multiset(s'.operations) + multiset{h};
    } else {
      assert multiset(s.results) == multiset(s'.results) + multiset{h};
    }
  }

  lemma ReleaseResultKeeps(s: State, s': State)
    requires Inv(s) && NextReleaseResult(s, s')
    ensures Inv(s')
  {
    if s.result != 0 {
      ReleaseAccounts(s, s', s.result);
    }
    hide Conserved;
    assert s.result == 0 ==> (Conserved(s) <==> Conserved(s'));
  }

  lemma ReleaseOperationKeeps(s: State, s': State, raised: bool)
    requires Inv(s) && NextReleaseOperation(s, s', raised)
    ensures Inv(s')
  {
    if s.operation != 0 {
      ReleaseAccounts(s, s', s.operation);
    }
  }

  lemma DropKeeps(s: State, s': State)
    requires Inv(s) && (NextDrop(s, s') || NextForget(s, s'))
    ensures Inv(s')
  {
    if s'.owner != s.owner {
      ReleaseAccounts(s, s', s.owner);
    }
  }

  lemma MoveKeeps(s: State, step: Step, s': State)
    requires Inv(s) && Next(s, step, s')
    requires step.Enter? || step.Publish? || step.StartIt? || step.Wait? || step.Detach?
    ensures Inv(s')
  {
  }

  lemma TurnKeeps(s: State, step: Step, s': State)
    requires Inv(s) && Next(s, step, s')
    requires step.Transfer? || step.Raise? || step.Recheck? || step.View?
    ensures Inv(s')
  {
  }

  lemma StepKeeps(s: State, step: Step, s': State)
    requires Inv(s) && Next(s, step, s')
    ensures Inv(s')
  {
    hide Inv, NextEnter, NextPublish, NextStart, NextWait, NextDetach, NextTransfer, NextRaise, NextRecheck, NextView,
      NextCreate, NextFinish, NextLock, NextFlag, NextCall, NextUnlock, NextReleaseResult, NextReleaseOperation,
      NextDrop, NextForget;
    match step {
      case Create(_) => HandleKeeps(s, step, s');
      case Finish(_) => HandleKeeps(s, step, s');
      case ReleaseResult => ReleaseResultKeeps(s, s');
      case ReleaseOperation(raised) => ReleaseOperationKeeps(s, s', raised);
      case Drop => DropKeeps(s, s');
      case Forget => DropKeeps(s, s');
      case Lock(_) => CancellerKeeps(s, step, s');
      case Flag(_) => CancellerKeeps(s, step, s');
      case Call(_) => CancellerKeeps(s, step, s');
      case Unlock(_) => CancellerKeeps(s, step, s');
      case Transfer => TurnKeeps(s, step, s');
      case Raise => TurnKeeps(s, step, s');
      case Recheck => TurnKeeps(s, step, s');
      case View(_) => TurnKeeps(s, step, s');
      case _ => MoveKeeps(s, step, s');
    }
  }

  lemma {:induction false} RunKeeps(cancellers: nat, states: seq<State>, n: nat)
    requires IsRun(cancellers, states) && n < |states|
    ensures Inv(states[n])
  {
    hide Inv, Next;
    if n == 0 {
      StartKeeps(cancellers);
    } else {
      RunKeeps(cancellers, states, n - 1);
      assert Steps(states[n - 1], states[n - 1 + 1]);
      var step :| Next(states[n - 1], step, states[n]);
      StepKeeps(states[n - 1], step, states[n]);
    }
  }

  // ---------------------------------------------------------------- safety

  /** In every run a native cancellation reaches a live operation: never one that is being released or
      has been. */
  lemma CancelIsSafe(cancellers: nat, states: seq<State>, n: nat, i: nat)
    requires IsRun(cancellers, states) && n < |states|
    requires i < |states[n].cancellers| && states[n].cancellers[i] == Calling
    ensures states[n].handle in states[n].operations && states[n].handle == states[n].operation
    ensures !AfterRelease(states[n].pc)
  {
    hide IsRun, Conserved;
    RunKeeps(cancellers, states, n);
  }

  lemma AtMostOnce(s: State, h: nat)
    requires Conserved(s)
    ensures s.released[h] <= 1
    ensures h in s.operations || h in s.results ==> s.released[h] == 0
    ensures h in s.created && h !in s.operations && h !in s.results ==> s.released[h] == 1
  {
    assert multiset(s.created)[h] <= 1;
    assert multiset(s.created)[h] == multiset(s.operations)[h] + multiset(s.results)[h] + s.released[h];
  }

  /** When the scan has left, the operation handle and any abandoned result handle have been released
      exactly once, and the only handle alive is the one that the returned view owns. */
  lemma HandlesSettled(cancellers: nat, states: seq<State>, n: nat, h: nat)
    requires IsRun(cancellers, states) && n < |states| && states[n].pc == Left
    ensures var s := states[n];
            && s.released[h] <= 1
            && (h in s.created ==> if s.returned && h == s.owner then s.released[h] == 0 else s.released[h] == 1)
            && s.results == (if s.owner != 0 then {s.owner} else {}) && s.operations == {}
            && (!s.returned ==> s.owner == 0)
  {
    hide IsRun;
    RunKeeps(cancellers, states, n);
    AtMostOnce(states[n], h);
  }

  /** No handle is ever released twice, at any moment. */
  lemma ReleasedOnce(cancellers: nat, states: seq<State>, n: nat, h: nat)
    requires IsRun(cancellers, states) && n < |states|
    ensures states[n].released[h] <= 1
    ensures h in states[n].created <==>
              h in states[n].operations || h in states[n].results || states[n].released[h] == 1
  {
    hide IsRun, Exclusive, Owned;
    RunKeeps(cancellers, states, n);
    AtMostOnce(states[n], h);
    assert multiset(states[n].created)[h]
           == multiset(states[n].operations)[h] + multiset(states[n].results)[h] + states[n].released[h];
  }

  // ---------------------------------------------------------------- cancellation wins

  /** Canceled before the last look at the controller. */
  ghost predicate Doomed(s: State) {
    s.wasCanceled && !s.returned && (s.failing || !(s.pc == Viewing || s.pc == Dropping || s.pc == Left))
  }

  lemma DoomedStays(s: State, step: Step, s': State)
    requires Inv(s) && Doomed(s) && Next(s, step, s')
    ensures Doomed(s')
  {
    hide Conserved, Exclusive;
  }

  /** A scan that was canceled before its last look at the controller never returns a view. */
  lemma {:induction false} CanceledNeverReturns(cancellers: nat, states: seq<State>, m: nat, n: nat)
    requires IsRun(cancellers, states) && m <= n < |states| && Doomed(states[m])
    ensures !states[n].returned && states[n].wasCanceled
    ensures Doomed(states[n])
    decreases n
  {
    hide Inv, Next;
    if m < n {
      CanceledNeverReturns(cancellers, states, m, n - 1);
      RunKeeps(cancellers, states, n - 1);
      assert Steps(states[n - 1], states[n - 1 + 1]);
      var step :| Next(states[n - 1], step, states[n]);
      DoomedStays(states[n - 1], step, states[n]);
    }
  }

  // ---------------------------------------------------------------- nobody waits forever

  /** The scan, or a canceller that is inside, can step without being interrupted. */
  ghost predicate CanStep(s: State) {
    exists step: Step, s': State :: !step.Lock? && !step.Raise? && Next(s, step, s')
  }

  lemma TakesStep(s: State, step: Step, s': State)
    requires !step.Lock? && !step.Raise? && Next(s, step, s')
    ensures CanStep(s)
  {
  }

  lemma {:induction false} NewHandle(created: set<nat>) returns (h: nat)
    ensures h > 0 && forall k :: k in created ==> k < h
  {
    if created == {} {
      h := 1;
    } else {
      var x :| x in created;
      var rest := created - {x};
      h := NewHandle(rest);
      h := if x < h then h else x + 1;
      assert forall k :: k in created ==> k == x || k in rest;
    }
  }

  lemma CancellerSteps(s: State, i: nat)
    requires i < |s.cancellers| && s.cancellers[i] != Outside
    ensures CanStep(s)
  {
    hide CanStep;
    match s.cancellers[i] {
      case Locked => TakesStep(s, Flag(i),
        s.(wasCanceled := true, cancellers := s.cancellers[i := if s.handle != 0 then Calling else Unlocking]));
      case Calling => TakesStep(s, Call(i), s.(cancellers := s.cancellers[i := Unlocking]));
      case Unlocking => TakesStep(s, Unlock(i), s.(lock := None, cancellers := s.cancellers[i := Outside]));
    }
  }

  lemma ReleaseSteps(s: State)
    requires s.pc == ReleasingResult || s.pc == ReleasingOperation || s.pc == Dropping
    ensures CanStep(s)
  {
    hide CanStep;
    match s.pc {
      case ReleasingResult =>
        TakesStep(s, ReleaseResult,
                  if s.result == 0 then s.(pc := ReleasingOperation)
                  else s.(pc := ReleasingOperation, result := 0, results := s.results - {s.result},
                    released := s.released + multiset{s.result}));
      case ReleasingOperation =>
        var next := s.(pc := if s.failing then Dropping else Rechecking);
        TakesStep(s, ReleaseOperation(false),
                  if s.operation == 0 then next
                  else next.(operations := s.operations - {s.operation},
                    released := s.released + multiset{s.operation}));
      case Dropping =>
        TakesStep(s, Drop,
                  if s.returned || s.owner == 0 then s.(pc := Left)
                  else s.(pc := Left, owner := 0, results := s.results - {s.owner},
                    released := s.released + multiset{s.owner}));
    }
  }

  /** Until the scan has left, it or the canceller that holds the lock can step. */
  lemma ScanNeverStuck(s: State)
    requires Inv(s) && s.pc != Left
    ensures CanStep(s)
  {
    hide CanStep, Owned, Conserved;
    if s.lock.Some? {
      CancellerSteps(s, s.lock.value);
    } else {
      var h := NewHandle(s.created);
      match s.pc {
        case Creating => TakesStep(s, Create(h),
          s.(pc := Publishing, operation := h, created := s.created + {h}, operations := s.operations + {h}));
        case Publishing =>
          TakesStep(s, Publish,
            if s.wasCanceled then s.(pc := Detaching, failing := true) else s.(pc := Starting, handle := s.operation));
        case Starting => TakesStep(s, StartIt, s.(pc := Waiting));
        case Waiting => TakesStep(s, Wait, s.(pc := Finishing));
        case Finishing => TakesStep(s, Finish(h),
          s.(pc := Transferring, result := h, created := s.created + {h}, results := s.results + {h}));
        case Transferring => TakesStep(s, Transfer, s.(pc := Detaching, owner := s.result, result := 0));
        case Entered => TakesStep(s, Enter,
          if s.wasCanceled then s.(pc := Detaching, failing := true) else s.(pc := Creating));
        case Detaching => TakesStep(s, Detach, s.(pc := ReleasingResult, handle := 0));
        case Rechecking =>
          TakesStep(s, Recheck, if s.wasCanceled then s.(pc := Dropping, failing := true) else s.(pc := Viewing));
        case Viewing => TakesStep(s, View(true), s.(pc := Dropping, returned := true));
        case _ => ReleaseSteps(s);
      }
    }
  }

  /** In every run: until the scan has left, it or the canceller that holds the lock can step. */
  lemma RunNeverStuck(cancellers: nat, states: seq<State>, n: nat)
    requires IsRun(cancellers, states) && n < |states| && states[n].pc != Left
    ensures CanStep(states[n])
  {
    hide IsRun, Inv, CanStep;
    RunKeeps(cancellers, states, n);
    ScanNeverStuck(states[n]);
  }
}
