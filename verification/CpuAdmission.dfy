/** Bounded admission of CPU work: an execution semaphore, a semaphore bounding
    the waiters, a timeout, and execution permits that move into the job. Callers
    and jobs interleave at every await. */
module CpuAdmission {
  import opened Common

  type CallerId = nat
  type JobId = nat

  datatype Outcome = Completed(job: JobId) | QueueFull | TimedOut | JoinFailed

  /** A caller is refused an execution permit (`Knocking`), takes a waiting permit
      (`Arriving`), queues on the execution semaphore (`Waiting`), is handed a
      permit (`Granted`) and then awaits its job. */
  datatype Phase =
    | Knocking | Arriving | Waiting | Granted
    | Awaiting(job: JobId) | Returned(outcome: Outcome) | Cancelled

  /** `running` and `waiting` are the free permits of the two semaphores; `queue`
      is the execution semaphore's own, oldest waiter first. `arriving` and
      `granted` are the callers in those phases. */
  datatype State = State(
    running: nat,
    waiting: nat,
    queue: seq<CallerId>,
    arriving: set<CallerId>,
    granted: set<CallerId>,
    callers: map<CallerId, Phase>,
    executing: set<JobId>,
    finished: map<JobId, bool>)

  datatype Config = Config(concurrency: nat, queueCapacity: nat)

  function Idle(config: Config): State {
    State(config.concurrency, config.queueCapacity, [], {}, {}, map[], {}, map[])
  }

  // ---------------------------------------------------------------------------
  // Steps
  // ---------------------------------------------------------------------------

  datatype Step =
    | Start(c: CallerId, j: JobId)
    | Knock(c: CallerId)
    | Enqueue(c: CallerId)
    | Resume(c: CallerId, j: JobId)
    | TimeOut(c: CallerId)
    | Cancel(c: CallerId)
    | Finish(j: JobId, panicked: bool)
    | Join(c: CallerId)

  predicate Fresh(s: State, j: JobId) {
    j !in s.executing && j !in s.finished
  }

  predicate In(s: State, c: CallerId, phase: Phase) {
    c in s.callers && s.callers[c] == phase
  }

  /** Callers can only be cancelled at an await. */
  predicate Enabled(s: State, step: Step) {
    match step
    case Start(c, j) => c !in s.callers && Fresh(s, j)
    case Knock(c) => In(s, c, Knocking)
    case Enqueue(c) => In(s, c, Arriving)
    case Resume(c, j) => In(s, c, Granted) && Fresh(s, j)
    case TimeOut(c) => In(s, c, Waiting)
    case Cancel(c) => c in s.callers && (s.callers[c].Waiting? || s.callers[c].Granted? || s.callers[c].Awaiting?)
    case Finish(j, _) => j in s.executing
    case Join(c) => c in s.callers && s.callers[c].Awaiting? && s.callers[c].job in s.finished
  }

  function At(s: State, c: CallerId, phase: Phase): State {
    s.(callers := s.callers[c := phase])
  }

  /** A released execution permit goes to the head of the queue, if there is one. */
  function Release(s: State): State {
    if s.queue == [] then s.(running := s.running + 1)
    else At(s, s.queue[0], Granted).(queue := s.queue[1..], granted := s.granted + {s.queue[0]})
  }

  function Spawn(s: State, c: CallerId, j: JobId): State {
    At(s, c, Awaiting(j)).(executing := s.executing + {j})
  }

  function StopWaiting(s: State, c: CallerId, phase: Phase): State {
    At(s, c, phase).(queue := WithoutFirst(s.queue, c), waiting := s.waiting + 1)
  }

  function Apply(s: State, step: Step): State
    requires Enabled(s, step)
  {
    match step
    case Start(c, j) =>
      if s.running > 0 then Spawn(s, c, j).(running := s.running - 1) else At(s, c, Knocking)
    case Knock(c) =>
      if s.waiting > 0 then At(s, c, Arriving).(waiting := s.waiting - 1, arriving := s.arriving + {c})
      else At(s, c, Returned(QueueFull))
    case Enqueue(c) =>
      var next := s.(arriving := s.arriving - {c});
      if s.running > 0 then At(next, c, Granted).(running := s.running - 1, granted := s.granted + {c})
      else At(next, c, Waiting).(queue := s.queue + [c])
    case Resume(c, j) => Spawn(s, c, j).(granted := s.granted - {c}, waiting := s.waiting + 1)
    case TimeOut(c) => StopWaiting(s, c, Returned(TimedOut))
    case Cancel(c) =>
      (match s.callers[c]
       case Waiting => StopWaiting(s, c, Cancelled)
       case Granted => Release(At(s, c, Cancelled).(granted := s.granted - {c}, waiting := s.waiting + 1))
       case _ => At(s, c, Cancelled))
    case Finish(j, panicked) =>
      Release(s.(executing := s.executing - {j}, finished := s.finished[j := panicked]))
    case Join(c) =>
      var j := s.callers[c].job;
      At(s, c, Returned(if s.finished[j] then JoinFailed else Completed(j)))
  }

  predicate IsRun(s: State, steps: seq<Step>)
    decreases |steps|
  {
    steps != [] ==> Enabled(s, steps[0]) && IsRun(Apply(s, steps[0]), steps[1..])
  }

  function Run(s: State, steps: seq<Step>): State
    requires IsRun(s, steps)
    decreases |steps|
  {
    if steps == [] then s else Run(Apply(s, steps[0]), steps[1..])
  }

  // ---------------------------------------------------------------------------
  // What every step keeps
  // ---------------------------------------------------------------------------

  /** Every permit of both semaphores is free or held by someone. */
  predicate PermitsConserved(config: Config, s: State) {
    && s.running + |s.executing| + |s.granted| == config.concurrency
    && s.waiting + |s.arriving| + |s.queue| + |s.granted| == config.queueCapacity
  }

  /** No caller queues while an execution permit is free. */
  predicate NoIdlePermit(s: State) {
    s.queue != [] ==> s.running == 0
  }

  /** The queue and the two sets are exactly the callers in those phases. */
  ghost predicate PhasesAgree(s: State) {
    && NoDuplicates(s.queue)
    && (forall c :: c in s.queue <==> In(s, c, Waiting))
    && (forall c :: c in s.arriving <==> In(s, c, Arriving))
    && (forall c :: c in s.granted <==> In(s, c, Granted))
  }

  /** Each awaited job exists, and is awaited by one caller. */
  ghost predicate JobsOwned(s: State) {
    && (forall j :: j in s.executing ==> j !in s.finished)
    && (forall c :: c in s.callers && s.callers[c].Awaiting? ==> !Fresh(s, s.callers[c].job))
    && (forall c, c' :: c in s.callers && c' in s.callers && s.callers[c].Awaiting? && s.callers[c] == s.callers[c'] ==>
        c == c')
  }

  ghost predicate Inv(config: Config, s: State) {
    PermitsConserved(config, s) && NoIdlePermit(s) && PhasesAgree(s) && JobsOwned(s)
  }

  lemma {:induction false} LeaveRemoves(queue: seq<CallerId>, c: CallerId)
    requires NoDuplicates(queue)
    ensures NoDuplicates(WithoutFirst(queue, c))
    ensures forall d :: d in WithoutFirst(queue, c) <==> d in queue && d != c
    ensures c in queue ==> |WithoutFirst(queue, c)| == |queue| - 1
    ensures c !in queue ==> WithoutFirst(queue, c) == queue
  {
    if queue == [] {
    } else {
      assert queue == [queue[0]] + queue[1..];
      assert NoDuplicates(queue[1..]) && queue[0] !in queue[1..];
      LeaveRemoves(queue[1..], c);
    }
  }

  lemma HeadLeaves(queue: seq<CallerId>)
    requires queue != [] && NoDuplicates(queue)
    ensures NoDuplicates(queue[1..]) && queue[0] !in queue[1..]
    ensures forall d :: d in queue[1..] <==> d in queue && d != queue[0]
  {
    assert queue == [queue[0]] + queue[1..];
  }

  lemma HeadIsWaiting(s: State)
    requires PhasesAgree(s)
    ensures s.queue != [] ==> In(s, s.queue[0], Waiting)
  {
    assert s.queue != [] ==> s.queue[0] in s.queue;
  }

  predicate GivesUp(step: Step) {
    step.TimeOut? || step.Cancel? || step.Finish?
  }

  /** `PhasesAgree` for one caller. */
  predicate Placed(s: State, c: CallerId) {
    && (c in s.queue <==> In(s, c, Waiting))
    && (c in s.arriving <==> In(s, c, Arriving))
    && (c in s.granted <==> In(s, c, Granted))
  }

  lemma StartKeepsPermits(config: Config, s: State, c: CallerId, j: JobId)
    requires PermitsConserved(config, s) && NoIdlePermit(s) && Enabled(s, Start(c, j))
    ensures var next := Apply(s, Start(c, j)); PermitsConserved(config, next) && NoIdlePermit(next)
  {
    assert j !in s.executing;
  }

  lemma KnockKeepsPermits(config: Config, s: State, c: CallerId)
    requires PermitsConserved(config, s) && NoIdlePermit(s) && Enabled(s, Knock(c)) && Placed(s, c)
    ensures var next := Apply(s, Knock(c)); PermitsConserved(config, next) && NoIdlePermit(next)
  {
    assert c !in s.arriving;
  }

  lemma ProceedingKeepsPermits(config: Config, s: State, step: Step)
    requires PermitsConserved(config, s) && NoIdlePermit(s)
    requires Enabled(s, step) && (step.Enqueue? || step.Resume? || step.Join?) && Placed(s, step.c)
    ensures PermitsConserved(config, Apply(s, step)) && NoIdlePermit(Apply(s, step))
  {
  }

  /** Releasing a permit that is neither free nor held puts the count right. */
  lemma ReleaseKeepsPermits(config: Config, s: State)
    requires NoIdlePermit(s) && (s.queue != [] ==> s.queue[0] !in s.granted)
    requires s.running + |s.executing| + |s.granted| + 1 == config.concurrency
    requires s.waiting + |s.arriving| + |s.queue| + |s.granted| == config.queueCapacity
    ensures PermitsConserved(config, Release(s)) && NoIdlePermit(Release(s))
  {
  }

  lemma StopWaitingKeepsPermits(config: Config, s: State, c: CallerId, phase: Phase)
    requires PermitsConserved(config, s) && NoIdlePermit(s) && NoDuplicates(s.queue) && c in s.queue
    ensures PermitsConserved(config, StopWaiting(s, c, phase)) && NoIdlePermit(StopWaiting(s, c, phase))
  {
    LeaveRemoves(s.queue, c);
  }

  lemma FinishKeepsPermits(config: Config, s: State, j: JobId, panicked: bool)
    requires PermitsConserved(config, s) && NoIdlePermit(s) && (s.queue != [] ==> Placed(s, s.queue[0]))
    requires Enabled(s, Finish(j, panicked))
    ensures var next := Apply(s, Finish(j, panicked)); PermitsConserved(config, next) && NoIdlePermit(next)
  {
    ReleaseKeepsPermits(config, s.(executing := s.executing - {j}, finished := s.finished[j := panicked]));
  }

  lemma CancelKeepsPermits(config: Config, s: State, c: CallerId)
    requires PermitsConserved(config, s) && NoIdlePermit(s) && NoDuplicates(s.queue)
    requires s.queue != [] ==> Placed(s, s.queue[0])
    requires Enabled(s, Cancel(c)) && Placed(s, c)
    ensures var next := Apply(s, Cancel(c)); PermitsConserved(config, next) && NoIdlePermit(next)
  {
    if s.callers[c].Waiting? {
      StopWaitingKeepsPermits(config, s, c, Cancelled);
    } else if s.callers[c].Granted? {
      ReleaseKeepsPermits(config, At(s, c, Cancelled).(granted := s.granted - {c}, waiting := s.waiting + 1));
    }
  }

  lemma GivingUpKeepsPermits(config: Config, s: State, step: Step)
    requires PermitsConserved(config, s) && NoIdlePermit(s) && NoDuplicates(s.queue)
    requires s.queue != [] ==> Placed(s, s.queue[0])
    requires Enabled(s, step) && GivesUp(step) && (step.Finish? || Placed(s, step.c))
    ensures PermitsConserved(config, Apply(s, step)) && NoIdlePermit(Apply(s, step))
  {
    match step
    case TimeOut(c) => StopWaitingKeepsPermits(config, s, c, Returned(TimedOut));
    case Cancel(c) => CancelKeepsPermits(config, s, c);
    case Finish(j, panicked) => FinishKeepsPermits(config, s, j, panicked);
  }

  /** Whoever a released permit is handed to was waiting, and first in line. */
  lemma ReleaseKeepsPhases(s: State)
    requires PhasesAgree(s)
    ensures PhasesAgree(Release(s))
  {
    if s.queue != [] {
      HeadLeaves(s.queue);
      assert s.queue[0] in s.queue;
    }
  }

  lemma LeaveKeepsPhases(s: State, c: CallerId, phase: Phase)
    requires PhasesAgree(s) && In(s, c, Waiting) && (phase.Returned? || phase.Cancelled?)
    ensures PhasesAgree(StopWaiting(s, c, phase))
  {
    LeaveRemoves(s.queue, c);
  }

  lemma EnqueueKeepsPhases(s: State, step: Step)
    requires PhasesAgree(s) && Enabled(s, step) && step.Enqueue?
    ensures PhasesAgree(Apply(s, step))
  {
    assert !In(s, step.c, Waiting) && step.c !in s.queue;
  }

  lemma MovingOnKeepsPhases(s: State, step: Step)
    requires PhasesAgree(s) && Enabled(s, step) && (step.Start? || step.Knock? || step.Resume? || step.Join?)
    ensures PhasesAgree(Apply(s, step))
  {
  }

  lemma StepKeepsPhases(s: State, step: Step)
    requires PhasesAgree(s) && Enabled(s, step)
    ensures PhasesAgree(Apply(s, step))
  {
    match step
    case TimeOut(c) => LeaveKeepsPhases(s, c, Returned(TimedOut));
    case Cancel(c) =>
      if s.callers[c].Waiting? {
        LeaveKeepsPhases(s, c, Cancelled);
      } else if s.callers[c].Granted? {
        ReleaseKeepsPhases(At(s, c, Cancelled).(granted := s.granted - {c}, waiting := s.waiting + 1));
      }
    case Finish(j, panicked) =>
      ReleaseKeepsPhases(s.(executing := s.executing - {j}, finished := s.finished[j := panicked]));
    case Enqueue(_) => EnqueueKeepsPhases(s, step);
    case _ => MovingOnKeepsPhases(s, step);
  }

  lemma StepKeepsJobs(s: State, step: Step)
    requires JobsOwned(s) && Enabled(s, step)
    ensures JobsOwned(Apply(s, step))
  {
  }

  lemma StepKeepsInv(config: Config, s: State, step: Step)
    requires Inv(config, s) && Enabled(s, step)
    ensures Inv(config, Apply(s, step))
  {
    if GivesUp(step) {
      GivingUpKeepsPermits(config, s, step);
    } else if step.Start? {
      StartKeepsPermits(config, s, step.c, step.j);
    } else if step.Knock? {
      KnockKeepsPermits(config, s, step.c);
    } else {
      ProceedingKeepsPermits(config, s, step);
    }
    StepKeepsPhases(s, step);
    StepKeepsJobs(s, step);
  }

  /** In every interleaving of callers, cancellations, timeouts, panics and
      completions: no permit is lost or made up, no permit idles while a caller
      queues, and no two callers await one job. */
  lemma {:induction false} RunKeepsInv(config: Config, s: State, steps: seq<Step>)
    requires Inv(config, s) && IsRun(s, steps)
    ensures Inv(config, Run(s, steps))
    decreases |steps|
  {
    if steps == [] {
    } else {
      StepKeepsInv(config, s, steps[0]);
      RunKeepsInv(config, Apply(s, steps[0]), steps[1..]);
    }
  }

  // ---------------------------------------------------------------------------
  // What that gives
  // ---------------------------------------------------------------------------

  /** Jobs never exceed the concurrency, waiters never exceed the queue. */
  lemma BoundsHold(config: Config, steps: seq<Step>)
    requires IsRun(Idle(config), steps)
    ensures var s := Run(Idle(config), steps);
            && |s.executing| <= config.concurrency
            && |s.arriving| + |s.queue| + |s.granted| <= config.queueCapacity
  {
    RunKeepsInv(config, Idle(config), steps);
  }

  /** A started job keeps its permit until the job itself ends, whatever its caller
      does: only `Finish` takes a job out of the executing set. */
  lemma {:induction false} OnlyFinishEndsJob(s: State, steps: seq<Step>, j: JobId)
    requires IsRun(s, steps) && j in s.executing
    ensures j in Run(s, steps).executing || exists i :: 0 <= i < |steps| && steps[i].Finish? && steps[i].j == j
    decreases |steps|
  {
    if steps != [] && !(steps[0].Finish? && steps[0].j == j) {
      assert j in Apply(s, steps[0]).executing;
      OnlyFinishEndsJob(Apply(s, steps[0]), steps[1..], j);
      if i :| 0 <= i < |steps[1..]| && steps[1..][i].Finish? && steps[1..][i].j == j {
        assert steps[i + 1].Finish? && steps[i + 1].j == j;
      }
    }
  }

  function Forgotten(s: State, c: CallerId): State {
    At(s, c, Cancelled)
  }

  /** The step is not one of `c`'s own. */
  predicate ByOthers(step: Step, c: CallerId) {
    step.Finish? || step.c != c
  }

  lemma ReleaseForgets(s: State, c: CallerId)
    requires s.queue != [] ==> s.queue[0] != c
    ensures Release(Forgotten(s, c)) == Forgotten(Release(s), c)
  {
    if s.queue != [] {
      assert s.callers[c := Cancelled][s.queue[0] := Granted] == s.callers[s.queue[0] := Granted][c := Cancelled];
    }
  }

  lemma EnabledForgets(s: State, c: CallerId, step: Step)
    requires c in s.callers && s.callers[c].Awaiting? && ByOthers(step, c)
    ensures Enabled(Forgotten(s, c), step) <==> Enabled(s, step)
  {
  }

  lemma StepForgets(s: State, c: CallerId, step: Step)
    requires s.queue != [] ==> s.queue[0] != c
    requires c in s.callers && s.callers[c].Awaiting? && ByOthers(step, c)
    requires Enabled(s, step) && Enabled(Forgotten(s, c), step)
    ensures Apply(Forgotten(s, c), step) == Forgotten(Apply(s, step), c)
    ensures c in Apply(s, step).callers && Apply(s, step).callers[c] == s.callers[c]
  {
    match step
    case Finish(j, panicked) =>
      ReleaseForgets(s.(executing := s.executing - {j}, finished := s.finished[j := panicked]), c);
    case Cancel(d) =>
      CancelForgets(s, c, d);
    case _ =>
      OtherStepForgets(s, c, step);
  }

  lemma CancelForgets(s: State, c: CallerId, d: CallerId)
    requires s.queue != [] ==> s.queue[0] != c
    requires c in s.callers && s.callers[c].Awaiting? && d != c
    requires Enabled(s, Cancel(d)) && Enabled(Forgotten(s, c), Cancel(d))
    ensures Apply(Forgotten(s, c), Cancel(d)) == Forgotten(Apply(s, Cancel(d)), c)
    ensures Apply(s, Cancel(d)).callers[c] == s.callers[c]
  {
    var callers := s.callers[d := Cancelled];
    assert callers[c := Cancelled] == s.callers[c := Cancelled][d := Cancelled];
    if s.callers[d].Granted? {
      ReleaseForgets(At(s, d, Cancelled).(granted := s.granted - {d}, waiting := s.waiting + 1), c);
    }
  }

  lemma OtherStepForgets(s: State, c: CallerId, step: Step)
    requires c in s.callers && s.callers[c].Awaiting? && ByOthers(step, c) && Enabled(s, step)
    requires !step.Finish? && !step.Cancel? && Enabled(Forgotten(s, c), step)
    ensures Apply(Forgotten(s, c), step) == Forgotten(Apply(s, step), c)
    ensures Apply(s, step).callers[c] == s.callers[c]
  {
    var d := step.c;
    assert forall phase {:trigger s.callers[d := phase]} ::
        s.callers[c := Cancelled][d := phase] == s.callers[d := phase][c := Cancelled];
  }

  /** Cancelling a caller that awaits its job is invisible to everyone else: exactly
      the same runs of others remain possible, and each leaves the same permits, the
      same queue and the same jobs. So the job keeps its permit for as long as it
      would have. */
  lemma {:induction false} CancellationIsInvisible(s: State, c: CallerId, steps: seq<Step>)
    requires PhasesAgree(s) && Enabled(s, Cancel(c)) && s.callers[c].Awaiting?
    requires forall i :: 0 <= i < |steps| ==> ByOthers(steps[i], c)
    ensures var cancelled := Apply(s, Cancel(c));
            && (IsRun(cancelled, steps) <==> IsRun(s, steps))
            && (IsRun(s, steps) ==> Run(cancelled, steps) == Forgotten(Run(s, steps), c))
    decreases |steps|
  {
    if steps == [] {
    } else {
      EnabledForgets(s, c, steps[0]);
      if Enabled(s, steps[0]) {
        HeadIsWaiting(s);
        StepForgets(s, c, steps[0]);
        StepKeepsPhases(s, steps[0]);
        assert forall i :: 0 <= i < |steps[1..]| ==> steps[1..][i] == steps[i + 1];
        CancellationIsInvisible(Apply(s, steps[0]), c, steps[1..]);
      }
    }
  }

  /** A caller that gives up while queued or just granted gives back exactly what
      it held. */
  lemma GivingUpReturnsPermits(config: Config, s: State, c: CallerId)
    requires Inv(config, s) && Enabled(s, Cancel(c)) && !s.callers[c].Awaiting?
    ensures var next := Apply(s, Cancel(c));
            && next.waiting == s.waiting + 1
            && next.executing == s.executing
            && (s.callers[c].Waiting? ==> next.running == s.running && next.granted == s.granted)
            && (s.callers[c].Granted? && s.queue == [] ==> next.running == s.running + 1)
            && (s.callers[c].Granted? && s.queue != [] ==>
                next.running == s.running == 0 && In(next, s.queue[0], Granted))
  {
    if s.queue != [] {
      assert s.queue[0] in s.queue;
    }
  }

  predicate Settled(phase: Phase) {
    phase.Returned? || phase.Cancelled?
  }

  /** Every caller is done with, and no job runs. */
  ghost predicate Quiescent(s: State) {
    s.executing == {} && forall c :: c in s.callers ==> Settled(s.callers[c])
  }

  lemma QuiescentPermits(config: Config, s: State)
    requires Inv(config, s) && Quiescent(s)
    ensures s.running == config.concurrency && s.waiting == config.queueCapacity
  {
    assert forall c :: c !in s.arriving && c !in s.granted && c !in s.queue;
    assert s.arriving == {} && s.granted == {};
    HeadIsWaiting(s);
  }

  /** At quiescence all permits of both semaphores are back. */
  lemma QuiescentPermitsAreBack(config: Config, steps: seq<Step>)
    requires IsRun(Idle(config), steps) && Quiescent(Run(Idle(config), steps))
    ensures var s := Run(Idle(config), steps); s.running == config.concurrency && s.waiting == config.queueCapacity
  {
    RunKeepsInv(config, Idle(config), steps);
    QuiescentPermits(config, Run(Idle(config), steps));
  }

  predicate IsRefused(s: State, c: CallerId) {
    In(s, c, Returned(QueueFull))
  }

  lemma ReleaseRefusesNobody(s: State, c: CallerId)
    ensures IsRefused(Release(s), c) ==> IsRefused(s, c)
  {
  }

  lemma OnlyKnockRefuses(s: State, step: Step, c: CallerId)
    requires Enabled(s, step) && IsRefused(Apply(s, step), c) && !IsRefused(s, c)
    ensures step == Knock(c) && s.waiting == 0
  {
    match step
    case Cancel(d) =>
      if s.callers[d].Granted? {
        ReleaseRefusesNobody(At(s, d, Cancelled).(granted := s.granted - {d}, waiting := s.waiting + 1), c);
      }
    case Finish(j, panicked) =>
      ReleaseRefusesNobody(s.(executing := s.executing - {j}, finished := s.finished[j := panicked]), c);
    case _ =>
  }

  /** A caller is turned away only when the waiting semaphore is exhausted. */
  lemma RefusalMeansFull(config: Config, s: State, step: Step, c: CallerId)
    requires PermitsConserved(config, s) && Enabled(s, step)
    requires IsRefused(Apply(s, step), c) && !IsRefused(s, c)
    ensures step == Knock(c) && |s.arriving| + |s.queue| + |s.granted| == config.queueCapacity
  {
    OnlyKnockRefuses(s, step, c);
  }

  /** And queues only while every execution permit is in use. */
  lemma QueueingMeansBusy(config: Config, s: State)
    requires Inv(config, s) && s.queue != []
    ensures |s.executing| + |s.granted| == config.concurrency
  {
  }

  lemma ReleaseGrantsHead(s: State, c: CallerId)
    requires !In(s, c, Granted) && In(Release(s), c, Granted)
    ensures s.queue != [] && s.queue[0] == c && Release(s).queue == s.queue[1..]
  {
  }

  /** Permits are granted in the order callers queued: whoever leaves the queue
      with a permit was at its head. */
  lemma GrantsAreFifo(s: State, step: Step, c: CallerId)
    requires Enabled(s, step)
    requires In(s, c, Waiting) && In(Apply(s, step), c, Granted)
    ensures s.queue != [] && s.queue[0] == c && Apply(s, step).queue == s.queue[1..]
  {
    match step
    case Cancel(d) =>
      if s.callers[d].Granted? {
        ReleaseGrantsHead(At(s, d, Cancelled).(granted := s.granted - {d}, waiting := s.waiting + 1), c);
      }
    case Finish(j, panicked) =>
      ReleaseGrantsHead(s.(executing := s.executing - {j}, finished := s.finished[j := panicked]), c);
    case _ =>
  }

  // --- No deadlock, and every run without new callers ends ---------------------

  lemma {:induction false} AboveAll(used: set<JobId>) returns (bound: JobId)
    ensures forall k :: k in used ==> k < bound
  {
    bound := 0;
    if used != {} {
      var x :| x in used;
      bound := AboveAll(used - {x});
      bound := if bound > x then bound else x + 1;
      forall k | k in used ensures k < bound {
        assert k == x || k in used - {x};
      }
    }
  }

  /** With at least one execution slot, some step other than a timeout or a
      cancellation is always possible until everything is settled. */
  lemma NeverStuck(config: Config, s: State) returns (step: Step)
    requires Inv(config, s) && config.concurrency > 0 && !Quiescent(s)
    ensures Enabled(s, step) && !step.Start? && !step.TimeOut? && !step.Cancel?
  {
    if s.executing != {} {
      var j :| j in s.executing;
      return Finish(j, false);
    }
    if s.granted != {} {
      var c :| c in s.granted;
      var j := AboveAll(s.executing + s.finished.Keys);
      return Resume(c, j);
    }
    assert s.queue == [];
    var c :| c in s.callers && !Settled(s.callers[c]);
    if s.callers[c].Knocking? {
      return Knock(c);
    }
    if s.callers[c].Arriving? {
      return Enqueue(c);
    }
    assert !In(s, c, Waiting) && !In(s, c, Granted);
    return Join(c);
  }

  /** How many steps a caller in this phase, and the job it may start, can take. */
  function StepsLeft(phase: Phase): nat {
    match phase
    case Knocking => 6
    case Arriving => 5
    case Waiting => 4
    case Granted => 3
    case Awaiting(_) => 1
    case Returned(_) => 0
    case Cancelled => 0
  }

  ghost function Total(callers: map<CallerId, Phase>): nat
    decreases |callers|
  {
    if callers == map[] then 0
    else
      var c :| c in callers;
      assert |callers - {c}| < |callers| by { Fewer(callers, c); }
      StepsLeft(callers[c]) + Total(callers - {c})
  }

  lemma Fewer(callers: map<CallerId, Phase>, c: CallerId)
    requires c in callers
    ensures |callers - {c}| == |callers| - 1
  {
    assert (callers - {c}).Keys == callers.Keys - {c};
  }

  lemma {:induction false} TotalWithout(callers: map<CallerId, Phase>, c: CallerId)
    requires c in callers
    ensures Total(callers) == StepsLeft(callers[c]) + Total(callers - {c})
    decreases |callers|
  {
    var d :| d in callers && Total(callers) == StepsLeft(callers[d]) + Total(callers - {d});
    if d != c {
      Fewer(callers, d);
      Fewer(callers, c);
      TotalWithout(callers - {d}, c);
      TotalWithout(callers - {c}, d);
      assert callers - {d} - {c} == callers - {c} - {d};
    }
  }

  lemma TotalMoves(callers: map<CallerId, Phase>, c: CallerId, phase: Phase)
    requires c in callers
    ensures Total(callers[c := phase]) + StepsLeft(callers[c]) == Total(callers) + StepsLeft(phase)
  {
    TotalWithout(callers, c);
    TotalWithout(callers[c := phase], c);
    assert callers[c := phase] - {c} == callers - {c};
  }

  ghost function Work(s: State): nat {
    Total(s.callers) + |s.executing|
  }

  lemma ReleaseWorks(s: State)
    requires s.queue != [] ==> In(s, s.queue[0], Waiting)
    ensures Work(Release(s)) <= Work(s)
  {
    if s.queue != [] {
      TotalMoves(s.callers, s.queue[0], Granted);
    }
  }

  lemma MovingOnDoesWork(s: State, step: Step)
    requires PhasesAgree(s) && Enabled(s, step) && !step.Start? && !GivesUp(step)
    ensures Work(Apply(s, step)) < Work(s)
  {
    TotalMoves(s.callers, step.c, Apply(s, step).callers[step.c]);
  }

  lemma GivingUpDoesWork(s: State, step: Step)
    requires PhasesAgree(s) && Enabled(s, step) && GivesUp(step)
    ensures Work(Apply(s, step)) < Work(s)
  {
    assert s.queue != [] ==> s.queue[0] in s.queue;
    match step
    case TimeOut(c) => TotalMoves(s.callers, c, Returned(TimedOut));
    case Cancel(c) =>
      TotalMoves(s.callers, c, Cancelled);
      if s.callers[c].Granted? {
        ReleaseWorks(At(s, c, Cancelled).(granted := s.granted - {c}, waiting := s.waiting + 1));
      }
    case Finish(j, panicked) =>
      ReleaseWorks(s.(executing := s.executing - {j}, finished := s.finished[j := panicked]));
  }

  /** Without new callers every run is finite. */
  lemma {:induction false} RunsEnd(config: Config, s: State, steps: seq<Step>)
    requires Inv(config, s) && IsRun(s, steps)
    requires forall i :: 0 <= i < |steps| ==> !steps[i].Start?
    ensures |steps| <= Work(s)
    decreases |steps|
  {
    if steps == [] {
    } else {
      if GivesUp(steps[0]) {
        GivingUpDoesWork(s, steps[0]);
      } else {
        MovingOnDoesWork(s, steps[0]);
      }
      StepKeepsInv(config, s, steps[0]);
      assert forall i :: 0 <= i < |steps[1..]| ==> steps[1..][i] == steps[i + 1];
      RunsEnd(config, Apply(s, steps[0]), steps[1..]);
    }
  }

  lemma StepDoesWork(s: State, step: Step)
    requires PhasesAgree(s) && Enabled(s, step) && !step.Start?
    ensures Work(Apply(s, step)) < Work(s)
  {
    if GivesUp(step) {
      GivingUpDoesWork(s, step);
    } else {
      MovingOnDoesWork(s, step);
    }
  }

  /** Nobody new, and nobody who waits gives up. */
  predicate Patient(steps: seq<Step>) {
    forall i :: 0 <= i < |steps| ==> !steps[i].Start? && !steps[i].TimeOut? && !steps[i].Cancel?
  }

  lemma RunCons(s: State, step: Step, rest: seq<Step>)
    requires Enabled(s, step) && IsRun(Apply(s, step), rest)
    ensures IsRun(s, [step] + rest) && Run(s, [step] + rest) == Run(Apply(s, step), rest)
  {
    assert ([step] + rest)[1..] == rest;
  }

  /** Nobody needs to give up: with an execution slot at all, whatever has happened so far
      can be run on, without new callers, timeouts or cancellations, until every caller is
      answered, no job runs and every permit is back. */
  lemma {:induction false} EveryoneCanBeAnswered(config: Config, s: State) returns (steps: seq<Step>)
    requires Inv(config, s) && config.concurrency > 0
    ensures IsRun(s, steps) && Patient(steps)
    ensures var end := Run(s, steps);
            Quiescent(end) && end.running == config.concurrency && end.waiting == config.queueCapacity
    decreases Work(s)
  {
    if Quiescent(s) {
      steps := [];
      QuiescentPermits(config, s);
    } else {
      var step := NeverStuck(config, s);
      var next := Apply(s, step);
      assert Work(next) < Work(s) by {
        StepDoesWork(s, step);
      }
      assert Inv(config, next) by {
        StepKeepsInv(config, s, step);
      }
      var rest := EveryoneCanBeAnswered(config, next);
      RunCons(s, step, rest);
      steps := [step] + rest;
    }
  }

  // ---------------------------------------------------------------------------
  // The code between two awaits, as those steps
  // ---------------------------------------------------------------------------

  datatype Admission = Admitted | QueueFullNow | MustWait

  class Semaphores {
    var running: nat
    var waiting: nat
    var queue: seq<CallerId>
    ghost var world: State

    ghost predicate Agrees()
      reads this
    {
      world.running == running && world.waiting == waiting && world.queue == queue
    }

    constructor (config: Config)
      ensures world == Idle(config) && Agrees()
    {
      running, waiting, queue, world := config.concurrency, config.queueCapacity, [], Idle(config);
    }

    /** An execution permit at once and the job spawned; else a waiting permit and
        a place in the queue; else the caller is turned away. */
    method Enter(c: CallerId, j: JobId) returns (admission: Admission, ghost steps: seq<Step>)
      requires Agrees() && Enabled(world, Start(c, j)) && (queue != [] ==> running == 0)
      modifies this
      ensures Agrees() && IsRun(old(world), steps) && world == Run(old(world), steps)
      ensures In(world, c, if admission.Admitted? then Awaiting(j)
                           else if admission.MustWait? then Waiting else Returned(QueueFull))
      ensures admission.Admitted? <==> old(running) > 0
      ensures admission.QueueFullNow? <==> old(running) == 0 && old(waiting) == 0
    {
      if running > 0 {
        running := running - 1;
        steps := Took([], Start(c, j));
        return Admitted, steps;
      }
      steps := Took([], Start(c, j));
      if waiting == 0 {
        steps := Took(steps, Knock(c));
        return QueueFullNow, steps;
      }
      waiting := waiting - 1;
      steps := Took(steps, Knock(c));
      queue := queue + [c];
      steps := Took(steps, Enqueue(c));
      return MustWait, steps;
    }

    ghost method Took(done: seq<Step>, step: Step) returns (steps: seq<Step>)
      requires Enabled(world, step)
      modifies `world
      ensures world == Apply(old(world), step)
      ensures steps == done + [step]
      ensures forall before :: IsRun(before, done) && old(world) == Run(before, done) ==>
                IsRun(before, steps) && world == Run(before, steps)
    {
      forall before | IsRun(before, done) && world == Run(before, done)
        ensures IsRun(before, done + [step]) && Apply(world, step) == Run(before, done + [step])
      {
        RunAppend(before, done, step);
      }
      world := Apply(world, step);
      steps := done + [step];
    }

    /** Dropping an execution permit: it goes to the oldest waiter, if any. */
    method ReleasePermit()
      modifies `running, `queue
      ensures queue == if old(queue) == [] then [] else old(queue)[1..]
      ensures running == if old(queue) == [] then old(running) + 1 else old(running)
    {
      if queue == [] {
        running := running + 1;
      } else {
        queue := queue[1..];
      }
    }

    /** A job that ends, normally or by a panic, drops its permit. */
    method EndJob(j: JobId, panicked: bool)
      requires Agrees() && Enabled(world, Finish(j, panicked))
      modifies this
      ensures Agrees() && world == Apply(old(world), Finish(j, panicked))
    {
      ReleasePermit();
      world := Apply(world, Finish(j, panicked));
    }

    /** A granted caller resumes: it drops its waiting permit and spawns its job,
        which takes the execution permit along. */
    method ResumeGranted(c: CallerId, j: JobId)
      requires Agrees() && Enabled(world, Resume(c, j))
      modifies this
      ensures Agrees() && world == Apply(old(world), Resume(c, j))
    {
      waiting := waiting + 1;
      world := Apply(world, Resume(c, j));
    }
  }

  lemma {:induction false} RunAppend(s: State, done: seq<Step>, step: Step)
    requires IsRun(s, done) && Enabled(Run(s, done), step)
    ensures IsRun(s, done + [step]) && Run(s, done + [step]) == Apply(Run(s, done), step)
    decreases |done|
  {
    if done == [] {
      assert ([] + [step])[1..] == [];
    } else {
      RunAppend(Apply(s, done[0]), done[1..], step);
      assert (done + [step])[1..] == done[1..] + [step];
    }
  }
}
