/**
  Weighted admission: `RenderCatalog` validates its jobs, then runs one task a
  job, each holding its weight of a shared semaphore while it renders. Of the
  semaphore its contract is used: waiters are granted first come, first served,
  nobody overtakes a waiter, a request beyond the whole capacity only waits for
  its context, and a cancelled request gives back what it was granted. Of the
  error group: the first error is kept and cancels the rest, and `Wait` waits
  for every task.
*/
module WeightedSemaphore {
  import opened Wrappers
  import opened Folds
  import opened Runs

  datatype RenderJob = RenderJob(assetId: string, memoryMB: int, pages: int, preset: string)

  datatype RenderArtifact = RenderArtifact(assetId: string, outputPath: string, thumbnailCount: int, peakMemoryMB: int)

  const NO_ARTIFACT := RenderArtifact("", "", 0, 0)

  datatype Rendered = Rendered(artifact: RenderArtifact) | RenderFailed(error: string)

  datatype Error = AcquireCancelled | RenderError(assetId: string, error: string)

  // ----- validation

  datatype Rejection = BadCapacity | EmptyAsset(index: nat) | TooSmall(index: nat) | TooBig(index: nat)

  function Check(job: RenderJob, capacity: int, index: nat): Option<Rejection> {
    if job.assetId == "" then Some(EmptyAsset(index))
    else if job.memoryMB < 1 then Some(TooSmall(index))
    else if job.memoryMB > capacity then Some(TooBig(index))
    else None
  }

  /** The job can be admitted at all. */
  predicate Admissible(job: RenderJob, capacity: int) {
    job.assetId != "" && 1 <= job.memoryMB <= capacity
  }

  /** The rejection names its own fault: the capacity, or of the first job that cannot be admitted the first fault. */
  ghost predicate RightlyRejected(rejection: Rejection, jobs: seq<RenderJob>, capacity: int) {
    match rejection
    case BadCapacity => capacity < 1
    case EmptyAsset(k) => FirstFault(k, jobs, capacity) && jobs[k].assetId == ""
    case TooSmall(k) => FirstFault(k, jobs, capacity) && jobs[k].assetId != "" && jobs[k].memoryMB < 1
    case TooBig(k) => FirstFault(k, jobs, capacity) && jobs[k].assetId != "" && jobs[k].memoryMB > capacity
  }

  ghost predicate FirstFault(k: nat, jobs: seq<RenderJob>, capacity: int) {
    capacity >= 1 && k < |jobs| && forall j :: 0 <= j < k ==> Admissible(jobs[j], capacity)
  }

  /** The first job that cannot be admitted is the one reported, and without one there is no complaint. */
  method Validate(jobs: seq<RenderJob>, capacity: int) returns (r: Option<Rejection>)
    ensures capacity < 1 <==> r == Some(BadCapacity)
    ensures r.None? <==> capacity >= 1 && forall k :: 0 <= k < |jobs| ==> Admissible(jobs[k], capacity)
    ensures r.Some? && !r.value.BadCapacity? ==>
              && r.value.index < |jobs| && r == Check(jobs[r.value.index], capacity, r.value.index)
              && forall k :: 0 <= k < r.value.index ==> Admissible(jobs[k], capacity)
    ensures r.Some? ==> RightlyRejected(r.value, jobs, capacity)
  {
    if capacity < 1 {
      return Some(BadCapacity);
    }
    for i := 0 to |jobs|
      invariant forall k :: 0 <= k < i ==> Admissible(jobs[k], capacity)
    {
      r := Check(jobs[i], capacity, i);
      if r.Some? {
        return;
      }
    }
    r := None;
  }

  // ----- the tasks

  /**
    `Granted` is acquired but not yet noticed; `Doomed` asked for more than there
    is; `Releasing` is past the render with the deferred release still to run.
  */
  datatype Pc =
    | New
    | Doomed
    | Queued
    | Granted
    | Rendering
    | Releasing(err: Option<Error>)
    | Reporting(err: Option<Error>)
    | Done(err: Option<Error>)

  datatype Task = Task(weight: nat, pc: Pc, acquired: nat, released: nat)

  datatype State = State(
    jobs: seq<RenderJob>,
    capacity: nat,
    cur: int,
    waiters: seq<nat>,
    tasks: seq<Task>,
    cancelled: bool,
    firstErr: Option<Error>,
    artifacts: seq<RenderArtifact>,
    // history
    renders: map<nat, Rendered>)

  datatype Action =
    | ParentCancel
    | Acquire(t: nat)
    | AcquireAborted(t: nat)
    | WaitAborted(t: nat)
    | DoomEnds(t: nat)
    | Noticed(t: nat)
    | GiveBack(t: nat)
    | RenderReturn(t: nat, rendered: Rendered)
    | Release(t: nat)
    | Report(t: nat)

  function Init(jobs: seq<RenderJob>, capacity: nat): State {
    State(jobs, capacity, 0, [],
          seq(|jobs|, i requires 0 <= i < |jobs| =>
                Task(if jobs[i].memoryMB < 0 then 0 else jobs[i].memoryMB, New, 0, 0)),
          false, None, seq(|jobs|, i => NO_ARTIFACT), map[])
  }

  function At(s: State, t: nat, pc: Pc): State
    requires t < |s.tasks|
  {
    s.(tasks := s.tasks[t := s.tasks[t].(pc := pc)])
  }

  /** Take the weight of task `t`. */
  function Hold(s: State, t: nat, pc: Pc): State
    requires t < |s.tasks|
  {
    var task := s.tasks[t];
    s.(cur := s.cur + task.weight, tasks := s.tasks[t := task.(pc := pc, acquired := task.acquired + 1)])
  }

  /** The weight of task `t` put back, before anybody is let in. */
  function Dropped(s: State, t: nat, pc: Pc): State
    requires t < |s.tasks|
  {
    var task := s.tasks[t];
    s.(cur := s.cur - task.weight, tasks := s.tasks[t := task.(pc := pc, released := task.released + 1)])
  }

  /** Give it back, and let in whoever is next. */
  function Drop(s: State, t: nat, pc: Pc): State
    requires t < |s.tasks|
  {
    Grant(Dropped(s, t, pc))
  }

  /** Grant from the front of the queue for as long as the front fits. */
  function Grant(s: State): (r: State)
    ensures |r.tasks| == |s.tasks|
    decreases |s.waiters|
  {
    if s.waiters != [] && s.waiters[0] < |s.tasks| && s.cur + s.tasks[s.waiters[0]].weight <= s.capacity
    then Grant(Hold(s, s.waiters[0], Granted).(waiters := s.waiters[1..]))
    else s
  }

  /** The queue without its `k`-th waiter. */
  function Left(s: State, k: nat): State
    requires k < |s.waiters| && s.waiters[k] < |s.tasks|
  {
    At(s, s.waiters[k], Reporting(Some(AcquireCancelled))).(waiters := s.waiters[..k] + s.waiters[k + 1..])
  }

  /** Leave the queue; when the front leaves, the next may fit. */
  function Leave(s: State, t: nat): State
    requires t < |s.tasks| && t in s.waiters
  {
    var k := IndexOf(s.waiters, t);
    if k == 0 && s.cur < s.capacity then Grant(Left(s, k)) else Left(s, k)
  }

  function IndexOf(s: seq<nat>, t: nat): (k: nat)
    requires t in s
    ensures k < |s| && s[k] == t
  {
    if s[0] == t then 0 else 1 + IndexOf(s[1..], t)
  }

  function Step(s: State, a: Action): Option<State> {
    if a.ParentCancel? then if s.cancelled then None else Some(s.(cancelled := true))
    else if a.t >= |s.tasks| || |s.tasks| != |s.jobs| || |s.tasks| != |s.artifacts| then None
    else TaskStep(s, a)
  }

  function TaskStep(s: State, a: Action): Option<State>
    requires !a.ParentCancel? && a.t < |s.tasks| == |s.jobs| == |s.artifacts|
  {
    var t, task := a.t, s.tasks[a.t];
    match a
    case Acquire(_) =>
      if task.pc.New?
      then
        if task.weight > s.capacity then Some(At(s, t, Doomed))
        else if s.waiters == [] && s.cur + task.weight <= s.capacity then Some(Hold(s, t, Rendering))
        else Some(At(s, t, Queued).(waiters := s.waiters + [t]))
      else None
    case AcquireAborted(_) =>
      if task.pc.New? && s.cancelled then Some(At(s, t, Reporting(Some(AcquireCancelled)))) else None
    case WaitAborted(_) =>
      if task.pc.Queued? && s.cancelled && t in s.waiters then Some(Leave(s, t)) else None
    case DoomEnds(_) =>
      if task.pc.Doomed? && s.cancelled then Some(At(s, t, Reporting(Some(AcquireCancelled)))) else None
    case Noticed(_) => if task.pc.Granted? then Some(At(s, t, Rendering)) else None
    case GiveBack(_) =>
      if task.pc.Granted? && s.cancelled then Some(Drop(s, t, Reporting(Some(AcquireCancelled)))) else None
    case RenderReturn(_, rendered) =>
      if task.pc.Rendering?
      then
        match rendered
        case Rendered(artifact) =>
          Some(At(s, t, Releasing(None)).(artifacts := s.artifacts[t := artifact], renders := s.renders[t := rendered]))
        case RenderFailed(error) =>
          Some(At(s, t, Releasing(Some(RenderError(s.jobs[t].assetId, error)))).(renders := s.renders[t := rendered]))
      else None
    case Release(_) =>
      if task.pc.Releasing? then Some(Drop(s, t, Reporting(task.pc.err))) else None
    case Report(_) =>
      if task.pc.Reporting?
      then
        if task.pc.err.Some? && s.firstErr.None?
        then Some(At(s, t, Done(task.pc.err)).(firstErr := task.pc.err, cancelled := true))
        else Some(At(s, t, Done(task.pc.err)))
      else None
  }

  // ----- the invariant

  predicate Holds(pc: Pc) { pc.Granted? || pc.Rendering? || pc.Releasing? }

  /** What a task has of the semaphore. */
  function InUse(task: Task): nat { if Holds(task.pc) then task.weight else 0 }

  /** The memory of the jobs that are in `renderFn`. */
  function RenderingWeight(task: Task): nat { if task.pc.Rendering? then task.weight else 0 }

  ghost predicate Queue(s: State) {
    && (forall j, k :: 0 <= j < k < |s.waiters| ==> s.waiters[j] != s.waiters[k])
    && (forall k :: 0 <= k < |s.waiters| ==> s.waiters[k] < |s.tasks| && s.tasks[s.waiters[k]].pc.Queued?)
    && (forall t: nat :: t < |s.tasks| && s.tasks[t].pc.Queued? ==> t in s.waiters)
  }

  /** Every acquire is released once: a task holds exactly what it has not given back. */
  ghost predicate Balanced(task: Task) {
    && task.acquired == task.released + (if Holds(task.pc) then 1 else 0)
    && task.acquired <= 1 && (task.pc.New? || task.pc.Queued? || task.pc.Doomed? ==> task.acquired == 0)
    && (Succeeded(task.pc) ==> task.acquired == 1)
  }

  ghost predicate TaskOk(task: Task, capacity: nat) {
    && Balanced(task) && task.weight >= 1
    && (task.pc.Queued? ==> task.weight <= capacity)
    && (task.pc.Doomed? ==> task.weight > capacity)
  }

  ghost predicate Base(s: State) {
    && |s.tasks| == |s.jobs| == |s.artifacts|
    && (forall t :: 0 <= t < |s.tasks| ==> TaskOk(s.tasks[t], s.capacity))
    && 0 <= s.cur == Sum(s.tasks, InUse) <= s.capacity
    && Queue(s)
  }

  /** The first waiter does not fit; so nobody is kept waiting who could go. */
  ghost predicate FrontBlocked(s: State)
    requires Queue(s)
  {
    s.waiters != [] ==> s.cur + s.tasks[s.waiters[0]].weight > s.capacity
  }

  ghost predicate Succeeded(pc: Pc) {
    (pc.Releasing? || pc.Reporting? || pc.Done?) && pc.err.None?
  }

  ghost predicate Outcomes(s: State)
    requires |s.tasks| == |s.artifacts|
  {
    && (forall t: nat :: t < |s.tasks| && Succeeded(s.tasks[t].pc) ==>
          t in s.renders && s.renders[t] == Rendered(s.artifacts[t]))
    && (forall t :: 0 <= t < |s.tasks| && s.tasks[t].pc.Done? && s.tasks[t].pc.err.Some? ==> s.firstErr.Some?)
    && (s.firstErr.Some? ==> s.cancelled)
  }

  ghost predicate Inv(s: State) { Base(s) && FrontBlocked(s) && Outcomes(s) }

  lemma InitInv(jobs: seq<RenderJob>, capacity: nat)
    requires forall k :: 0 <= k < |jobs| ==> jobs[k].memoryMB >= 1
    ensures Inv(Init(jobs, capacity))
  {
    SumNone(Init(jobs, capacity).tasks, InUse);
  }

  /** What granting leaves alone: everything but queued tasks, which it may admit. */
  ghost predicate GrantedOnly(s: State, r: State) {
    && |r.tasks| == |s.tasks| && r == s.(cur := r.cur, waiters := r.waiters, tasks := r.tasks)
    && forall t :: 0 <= t < |s.tasks| ==>
         || r.tasks[t] == s.tasks[t]
         || (s.tasks[t].pc.Queued? && r.tasks[t] == s.tasks[t].(pc := Granted, acquired := s.tasks[t].acquired + 1))
  }

  lemma {:induction false} GrantInv(s: State)
    requires Base(s)
    ensures Base(Grant(s)) && FrontBlocked(Grant(s)) && GrantedOnly(s, Grant(s))
    decreases |s.waiters|
  {
    if s.waiters != [] && s.cur + s.tasks[s.waiters[0]].weight <= s.capacity {
      var one := Hold(s, s.waiters[0], Granted).(waiters := s.waiters[1..]);
      GrantOneInv(s);
      GrantInv(one);
      GrantedOnlyTrans(s, one, Grant(one));
    }
  }

  lemma GrantedOnlyTrans(s: State, m: State, r: State)
    requires GrantedOnly(s, m) && GrantedOnly(m, r)
    ensures GrantedOnly(s, r)
  {
  }

  lemma GrantOneInv(s: State)
    requires Base(s) && s.waiters != [] && s.cur + s.tasks[s.waiters[0]].weight <= s.capacity
    ensures var one := Hold(s, s.waiters[0], Granted).(waiters := s.waiters[1..]);
            Base(one) && GrantedOnly(s, one)
  {
    var w := s.waiters[0];
    var r := Hold(s, w, Granted).(waiters := s.waiters[1..]);
    SumUpdate(s.tasks, w, r.tasks[w], InUse);
    assert s.waiters == [w] + r.waiters;
    assert TaskOk(s.tasks[w], s.capacity) && TaskOk(r.tasks[w], r.capacity);
  }

  /** A task that is not in the queue moves, and the semaphore with it. */
  lemma MoveBase(s: State, t: nat, task: Task, cur: int)
    requires Base(s) && t < |s.tasks| && !s.tasks[t].pc.Queued? && !task.pc.Queued? && TaskOk(task, s.capacity)
    requires cur == s.cur - InUse(s.tasks[t]) + InUse(task) <= s.capacity
    ensures Base(s.(cur := cur, tasks := s.tasks[t := task]))
  {
    var r := s.(cur := cur, tasks := s.tasks[t := task]);
    SumUpdate(s.tasks, t, task, InUse);
    assert forall u :: 0 <= u < |s.tasks| && u != t ==> r.tasks[u] == s.tasks[u];
  }

  lemma DroppedBase(s: State, t: nat, pc: Pc)
    requires Base(s) && t < |s.tasks| && Holds(s.tasks[t].pc) && pc.Reporting?
    ensures Base(Dropped(s, t, pc))
  {
    assert TaskOk(s.tasks[t], s.capacity);
    MoveBase(s, t, Dropped(s, t, pc).tasks[t], Dropped(s, t, pc).cur);
  }

  lemma DropInv(s: State, t: nat, pc: Pc)
    requires Inv(s) && t < |s.tasks| && Holds(s.tasks[t].pc) && pc.Reporting?
    requires pc.err.None? ==> s.tasks[t].pc == Releasing(None)
    ensures Inv(Drop(s, t, pc))
  {
    DroppedBase(s, t, pc);
    GrantInv(Dropped(s, t, pc));
    DropOutcomes(s, t, pc);
  }

  lemma DropOutcomes(s: State, t: nat, pc: Pc)
    requires Inv(s) && t < |s.tasks| && Holds(s.tasks[t].pc) && pc.Reporting?
    requires pc.err.None? ==> s.tasks[t].pc == Releasing(None)
    ensures |Drop(s, t, pc).tasks| == |Drop(s, t, pc).artifacts| && Outcomes(Drop(s, t, pc))
  {
    var d, r := Dropped(s, t, pc), Drop(s, t, pc);
    DroppedBase(s, t, pc);
    GrantInv(d);
    forall u: nat | u < |r.tasks| && (Succeeded(r.tasks[u].pc) || r.tasks[u].pc.Done?)
      ensures r.tasks[u] == if u == t then d.tasks[t] else s.tasks[u]
    {
      assert r.tasks[u] == d.tasks[u];
    }
  }

  lemma LeftBase(s: State, k: nat)
    requires Base(s) && k < |s.waiters|
    ensures Base(Left(s, k))
  {
    SumUpdate(s.tasks, s.waiters[k], Left(s, k).tasks[s.waiters[k]], InUse);
    assert TaskOk(s.tasks[s.waiters[k]], s.capacity);
    LeftQueue(s, k);
  }

  lemma LeftQueue(s: State, k: nat)
    requires Queue(s) && k < |s.waiters|
    ensures Queue(Left(s, k))
  {
    var r := Left(s, k);
    assert forall j :: 0 <= j < |r.waiters| ==> r.waiters[j] == s.waiters[if j < k then j else j + 1];
    forall t: nat | t < |r.tasks| && r.tasks[t].pc.Queued? ensures t in r.waiters {
      StillQueued(s.waiters, k, t);
    }
  }

  lemma StillQueued(waiters: seq<nat>, k: nat, t: nat)
    requires k < |waiters| && t in waiters && t != waiters[k]
    ensures t in waiters[..k] + waiters[k + 1..]
  {
    var j :| 0 <= j < |waiters| && waiters[j] == t;
    assert (waiters[..k] + waiters[k + 1..])[if j < k then j else j - 1] == t;
  }

  /** When the front leaves, those behind it are let in; otherwise it still blocks them. */
  lemma LeaveBase(s: State, t: nat)
    requires Base(s) && FrontBlocked(s) && t < |s.tasks| && t in s.waiters
    ensures var k, r := IndexOf(s.waiters, t), Leave(s, t);
            Base(r) && FrontBlocked(r) && GrantedOnly(Left(s, k), r)
  {
    var k := IndexOf(s.waiters, t);
    LeftBase(s, k);
    GrantInv(Left(s, k));
    if !(k == 0 && s.cur < s.capacity) && Left(s, k).waiters != [] {
      var front := Left(s, k).waiters[0];
      assert TaskOk(s.tasks[front], s.capacity) && Left(s, k).tasks[front] == s.tasks[front];
    }
  }

  lemma LeaveInv(s: State, t: nat)
    requires Inv(s) && t < |s.tasks| && t in s.waiters
    ensures Inv(Leave(s, t))
  {
    LeaveBase(s, t);
    LeaveOutcomes(s, t);
  }

  lemma LeaveOutcomes(s: State, t: nat)
    requires Inv(s) && t < |s.tasks| && t in s.waiters
    ensures |Leave(s, t).tasks| == |Leave(s, t).artifacts| && Outcomes(Leave(s, t))
  {
    var r := Leave(s, t);
    LeaveBase(s, t);
    forall u: nat | u < |r.tasks| && (Succeeded(r.tasks[u].pc) || r.tasks[u].pc.Done?)
      ensures r.tasks[u] == s.tasks[u]
    {
      assert r.tasks[u] == Left(s, IndexOf(s.waiters, t)).tasks[u];
    }
  }

  lemma EnqueueQueue(s: State, t: nat)
    requires Base(s) && t < |s.tasks| && s.tasks[t].pc.New?
    ensures Queue(At(s, t, Queued).(waiters := s.waiters + [t]))
  {
    var r := At(s, t, Queued).(waiters := s.waiters + [t]);
    assert forall u: nat :: u in s.waiters || u == t ==> u in r.waiters;
    assert forall u :: 0 <= u < |s.tasks| && u != t ==> r.tasks[u] == s.tasks[u];
  }

  lemma EnqueueBase(s: State, t: nat)
    requires Base(s) && t < |s.tasks| && s.tasks[t].pc.New? && s.tasks[t].weight <= s.capacity
    ensures Base(At(s, t, Queued).(waiters := s.waiters + [t]))
  {
    var r := At(s, t, Queued).(waiters := s.waiters + [t]);
    assert TaskOk(s.tasks[t], s.capacity);
    SumUpdate(s.tasks, t, r.tasks[t], InUse);
    EnqueueQueue(s, t);
  }

  lemma AcquireInv(s: State, t: nat)
    requires Inv(s) && Step(s, Acquire(t)).Some?
    ensures Inv(Step(s, Acquire(t)).value)
  {
    var r := Step(s, Acquire(t)).value;
    assert TaskOk(s.tasks[t], s.capacity);
    if r.tasks[t].pc.Queued? {
      EnqueueBase(s, t);
      assert s.waiters != [] ==> r.waiters[0] == s.waiters[0];
    } else {
      MoveBase(s, t, r.tasks[t], r.cur);
    }
  }

  lemma OutcomesRender(s: State, t: nat, rendered: Rendered)
    requires Inv(s) && Step(s, RenderReturn(t, rendered)).Some?
    ensures var r := Step(s, RenderReturn(t, rendered)).value; |r.tasks| == |r.artifacts| && Outcomes(r)
  {
  }

  lemma OutcomesLocal(s: State, a: Action)
    requires Inv(s) && Step(s, a).Some?
    requires a.AcquireAborted? || a.DoomEnds? || a.Noticed? || a.RenderReturn? || a.Report?
    ensures |Step(s, a).value.tasks| == |Step(s, a).value.artifacts| && Outcomes(Step(s, a).value)
  {
    if a.RenderReturn? {
      OutcomesRender(s, a.t, a.rendered);
    } else {
      assert forall u :: 0 <= u < |s.tasks| && u != a.t ==> Step(s, a).value.tasks[u] == s.tasks[u];
    }
  }

  lemma BaseFrame(s: State, r: State)
    requires Base(s) && FrontBlocked(s)
    requires r.jobs == s.jobs && r.capacity == s.capacity && r.cur == s.cur && r.waiters == s.waiters
    requires r.tasks == s.tasks && |r.artifacts| == |s.artifacts|
    ensures Base(r) && FrontBlocked(r)
  {
  }

  lemma MovedTaskOk(s: State, a: Action)
    requires Inv(s) && Step(s, a).Some?
    requires a.AcquireAborted? || a.DoomEnds? || a.Noticed? || a.RenderReturn? || a.Report?
    ensures var r := Step(s, a).value;
            && r == s.(tasks := r.tasks, artifacts := r.artifacts, renders := r.renders,
                       firstErr := r.firstErr, cancelled := r.cancelled)
            && |r.artifacts| == |s.artifacts|
            && !s.tasks[a.t].pc.Queued? && r.tasks == s.tasks[a.t := r.tasks[a.t]]
            && !r.tasks[a.t].pc.Queued? && TaskOk(r.tasks[a.t], s.capacity)
            && InUse(r.tasks[a.t]) == InUse(s.tasks[a.t])
  {
    assert TaskOk(s.tasks[a.t], s.capacity);
  }

  /** The steps that move one task and leave the semaphore alone. */
  lemma LocalInv(s: State, a: Action)
    requires Inv(s) && Step(s, a).Some?
    requires a.AcquireAborted? || a.DoomEnds? || a.Noticed? || a.RenderReturn? || a.Report?
    ensures Inv(Step(s, a).value)
  {
    var r := Step(s, a).value;
    MovedTaskOk(s, a);
    MoveBase(s, a.t, r.tasks[a.t], s.cur);
    assert s.waiters != [] ==> r.tasks[s.waiters[0]] == s.tasks[s.waiters[0]];
    BaseFrame(s.(tasks := r.tasks), r);
    OutcomesLocal(s, a);
  }

  lemma StepInv(s: State, a: Action)
    requires Inv(s) && Step(s, a).Some?
    ensures Inv(Step(s, a).value) && Step(s, a).value.jobs == s.jobs && Step(s, a).value.capacity == s.capacity
    ensures |Step(s, a).value.tasks| == |s.tasks|
  {
    match a
    case ParentCancel =>
    case Acquire(t) => AcquireInv(s, t);
    case WaitAborted(t) =>
      LeaveInv(s, t);
      LeaveLetsIn(s, t);
    case GiveBack(t) =>
      DropInv(s, t, Reporting(Some(AcquireCancelled)));
      DropLetsIn(s, t, Reporting(Some(AcquireCancelled)));
    case Release(t) =>
      DropInv(s, t, Reporting(s.tasks[t].pc.err));
      DropLetsIn(s, t, Reporting(s.tasks[t].pc.err));
    case _ => LocalInv(s, a);
  }

  // ----- every run

  predicate Positive(jobs: seq<RenderJob>) { forall k :: 0 <= k < |jobs| ==> jobs[k].memoryMB >= 1 }

  predicate Fits(jobs: seq<RenderJob>, capacity: nat) {
    forall k :: 0 <= k < |jobs| ==> jobs[k].memoryMB <= capacity
  }

  /** The task of a job keeps the job's weight. */
  ghost predicate Weighed(s: State) {
    |s.tasks| == |s.jobs| && forall t :: 0 <= t < |s.tasks| ==> s.tasks[t].weight == s.jobs[t].memoryMB
  }

  /** No step changes a task's weight. */
  ghost predicate SameWeights(s: State, r: State) {
    |r.tasks| == |s.tasks| && forall t :: 0 <= t < |s.tasks| ==> r.tasks[t].weight == s.tasks[t].weight
  }

  /** What is granted is a part of the queue from its front, and nothing else moves. */
  lemma {:induction false} GrantsFront(s: State) returns (n: nat)
    requires Base(s)
    ensures n <= |s.waiters| && Grant(s).waiters == s.waiters[n..]
    ensures forall t :: 0 <= t < |s.tasks| && t !in s.waiters[..n] ==> Grant(s).tasks[t] == s.tasks[t]
    decreases |s.waiters|
  {
    n := 0;
    if s.waiters != [] && s.cur + s.tasks[s.waiters[0]].weight <= s.capacity {
      var one := Hold(s, s.waiters[0], Granted).(waiters := s.waiters[1..]);
      GrantOneInv(s);
      var m := GrantsFront(one);
      n := m + 1;
      OneMoreGranted(s.waiters, m);
      assert Grant(s) == Grant(one);
    }
  }

  lemma OneMoreGranted(waiters: seq<nat>, m: nat)
    requires m < |waiters|
    ensures waiters[1..][m..] == waiters[m + 1..]
    ensures forall t :: t !in waiters[..m + 1] ==> t != waiters[0] && t !in waiters[1..][..m]
  {
    assert waiters[..m + 1] == [waiters[0]] + waiters[1..][..m];
  }

  /** Task `v` is before task `u` in the queue. */
  ghost predicate Ahead(waiters: seq<nat>, v: nat, u: nat) {
    exists j, k :: 0 <= j < k < |waiters| && waiters[j] == v && waiters[k] == u
  }

  /** Who is let in while `u` goes on waiting was ahead of `u`. */
  lemma GrantInOrder(s: State, u: nat, v: nat)
    requires Base(s) && v < |s.tasks| && u in Grant(s).waiters && Grant(s).tasks[v] != s.tasks[v]
    ensures Ahead(s.waiters, v, u)
  {
    var n := GrantsFront(s);
    var j :| 0 <= j < n && s.waiters[j] == v;
    var k :| 0 <= k < |s.waiters[n..]| && s.waiters[n..][k] == u;
    assert s.waiters[n + k] == u;
  }

  lemma LeaveInOrder(s: State, t: nat, u: nat, v: nat)
    requires Base(s) && t < |s.tasks| && t in s.waiters && v < |s.tasks| && v != t
    requires u in Leave(s, t).waiters && Leave(s, t).tasks[v] != s.tasks[v]
    ensures Ahead(s.waiters, v, u)
  {
    if IndexOf(s.waiters, t) == 0 && s.cur < s.capacity {
      LeftBase(s, 0);
      assert Left(s, 0).waiters == s.waiters[1..];
      GrantInOrder(Left(s, 0), u, v);
      AheadLater(s.waiters, v, u);
    }
  }

  lemma AheadLater(waiters: seq<nat>, v: nat, u: nat)
    requires waiters != [] && Ahead(waiters[1..], v, u)
    ensures Ahead(waiters, v, u)
  {
    var rest := waiters[1..];
    var j, k :| 0 <= j < k < |rest| && rest[j] == v && rest[k] == u;
    assert waiters[j + 1] == v && waiters[k + 1] == u;
  }

  lemma DropInOrder(s: State, t: nat, pc: Pc, u: nat, v: nat)
    requires Base(s) && t < |s.tasks| && Holds(s.tasks[t].pc) && pc.Reporting? && v < |s.tasks| && v != t
    requires u in Drop(s, t, pc).waiters && Drop(s, t, pc).tasks[v] != s.tasks[v]
    ensures Ahead(s.waiters, v, u)
  {
    DroppedBase(s, t, pc);
    GrantInOrder(Dropped(s, t, pc), u, v);
  }

  /** Nobody overtakes: whoever is let in by a step is ahead of everyone who was waiting before it and still is. */
  lemma NobodyOvertakes(s: State, a: Action, u: nat, v: nat)
    requires Inv(s) && Step(s, a).Some? && v < |s.tasks|
    requires u in s.waiters && u in Step(s, a).value.waiters
    requires |Step(s, a).value.tasks| == |s.tasks|
    requires !Holds(s.tasks[v].pc) && Holds(Step(s, a).value.tasks[v].pc)
    ensures Ahead(s.waiters, v, u)
  {
    if a.WaitAborted? {
      LeaverWaits(s, a.t);
      LeaveInOrder(s, a.t, u, v);
    } else if a.Release? {
      DropInOrder(s, a.t, Reporting(s.tasks[a.t].pc.err), u, v);
    } else if a.GiveBack? {
      DropInOrder(s, a.t, Reporting(Some(AcquireCancelled)), u, v);
    }
  }

  lemma LeaverWaits(s: State, t: nat)
    requires Inv(s) && t < |s.tasks| && t in s.waiters
    ensures |Leave(s, t).tasks| == |s.tasks| && !Holds(Leave(s, t).tasks[t].pc)
  {
    LeaveBase(s, t);
  }

  /** What a step may do to the tasks: one of them moves, the queued ones may be granted. */
  ghost predicate OthersWait(s: State, r: State, t: nat) {
    |r.tasks| == |s.tasks| && forall u :: 0 <= u < |s.tasks| && u != t ==>
      r.tasks[u] == s.tasks[u] || (s.tasks[u].pc.Queued? && r.tasks[u].pc.Granted?)
  }

  /** Task `t` moves to `pc`, and all that changes besides is who is let in. */
  ghost predicate LetsIn(s: State, r: State, t: nat, pc: Pc) {
    && t < |s.tasks| && SameWeights(s, r) && OthersWait(s, r, t) && r.tasks[t].pc == pc
    && r == s.(cur := r.cur, waiters := r.waiters, tasks := r.tasks)
  }

  lemma DropLetsIn(s: State, t: nat, pc: Pc)
    requires Base(s) && t < |s.tasks| && Holds(s.tasks[t].pc) && pc.Reporting?
    ensures LetsIn(s, Drop(s, t, pc), t, pc)
  {
    DroppedBase(s, t, pc);
    GrantInv(Dropped(s, t, pc));
  }

  lemma LeaveLetsIn(s: State, t: nat)
    requires Base(s) && FrontBlocked(s) && t < |s.tasks| && t in s.waiters
    ensures LetsIn(s, Leave(s, t), t, Reporting(Some(AcquireCancelled)))
  {
    LeaveBase(s, t);
    LeftThenGranted(s, Left(s, IndexOf(s.waiters, t)), Leave(s, t), t);
  }

  lemma LeftThenGranted(s: State, l: State, r: State, t: nat)
    requires t < |s.tasks| && l.tasks == s.tasks[t := s.tasks[t].(pc := Reporting(Some(AcquireCancelled)))]
    requires l == s.(waiters := l.waiters, tasks := l.tasks) && GrantedOnly(l, r)
    ensures LetsIn(s, r, t, Reporting(Some(AcquireCancelled)))
  {
    assert r.tasks[t] == l.tasks[t];
  }

  /** The steps that do not let anybody in rewrite one task. */
  predicate OneTask(a: Action) { !a.ParentCancel? && !a.WaitAborted? && !a.GiveBack? && !a.Release? }

  lemma OneTaskShape(s: State, a: Action)
    requires OneTask(a) && Step(s, a).Some?
    ensures var r := Step(s, a).value;
            && a.t < |s.tasks| == |r.tasks| && r.tasks == s.tasks[a.t := r.tasks[a.t]]
            && r.tasks[a.t].weight == s.tasks[a.t].weight && Weight(r.tasks[a.t]) < Weight(s.tasks[a.t])
            && (s.cancelled ==> r.cancelled)
  {
  }

  lemma StepSameWeights(s: State, a: Action)
    requires Inv(s) && Step(s, a).Some?
    ensures SameWeights(s, Step(s, a).value)
  {
    match a
    case WaitAborted(t) => LeaveLetsIn(s, t);
    case GiveBack(t) => DropLetsIn(s, t, Reporting(Some(AcquireCancelled)));
    case Release(t) => DropLetsIn(s, t, Reporting(s.tasks[t].pc.err));
    case ParentCancel =>
    case _ => OneTaskShape(s, a);
  }

  lemma StepWeighed(s: State, a: Action)
    requires Inv(s) && Weighed(s) && Step(s, a).Some?
    ensures Weighed(Step(s, a).value)
  {
    StepInv(s, a);
    StepSameWeights(s, a);
  }

  lemma EveryRun(jobs: seq<RenderJob>, capacity: nat, run: seq<Action>)
    requires Positive(jobs) && Exec(Step, Init(jobs, capacity), run).Some?
    ensures var s := Exec(Step, Init(jobs, capacity), run).value;
            Inv(s) && Weighed(s) && s.jobs == jobs && s.capacity == capacity
  {
    InitInv(jobs, capacity);
    var inv := (s: State) => Inv(s) && Weighed(s) && s.jobs == jobs && s.capacity == capacity;
    forall s: State, a: Action | inv(s) && Step(s, a).Some? ensures inv(Step(s, a).value) {
      StepInv(s, a);
      StepWeighed(s, a);
    }
    Invariant(Step, inv, Init(jobs, capacity), run);
  }

  /** The jobs that are rendering never need more memory than there is. */
  lemma WithinCapacity(jobs: seq<RenderJob>, capacity: nat, run: seq<Action>)
    requires Positive(jobs) && Exec(Step, Init(jobs, capacity), run).Some?
    ensures Sum(Exec(Step, Init(jobs, capacity), run).value.tasks, RenderingWeight) <= capacity
  {
    EveryRun(jobs, capacity, run);
    SumMonotone(Exec(Step, Init(jobs, capacity), run).value.tasks, RenderingWeight, InUse);
  }

  /** In every run, a task that is done has released exactly what it acquired, on whatever path it came. */
  lemma ReleasedOnce(jobs: seq<RenderJob>, capacity: nat, run: seq<Action>, t: nat)
    requires Positive(jobs) && Exec(Step, Init(jobs, capacity), run).Some? && t < |jobs|
    ensures var s := Exec(Step, Init(jobs, capacity), run).value;
            && |s.tasks| == |jobs| == |s.artifacts|
            && (s.tasks[t].pc.Done? ==>
                  && s.tasks[t].acquired == s.tasks[t].released <= 1
                  && (s.tasks[t].pc.err.None? ==>
                        s.tasks[t].released == 1 && t in s.renders && s.renders[t] == Rendered(s.artifacts[t])))
  {
    EveryRun(jobs, capacity, run);
    assert TaskOk(Exec(Step, Init(jobs, capacity), run).value.tasks[t], capacity);
  }

  /** Nobody waits for nothing: whenever somebody waits, somebody holds, and the front really does not fit. */
  lemma WaitersHaveHolder(s: State) returns (t: nat)
    requires Inv(s) && s.waiters != []
    ensures t < |s.tasks| && Holds(s.tasks[t].pc)
    ensures s.cur + s.tasks[s.waiters[0]].weight > s.capacity >= s.cur
  {
    assert TaskOk(s.tasks[s.waiters[0]], s.capacity);
    t := SumPositive(s.tasks, InUse);
  }

  // ----- progress

  function Weight(task: Task): nat {
    match task.pc
    case New => 8
    case Doomed => 7
    case Queued => 7
    case Granted => 6
    case Rendering => 5
    case Releasing(_) => 4
    case Reporting(_) => 3
    case Done(_) => 0
  }

  function Rank(s: State): nat { Sum(s.tasks, Weight) + if s.cancelled then 0 else 1 }

  lemma {:induction false} GrantLowersRank(s: State)
    requires Base(s)
    ensures Sum(Grant(s).tasks, Weight) <= Sum(s.tasks, Weight)
    decreases |s.waiters|
  {
    if s.waiters != [] && s.cur + s.tasks[s.waiters[0]].weight <= s.capacity {
      var r := Hold(s, s.waiters[0], Granted).(waiters := s.waiters[1..]);
      GrantOneInv(s);
      SumUpdate(s.tasks, s.waiters[0], r.tasks[s.waiters[0]], Weight);
      GrantLowersRank(r);
    }
  }

  lemma LeaveLowersRank(s: State, t: nat)
    requires Base(s) && t < |s.tasks| && t in s.waiters
    ensures Rank(Leave(s, t)) < Rank(s)
  {
    var k := IndexOf(s.waiters, t);
    LeftBase(s, k);
    SumUpdate(s.tasks, t, Left(s, k).tasks[t], Weight);
    GrantLowersRank(Left(s, k));
    GrantInv(Left(s, k));
  }

  lemma OneTaskLowersRank(s: State, a: Action)
    requires OneTask(a) && Step(s, a).Some?
    ensures Rank(Step(s, a).value) < Rank(s)
  {
    OneTaskShape(s, a);
    SumUpdate(s.tasks, a.t, Step(s, a).value.tasks[a.t], Weight);
  }

  lemma StepLowersRank(s: State, a: Action)
    requires Inv(s) && Step(s, a).Some?
    ensures Rank(Step(s, a).value) < Rank(s)
  {
    match a
    case ParentCancel =>
    case WaitAborted(t) => LeaveLowersRank(s, t);
    case GiveBack(t) => DropLowersRank(s, t, Reporting(Some(AcquireCancelled)));
    case Release(t) => DropLowersRank(s, t, Reporting(s.tasks[t].pc.err));
    case _ => OneTaskLowersRank(s, a);
  }

  lemma DropLowersRank(s: State, t: nat, pc: Pc)
    requires Base(s) && t < |s.tasks| && Holds(s.tasks[t].pc) && pc.Reporting?
    ensures Rank(Drop(s, t, pc)) < Rank(s)
  {
    DroppedBase(s, t, pc);
    SumUpdate(s.tasks, t, Dropped(s, t, pc).tasks[t], Weight);
    GrantLowersRank(Dropped(s, t, pc));
    GrantInv(Dropped(s, t, pc));
  }

  /** Some task can move, as long as one is neither done nor doomed. */
  lemma Progress(s: State, t: nat) returns (a: Action)
    requires Inv(s) && t < |s.tasks| && !s.tasks[t].pc.Done? && !s.tasks[t].pc.Doomed?
    ensures !a.ParentCancel? && Step(s, a).Some?
  {
    var u := t;
    if s.tasks[t].pc.Queued? {
      u := WaitersHaveHolder(s);
    }
    a := match s.tasks[u].pc
      case New => Acquire(u)
      case Granted => Noticed(u)
      case Rendering => RenderReturn(u, RenderFailed(""))
      case Releasing(_) => Release(u)
      case _ => Report(u);
  }

  ghost predicate Stuck(s: State) { forall a: Action :: !a.ParentCancel? ==> Step(s, a).None? }

  /**
    With validated weights there is no deadlock: every run is finite, and one
    that cannot be extended has every task done and the whole capacity back.
  */
  lemma EveryRunEnds(jobs: seq<RenderJob>, capacity: nat, run: seq<Action>)
    requires Positive(jobs) && Fits(jobs, capacity) && Exec(Step, Init(jobs, capacity), run).Some?
    ensures |run| <= Rank(Init(jobs, capacity))
    ensures var s := Exec(Step, Init(jobs, capacity), run).value;
            Stuck(s) ==> s.cur == 0 && forall t :: 0 <= t < |s.tasks| ==> s.tasks[t].pc.Done?
  {
    InitInv(jobs, capacity);
    EveryRun(jobs, capacity, run);
    RunBounded(Init(jobs, capacity), run);
    var s := Exec(Step, Init(jobs, capacity), run).value;
    if Stuck(s) {
      StuckMeansDone(s);
    }
  }

  lemma RunBounded(s0: State, run: seq<Action>)
    requires Inv(s0) && Exec(Step, s0, run).Some?
    ensures |run| <= Rank(s0)
  {
    forall s: State, a: Action | Inv(s) && Step(s, a).Some?
      ensures Inv(Step(s, a).value) && Rank(Step(s, a).value) < Rank(s)
    {
      StepInv(s, a);
      StepLowersRank(s, a);
    }
    Bounded(Step, s => Inv(s), Rank, s0, run);
  }

  lemma StuckMeansDone(s: State)
    requires Inv(s) && Weighed(s) && Fits(s.jobs, s.capacity) && Stuck(s)
    ensures s.cur == 0 && forall t :: 0 <= t < |s.tasks| ==> s.tasks[t].pc.Done?
  {
    forall t | 0 <= t < |s.tasks| ensures s.tasks[t].pc.Done? {
      assert TaskOk(s.tasks[t], s.capacity);
      if !s.tasks[t].pc.Done? {
        var a := Progress(s, t);
        assert false;
      }
    }
    SumNone(s.tasks, InUse);
  }

  /** No error is on its way to the group. */
  ghost predicate Smooth(s: State) {
    !s.cancelled && forall t :: 0 <= t < |s.tasks| ==>
      match s.tasks[t].pc
      case Releasing(err) => err.None?
      case Reporting(err) => err.None?
      case _ => true
  }

  /**
    And without that validation there is one: a job heavier than the capacity,
    once it asks, waits for as long as no context ends and no render fails.
  */
  lemma OversizedWaitsForever(s: State, t: nat, run: seq<Action>)
    requires Inv(s) && Smooth(s) && t < |s.tasks| && s.tasks[t].pc.Doomed? && Exec(Step, s, run).Some?
    requires forall k :: 0 <= k < |run| ==>
               !run[k].ParentCancel? && !(run[k].RenderReturn? && run[k].rendered.RenderFailed?)
    ensures var r := Exec(Step, s, run).value; t < |r.tasks| && r.tasks[t].pc.Doomed?
  {
    var inv := (r: State) => Inv(r) && Smooth(r) && t < |r.tasks| && r.tasks[t].pc.Doomed?;
    var only := (a: Action) => !a.ParentCancel? && !(a.RenderReturn? && a.rendered.RenderFailed?);
    forall r: State, a: Action | inv(r) && only(a) && Step(r, a).Some? ensures inv(Step(r, a).value) {
      StepInv(r, a);
      SmoothStays(r, a);
    }
    InvariantOnly(Step, only, inv, s, run);
  }

  lemma SmoothStays(s: State, a: Action)
    requires Inv(s) && Smooth(s) && !a.ParentCancel? && !(a.RenderReturn? && a.rendered.RenderFailed?)
    requires Step(s, a).Some?
    ensures Smooth(Step(s, a).value)
    ensures forall t :: 0 <= t < |s.tasks| && s.tasks[t].pc.Doomed? ==>
              t < |Step(s, a).value.tasks| && Step(s, a).value.tasks[t].pc.Doomed?
  {
    if a.Release? {
      DropLetsIn(s, a.t, Reporting(s.tasks[a.t].pc.err));
    }
  }

  // ----- what an error tells

  predicate HasErr(pc: Pc) { (pc.Releasing? || pc.Reporting? || pc.Done?) && pc.err.Some? }

  /** The error is a cancelled acquire, or the failed render it names. */
  ghost predicate Explains(s: State, err: Error) {
    err.AcquireCancelled? ||
    exists t :: t in s.renders && t < |s.jobs| &&
      s.renders[t] == RenderFailed(err.error) && s.jobs[t].assetId == err.assetId
  }

  ghost predicate Explained(s: State) {
    && (forall t :: t in s.renders && t < |s.tasks| ==>
          s.tasks[t].pc.Releasing? || s.tasks[t].pc.Reporting? || s.tasks[t].pc.Done?)
    && (forall t :: 0 <= t < |s.tasks| && HasErr(s.tasks[t].pc) ==> Explains(s, s.tasks[t].pc.err.value))
    && (s.firstErr.Some? ==> Explains(s, s.firstErr.value))
  }

  /** Task `t` passes its error on, or has its acquire cancelled with the context, and nothing is rendered. */
  ghost predicate PassesOn(s: State, r: State, t: nat) {
    && OthersWait(s, r, t) && t < |s.tasks| && r.renders == s.renders && r.jobs == s.jobs
    && (HasErr(r.tasks[t].pc) ==>
          (s.cancelled && r.tasks[t].pc.err == Some(AcquireCancelled)) ||
          (HasErr(s.tasks[t].pc) && r.tasks[t].pc.err == s.tasks[t].pc.err))
    && (s.tasks[t].pc.Releasing? || s.tasks[t].pc.Reporting? || s.tasks[t].pc.Done? ==>
          r.tasks[t].pc.Reporting? || r.tasks[t].pc.Done?)
    && (r.firstErr == s.firstErr || (HasErr(s.tasks[t].pc) && r.firstErr == s.tasks[t].pc.err))
  }

  lemma PassingOnExplained(s: State, r: State, t: nat)
    requires Explained(s) && PassesOn(s, r, t)
    ensures Explained(r)
  {
    assert forall e: Error :: Explains(s, e) ==> Explains(r, e);
  }

  lemma StepPassesOn(s: State, a: Action)
    requires Inv(s) && !a.ParentCancel? && !a.RenderReturn? && Step(s, a).Some?
    ensures PassesOn(s, Step(s, a).value, a.t)
  {
    match a
    case WaitAborted(t) => LeaveLetsIn(s, t);
    case GiveBack(t) => DropLetsIn(s, t, Reporting(Some(AcquireCancelled)));
    case Release(t) => DropLetsIn(s, t, Reporting(s.tasks[t].pc.err));
    case _ => OneTaskShape(s, a);
  }

  lemma ReturnExplained(s: State, t: nat, rendered: Rendered)
    requires Inv(s) && Explained(s) && Step(s, RenderReturn(t, rendered)).Some?
    ensures Explained(Step(s, RenderReturn(t, rendered)).value)
  {
    var r := Step(s, RenderReturn(t, rendered)).value;
    forall e: Error | Explains(s, e) ensures Explains(r, e) {
      if e.RenderError? {
        var u :| u in s.renders && u < |s.jobs| &&
          s.renders[u] == RenderFailed(e.error) && s.jobs[u].assetId == e.assetId;
        assert u in r.renders;
      }
    }
    if rendered.RenderFailed? {
      assert t in r.renders && Explains(r, RenderError(s.jobs[t].assetId, rendered.error));
    }
  }

  lemma StepExplained(s: State, a: Action)
    requires Inv(s) && Explained(s) && Step(s, a).Some?
    ensures Explained(Step(s, a).value)
  {
    match a
    case ParentCancel =>
    case RenderReturn(t, rendered) => ReturnExplained(s, t, rendered);
    case _ =>
      StepPassesOn(s, a);
      PassingOnExplained(s, Step(s, a).value, a.t);
  }

  /** The context is over only through an error of the group, and an acquire cancelled by it comes too late. */
  ghost predicate OwnCancel(s: State) {
    && (s.cancelled ==> s.firstErr.Some?)
    && s.firstErr != Some(AcquireCancelled)
    && (forall t :: 0 <= t < |s.tasks| && HasErr(s.tasks[t].pc) && s.tasks[t].pc.err == Some(AcquireCancelled) ==>
          s.cancelled)
  }

  lemma OwnCancelStays(s: State, a: Action)
    requires Inv(s) && OwnCancel(s) && !a.ParentCancel? && Step(s, a).Some?
    ensures OwnCancel(Step(s, a).value)
  {
    if a.RenderReturn? {
      OneTaskShape(s, a);
    } else {
      StepPassesOn(s, a);
      CancelStays(s, a);
    }
  }

  lemma CancelStays(s: State, a: Action)
    requires Inv(s) && Step(s, a).Some?
    ensures s.cancelled ==> Step(s, a).value.cancelled
    ensures !a.ParentCancel? && !a.Report? ==>
              Step(s, a).value.cancelled == s.cancelled && Step(s, a).value.firstErr == s.firstErr
  {
    match a
    case WaitAborted(t) => LeaveLetsIn(s, t);
    case GiveBack(t) => DropLetsIn(s, t, Reporting(Some(AcquireCancelled)));
    case Release(t) => DropLetsIn(s, t, Reporting(s.tasks[t].pc.err));
    case _ =>
  }

  /** Once the group is cancelled, no task waits for the semaphore: it can give up at once, without weight. */
  lemma CancelFrees(s: State, t: nat)
    requires Inv(s) && s.cancelled && t < |s.tasks|
    requires s.tasks[t].pc.New? || s.tasks[t].pc.Queued? || s.tasks[t].pc.Doomed? || s.tasks[t].pc.Granted?
    ensures exists a: Action :: !a.ParentCancel? && a.t == t && Step(s, a).Some? &&
              |Step(s, a).value.tasks| == |s.tasks| && Step(s, a).value.tasks[t].pc == Reporting(Some(AcquireCancelled))
  {
    var a := match s.tasks[t].pc
      case New => AcquireAborted(t)
      case Queued => WaitAborted(t)
      case Doomed => DoomEnds(t)
      case _ => GiveBack(t);
    if a.WaitAborted? {
      LeaveBase(s, t);
    } else if a.GiveBack? {
      DroppedBase(s, t, Reporting(Some(AcquireCancelled)));
      GrantInv(Dropped(s, t, Reporting(Some(AcquireCancelled))));
    }
    assert Step(s, a).Some?;
  }

  /** The group keeps the first error, whatever is reported after it. */
  lemma FirstErrorKept(s: State, run: seq<Action>)
    requires Inv(s) && s.firstErr.Some? && Exec(Step, s, run).Some?
    ensures Exec(Step, s, run).value.firstErr == s.firstErr
  {
    var inv := (t: State) => Inv(t) && t.firstErr == s.firstErr;
    forall t: State, a: Action | inv(t) && Step(t, a).Some? ensures inv(Step(t, a).value) {
      StepInv(t, a);
      StepKeepsError(t, a);
    }
    Invariant(Step, inv, s, run);
  }

  lemma StepKeepsError(s: State, a: Action)
    requires Inv(s) && Step(s, a).Some?
    ensures s.firstErr.Some? ==> Step(s, a).value.firstErr == s.firstErr
    ensures s.firstErr.None? ==>
              Step(s, a).value.firstErr == if a.Report? then s.tasks[a.t].pc.err else None
  {
    if a.Release? || a.GiveBack? {
      var pc := if a.Release? then Reporting(s.tasks[a.t].pc.err) else Reporting(Some(AcquireCancelled));
      DroppedBase(s, a.t, pc);
      GrantInv(Dropped(s, a.t, pc));
    } else if a.WaitAborted? {
      LeaveBase(s, a.t);
    }
  }

  /**
    The group's own cancellation is never what it reports: unless the parent
    context ended, the error of a run is that of a render that failed.
  */
  lemma ErrorIsARender(jobs: seq<RenderJob>, capacity: nat, run: seq<Action>)
    requires Positive(jobs) && Exec(Step, Init(jobs, capacity), run).Some?
    requires forall k :: 0 <= k < |run| ==> !run[k].ParentCancel?
    ensures var s := Exec(Step, Init(jobs, capacity), run).value;
            s.firstErr.Some? ==> s.firstErr.value.RenderError? && Explains(s, s.firstErr.value)
  {
    InitInv(jobs, capacity);
    var inv := (s: State) => Inv(s) && OwnCancel(s) && Explained(s);
    forall s: State, a: Action | inv(s) && !a.ParentCancel? && Step(s, a).Some? ensures inv(Step(s, a).value) {
      StepInv(s, a);
      OwnCancelStays(s, a);
      StepExplained(s, a);
    }
    InvariantOnly(Step, (a: Action) => !a.ParentCancel?, inv, Init(jobs, capacity), run);
  }

  // ----- the whole catalog

  datatype Answer = Rejected(rejection: Rejection) | Artifacts(artifacts: seq<RenderArtifact>) | Failed(err: Error)

  /**
    The answer of a finished catalog: the first error that reached the group, and
    without one the artifact that `renderFn` returned for each job, in the order
    of the jobs.
  */
  ghost predicate Settled(r: Answer, jobs: seq<RenderJob>, s: State) {
    match s.firstErr
    case Some(err) => r == Failed(err) && Explains(s, err)
    case None =>
      r.Artifacts? && |r.artifacts| == |jobs| &&
      forall t: nat :: t < |jobs| ==> t in s.renders && s.renders[t] == Rendered(r.artifacts[t])
  }

  /** The semaphore, the group and the tasks. Each method runs one task to its next blocking point. */
  class Catalog {
    const jobs: seq<RenderJob>
    const capacity: nat
    const artifacts: array<RenderArtifact>
    var cur: int
    var waiters: seq<nat>
    var tasks: seq<Task>
    var cancelled: bool
    var firstErr: Option<Error>
    ghost var renders: map<nat, Rendered>

    ghost function Abs(): State
      reads this, artifacts
    {
      State(jobs, capacity, cur, waiters, tasks, cancelled, firstErr, artifacts[..], renders)
    }

    constructor (jobs: seq<RenderJob>, capacity: nat)
      ensures Abs() == Init(jobs, capacity) && fresh(artifacts)
    {
      this.jobs, this.capacity, cur, waiters, cancelled := jobs, capacity, 0, [], false;
      tasks := seq(|jobs|, i requires 0 <= i < |jobs| =>
                     Task(if jobs[i].memoryMB < 0 then 0 else jobs[i].memoryMB, New, 0, 0));
      firstErr, renders := None, map[];
      artifacts := new RenderArtifact[|jobs|](i => NO_ARTIFACT);
    }

    method GrantFront()
      requires Base(Abs()) && waiters != [] && cur + tasks[waiters[0]].weight <= capacity
      modifies this
      ensures Base(Abs()) && Abs() == Hold(old(Abs()), old(waiters[0]), Granted).(waiters := old(waiters)[1..])
    {
      GrantOneInv(Abs());
      var t := waiters[0];
      cur := cur + tasks[t].weight;
      tasks := tasks[t := tasks[t].(pc := Granted, acquired := tasks[t].acquired + 1)];
      waiters := waiters[1..];
    }

    /** Let in whoever fits, from the front. */
    method NotifyWaiters()
      requires Base(Abs())
      modifies this
      ensures Abs() == Grant(old(Abs()))
    {
      while waiters != [] && cur + tasks[waiters[0]].weight <= capacity
        invariant Base(Abs()) && Grant(Abs()) == Grant(old(Abs()))
        decreases |waiters|
      {
        GrantFront();
      }
    }

    /** The deferred `sem.Release`, and the way a granted but cancelled acquire gives back. */
    method ReleaseWeight(t: nat, pc: Pc)
      requires Base(Abs()) && t < |tasks| && Holds(tasks[t].pc) && pc.Reporting?
      modifies this
      ensures Abs() == Drop(old(Abs()), t, pc)
    {
      DroppedBase(Abs(), t, pc);
      cur := cur - tasks[t].weight;
      tasks := tasks[t := tasks[t].(pc := pc, released := tasks[t].released + 1)];
      assert Abs() == Dropped(old(Abs()), t, pc);
      NotifyWaiters();
    }

    method SetPc(t: nat, pc: Pc)
      requires t < |tasks|
      modifies this`tasks
      ensures Abs() == At(old(Abs()), t, pc)
    {
      tasks := tasks[t := tasks[t].(pc := pc)];
    }

    /** `sem.Acquire`, when its context is still going on. */
    method AcquireStep(t: nat)
      requires t < |tasks| == |jobs| == artifacts.Length && tasks[t].pc.New?
      modifies this
      ensures Step(old(Abs()), Acquire(t)) == Some(Abs())
    {
      if tasks[t].weight > capacity {
        SetPc(t, Doomed);
      } else if waiters == [] && cur + tasks[t].weight <= capacity {
        cur := cur + tasks[t].weight;
        tasks := tasks[t := tasks[t].(pc := Rendering, acquired := tasks[t].acquired + 1)];
      } else {
        SetPc(t, Queued);
        waiters := waiters + [t];
      }
    }

    /** The queued request sees its context end. */
    method AbortWait(t: nat)
      requires Base(Abs()) && t < |tasks| && tasks[t].pc.Queued? && cancelled
      modifies this
      ensures Step(old(Abs()), WaitAborted(t)) == Some(Abs())
    {
      var k := IndexOf(waiters, t);
      LeftBase(Abs(), k);
      var notify := k == 0 && cur < capacity;
      SetPc(t, Reporting(Some(AcquireCancelled)));
      waiters := waiters[..k] + waiters[k + 1..];
      if notify {
        NotifyWaiters();
      }
    }

    /** `renderFn` has returned. */
    method FinishRender(t: nat, rendered: Rendered)
      requires t < |tasks| == |jobs| == artifacts.Length && tasks[t].pc.Rendering?
      modifies this, artifacts
      ensures Step(old(Abs()), RenderReturn(t, rendered)) == Some(Abs())
    {
      match rendered
      case Rendered(artifact) =>
        artifacts[t] := artifact;
        SetPc(t, Releasing(None));
        renders := renders[t := rendered];
        assert artifacts[..] == old(artifacts[..])[t := artifact];
      case RenderFailed(error) =>
        SetPc(t, Releasing(Some(RenderError(jobs[t].assetId, error))));
        renders := renders[t := rendered];
    }

    /** The group keeps the first error and cancels the rest. */
    method ReportToGroup(t: nat)
      requires t < |tasks| == |jobs| == artifacts.Length && tasks[t].pc.Reporting?
      modifies this
      ensures Step(old(Abs()), Report(t)) == Some(Abs())
    {
      var err := tasks[t].pc.err;
      SetPc(t, Done(err));
      if err.Some? && firstErr.None? {
        firstErr, cancelled := err, true;
      }
    }

    predicate Ready(t: nat)
      reads this
    {
      t < |tasks| && !tasks[t].pc.Done? && ((tasks[t].pc.Queued? || tasks[t].pc.Doomed?) ==> cancelled)
    }

    /** One turn of task `t`; `rendered` is what `renderFn` returns if this turn is its return. */
    method Turn(t: nat, rendered: Rendered) returns (ghost a: Action)
      requires Inv(Abs()) && Ready(t)
      modifies this, artifacts
      ensures !a.ParentCancel? && a.t == t && Step(old(Abs()), a) == Some(Abs())
    {
      match tasks[t].pc
      case New =>
        if {
          case true => a := Acquire(t); AcquireStep(t);
          case cancelled => a := AcquireAborted(t); SetPc(t, Reporting(Some(AcquireCancelled)));
        }
      case Doomed => a := DoomEnds(t); SetPc(t, Reporting(Some(AcquireCancelled)));
      case Queued => a := WaitAborted(t); AbortWait(t);
      case Granted =>
        if {
          case true => a := Noticed(t); SetPc(t, Rendering);
          case cancelled => a := GiveBack(t); ReleaseWeight(t, Reporting(Some(AcquireCancelled)));
        }
      case Rendering => a := RenderReturn(t, rendered); FinishRender(t, rendered);
      case Releasing(err) => a := Release(t); ReleaseWeight(t, Reporting(err));
      case Reporting(_) => a := Report(t); ReportToGroup(t);
    }
  }

  /** What the driver relies on between turns. */
  ghost predicate Driven(s: State) { Inv(s) && Weighed(s) && Explained(s) && Fits(s.jobs, s.capacity) }

  lemma StepDriven(s: State, a: Action)
    requires Driven(s) && Step(s, a).Some?
    ensures Driven(Step(s, a).value) && Rank(Step(s, a).value) < Rank(s)
  {
    StepInv(s, a);
    StepWeighed(s, a);
    StepExplained(s, a);
    StepLowersRank(s, a);
  }

  lemma SomeoneReady(s: State, t: nat) returns (u: nat)
    requires Driven(s) && t < |s.tasks| && !s.tasks[t].pc.Done?
    ensures u < |s.tasks| && !s.tasks[u].pc.Done? && !s.tasks[u].pc.Queued? && !s.tasks[u].pc.Doomed?
  {
    assert TaskOk(s.tasks[t], s.capacity);
    u := t;
    if s.tasks[t].pc.Queued? {
      u := WaitersHaveHolder(s);
    }
  }

  lemma Conclusion(s: State)
    requires Driven(s) && AllDone(s)
    ensures s.cur == 0 && s.waiters == []
    ensures Settled(match s.firstErr case Some(err) => Failed(err) case None => Artifacts(s.artifacts), s.jobs, s)
  {
    SumNone(s.tasks, InUse);
    forall t: nat | t < |s.jobs| && s.firstErr.None?
      ensures t in s.renders && s.renders[t] == Rendered(s.artifacts[t])
    {
      assert s.tasks[t].pc.err.None?;
      assert Succeeded(s.tasks[t].pc);
    }
  }

  predicate AllDone(s: State) { forall t :: 0 <= t < |s.tasks| ==> s.tasks[t].pc.Done? }

  /** One turn of any task that can move, or, if it may end, of the parent context. */
  method AnyTurn(catalog: Catalog, rendered: Rendered, parentEnds: bool) returns (ghost a: Action)
    requires Driven(catalog.Abs()) && exists t :: 0 <= t < |catalog.tasks| && catalog.Ready(t)
    modifies catalog, catalog.artifacts
    ensures (a.ParentCancel? ==> parentEnds) && Step(old(catalog.Abs()), a) == Some(catalog.Abs())
    ensures Driven(catalog.Abs()) && Rank(catalog.Abs()) < old(Rank(catalog.Abs()))
  {
    ghost var s := catalog.Abs();
    if {
      case parentEnds && !catalog.cancelled => a := ParentCancel; catalog.cancelled := true;
      case t: nat :| t < |catalog.tasks| && catalog.Ready(t) => a := catalog.Turn(t, rendered);
    }
    StepDriven(s, a);
  }

  /**
    The whole catalog, the scheduler free at every turn: `run` is the
    interleaving it chose and `end` the state it led to, with the whole capacity
    given back. The caller's context may end during the call if `parentEnds`. If
    it does not, the call ends all the same, because every job was checked to fit,
    and its error can only be that of a render.
  */
  method RenderCatalog(jobs: seq<RenderJob>, capacity: int, parentEnds: bool)
    returns (r: Answer, ghost run: seq<Action>, ghost end: State)
    ensures r.Rejected? <==> capacity < 1 || exists k :: 0 <= k < |jobs| && !Admissible(jobs[k], capacity)
    ensures !r.Rejected? ==>
              && Exec(Step, Init(jobs, capacity), run) == Some(end)
              && AllDone(end) && end.cur == 0 && end.waiters == [] && Settled(r, jobs, end)
    ensures r.Rejected? ==> RightlyRejected(r.rejection, jobs, capacity)
    ensures !r.Rejected? && !parentEnds ==> ParentCancel !in run && (r.Failed? ==> r.err.RenderError?)
  {
    run, end := [], Init(jobs, if capacity < 1 then 1 else capacity);
    var rejection := Validate(jobs, capacity);
    if rejection.Some? {
      return Rejected(rejection.value), run, end;
    }
    if |jobs| == 0 {
      return Artifacts([]), run, end;
    }

    var catalog := new Catalog(jobs, capacity);
    InitInv(jobs, capacity);
    while exists t :: 0 <= t < |catalog.tasks| && !catalog.tasks[t].pc.Done?
      invariant fresh(catalog) && fresh(catalog.artifacts)
      invariant Exec(Step, Init(jobs, capacity), run) == Some(end) && end == catalog.Abs()
      invariant Driven(catalog.Abs()) && (!parentEnds ==> ParentCancel !in run)
      decreases Rank(catalog.Abs())
    {
      ghost var t :| 0 <= t < |catalog.tasks| && !catalog.tasks[t].pc.Done?;
      ghost var u := SomeoneReady(catalog.Abs(), t);
      assert catalog.Ready(u);
      var rendered: Rendered := *;
      ghost var a := AnyTurn(catalog, rendered, parentEnds);
      run, end := Append(Step, Init(jobs, capacity), run, end, a);
    }

    assert AllDone(catalog.Abs());
    Conclusion(catalog.Abs());
    if !parentEnds {
      ErrorIsARender(jobs, capacity, run);
    }
    r := match catalog.firstErr
      case Some(err) => Failed(err)
      case None => Artifacts(catalog.artifacts[..]);
  }
}
