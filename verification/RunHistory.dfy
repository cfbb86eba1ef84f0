/** The history of one run: records only grow, decisions and results are write-once, a record left
    terminal is final for every later lease, and stale callers change nothing. */
module RunHistory {
  import opened Wrappers
  import opened GraphCore
  import opened RunModel
  import opened RunInvariant
  import opened RunProtocol
  import opened RunSafety
  import E = ScopeEdits
  import C = RunCalls

  /** A frame only moves forward, and not at all once it is finished. */
  predicate FrameGrows(f: FrameRecord, f': FrameRecord) {
    && f'.signature == f.signature && f'.maxSteps == f.maxSteps
    && f.stepsUsed <= f'.stepsUsed && Commits(f) <= Commits(f')
    && (f.nextNode.None? ==> f' == f)
  }

  /** What a reviewer was shown never changes, and a decision is taken once. */
  predicate ApprovalGrows(a: ApprovalRequest, a': ApprovalRequest) {
    && a' == a.(receipt := a'.receipt, applied := a'.applied)
    && (a.receipt.Some? ==> a'.receipt == a.receipt)
    && (a.applied ==> a'.applied)
  }

  /** A task keeps its identity; its result, once known, and its resolutions are final. */
  predicate TaskGrows(t: TaskRecord, t': TaskRecord) {
    && t'.id == t.id && t'.version == t.version && t'.input == t.input && t'.policy == t.policy
    && t.attempts <= t'.attempts
    && (t.status == TaskStatus.Completed ==> t'.status == TaskStatus.Completed && t'.result == t.result)
    && (forall k | k in t.resolutions :: k in t'.resolutions && t'.resolutions[k] == t.resolutions[k])
  }

  predicate Grows(r: RunRecord, r': RunRecord) {
    && r'.runId == r.runId && r'.version == r.version && r'.maxSteps == r.maxSteps
    && (forall p | p in r.frames :: p in r'.frames && FrameGrows(r.frames[p], r'.frames[p]))
    && (forall id | id in r.approvals :: id in r'.approvals && ApprovalGrows(r.approvals[id], r'.approvals[id]))
    && (forall id | id in r.tasks :: id in r'.tasks && TaskGrows(r.tasks[id], r'.tasks[id]))
  }

  lemma GrowsTransitive(a: RunRecord, b: RunRecord, c: RunRecord)
    requires Grows(a, b) && Grows(b, c)
    ensures Grows(a, c)
  {
  }

  /** What one step may do to the saved records. */
  predicate SavedGrow(m: Machine, m': Machine) {
    || m'.saved == m.saved
    || (|m'.saved| == |m.saved| + 1 && m.saved <= m'.saved && (m.saved != [] ==> Grows(Last(m), Last(m'))))
  }

  /** A session's save grows the history when its edit does. */
  lemma PersistGrows(m: Machine, edited: Result<RunRecord, DurableError>, s: Session, log: seq<CommitEvent>,
                     m': Machine)
    requires m.session.Some? && Persist(m, edited, s, log, m')
    requires m.saved != [] && edited.Ok? && Grows(Last(m), edited.value)
    ensures SavedGrow(m, m')
  {
  }

  lemma FrameUpdateGrows(r: RunRecord, r': RunRecord, p: Path, f: FrameRecord)
    requires r' == r.(frames := r.frames[p := f], stepsUsed := r'.stepsUsed)
    requires p in r.frames ==> FrameGrows(r.frames[p], f)
    ensures Grows(r, r')
  {
  }

  lemma ApprovalUpdateGrows(r: RunRecord, r': RunRecord, id: InvocationId, a: ApprovalRequest)
    requires r' == r.(approvals := r.approvals[id := a], status := r'.status, revision := r'.revision)
    requires id in r.approvals ==> ApprovalGrows(r.approvals[id], a)
    ensures Grows(r, r')
  {
  }

  lemma TaskUpdateGrows(r: RunRecord, r': RunRecord, id: TaskId, t: TaskRecord)
    requires r' == r.(tasks := r.tasks[id := t], status := r'.status, revision := r'.revision)
    requires id in r.tasks ==> TaskGrows(r.tasks[id], t)
    ensures Grows(r, r')
  {
  }

  /** A commit of an active invocation. */
  lemma CommitEditGrows(r: RunRecord, p: Path, state: Json, next: Option<string>)
    requires p in r.frames && r.frames[p].active && r.frames[p].nextNode.Some?
    ensures E.Commit(r, p, state, next).Ok? && Grows(r, E.Commit(r, p, state, next).value)
  {
    hide Grows;
    var f := r.frames[p].(state := state, nextNode := next, active := false);
    var mid := r.(frames := r.frames[p := f]);
    var r' := E.Commit(r, p, state, next).value;
    FrameUpdateGrows(r, mid, p, f);
    var id := InvocationId(p, r.frames[p].nextNode.value, r.frames[p].stepsUsed);
    if id in r.approvals {
      ApprovalUpdateGrows(mid, r', id, r'.approvals[id]);
      GrowsTransitive(r, mid, r');
    }
  }

  lemma CommitGrows(pg: Program, m: Machine, p: Path, c: Option<Cursor>, m': Machine)
    requires MachineInv(pg, m) && Live(m) && InvocationOf(m.session.value, p) && CommitStep(m, p, c, m')
    ensures SavedGrow(m, m')
  {
    hide EvalNode, Traj, OriginOf, CursorAt, LogOk, RecordInv, Persist, Grows, E.Commit;
    var s := m.session.value;
    assert ThreadOk(s.record.frames, s.record.approvals, p, s.threads[p]);
    if c.Some? {
      CommitEditGrows(s.record, p, c.value.state, c.value.node);
      PersistGrows(m, E.Commit(s.record, p, c.value.state, c.value.node),
                   s.(threads := WithoutChildren(s.threads, p)[p := After(c.value.state, c.value.node)]),
                   [CommitEvent(p, s.threads[p].current, c.value.state, c.value.node)], m');
    }
  }

  lemma LoopGrows(pg: Program, m: Machine, step: Step, m': Machine)
    requires MachineInv(pg, m) && StepOf(pg, m, step, m')
    requires step.Enter? || step.BeginNode? || step.FinishLeaf? || step.FinishBarrier? || step.FinishNested?
             || step.Abort? || step.StopFrame?
    ensures SavedGrow(m, m')
  {
    hide MachineInv, CommitStep, NodeReady, EnterStep, BeginStep, FinishLeafStep, FinishNestedStep, Persist;
    match step
    case Enter(p) => EnterGrows(pg, m, p, m');
    case BeginNode(p) => BeginGrows(pg, m, p, m');
    case FinishLeaf(p) => LeafGrows(pg, m, p, m');
    case FinishBarrier(p) => BarrierGrows(pg, m, p, m');
    case FinishNested(p) => NestedGrows(pg, m, p, m');
    case Abort(p, e) =>
    case StopFrame(p) =>
      StatusSaveGrows(pg, m, RunStatus.Cancelled,
        m.session.value.(threads := WithoutChildren(m.session.value.threads, p)[p := Halted(Stopped)]), m');
  }

  lemma StatusGrows(pg: Program, m: Machine)
    requires MachineInv(pg, m) && m.session.Some? && !m.session.value.poisoned
    ensures m.saved != [] && m.session.value.record == Last(m)
    ensures forall s :: Grows(Last(m), E.SetStatus(Last(m), s))
  {
    hide EvalNode, Traj, OriginOf, CursorAt, LogOk, RecordInv;
  }

  lemma EnterGrows(pg: Program, m: Machine, p: Path, m': Machine)
    requires MachineInv(pg, m) && EnterStep(pg, m, p, m')
    ensures SavedGrow(m, m')
  {
    hide MachineInv, Callable, CalledOrigin, Persist, Grows;
    StatusGrows(pg, m);
    var s := m.session.value;
    var o := CalledOrigin(pg, s, p);
    if p !in s.record.frames {
      var r := E.OpenFrame(s.record, p, E.NewFrame(o.graph, o.input, o.maxSteps));
      FrameUpdateGrows(s.record, r, p, r.frames[p]);
      PersistGrows(m, Ok(r), s.(threads := s.threads[p := Head(o.graph.start, o.input)]), [], m');
    }
  }

  lemma BeginEditGrows(r: RunRecord, p: Path, node: string)
    ensures E.Begin(r, p, node).Ok? ==> Grows(r, E.Begin(r, p, node).value.0)
  {
    var b := E.Begin(r, p, node);
    if b.Ok? && !r.frames[p].active {
      FrameUpdateGrows(r, b.value.0, p, b.value.0.frames[p]);
    }
  }

  lemma BeginGrows(pg: Program, m: Machine, p: Path, m': Machine)
    requires MachineInv(pg, m) && BeginStep(m, p, m')
    ensures SavedGrow(m, m')
  {
    hide MachineInv, Persist, Grows, E.Begin;
    StatusGrows(pg, m);
    var s := m.session.value;
    var t := s.threads[p];
    BeginEditGrows(s.record, p, t.current);
    match E.Begin(s.record, p, t.current)
    case Err(e) =>
    case Ok((r, invocation)) =>
      var threads := s.threads[p := InNode(t.current, invocation, t.state, false)];
      PersistGrows(m, Ok(r), s.(began := true, threads := threads), [], m');
  }

  lemma LeafGrows(pg: Program, m: Machine, p: Path, m': Machine)
    requires MachineInv(pg, m) && FinishLeafStep(pg, m, p, m')
    ensures SavedGrow(m, m')
  {
    hide EvalNode, Traj, OriginOf, CursorAt, MachineInv, CommitStep, Recall;
    var s := m.session.value;
    var t := s.threads[p];
    match Recall(s.record.tasks, Current(s, p), NodeOf(pg, m, p).run(t.state)).value
    case Done(state, action) => CommitGrows(pg, m, p, Route(GraphOf(pg, p), t.current, state, action), m');
    case _ => CommitGrows(pg, m, p, None, m');
  }

  lemma BarrierGrows(pg: Program, m: Machine, p: Path, m': Machine)
    requires MachineInv(pg, m) && FinishBarrierStep(pg, m, p, m')
    ensures SavedGrow(m, m')
  {
    hide EvalNode, Traj, OriginOf, CursorAt, MachineInv, CommitStep;
    var t := m.session.value.threads[p];
    CommitGrows(pg, m, p, Route(GraphOf(pg, p), t.current, t.state, Next), m');
  }

  lemma NestedGrows(pg: Program, m: Machine, p: Path, m': Machine)
    requires MachineInv(pg, m) && FinishNestedStep(pg, m, p, m')
    ensures SavedGrow(m, m')
  {
    hide EvalNode, Traj, OriginOf, CursorAt, MachineInv, CommitStep;
    var s := m.session.value;
    match NodeOf(pg, m, p).combine(s.threads[p].state, ReturnedStates(s, p, NodeOf(pg, m, p).calls))
    case None => CommitGrows(pg, m, p, None, m');
    case Some(state) => CommitGrows(pg, m, p, Route(GraphOf(pg, p), s.threads[p].current, state, Next), m');
  }

  lemma AtGateLive(pg: Program, m: Machine, p: Path)
    requires MachineInv(pg, m)
    ensures AtGate(pg, m, p) ==>
              Live(m) && InvocationOf(m.session.value, p) && m.saved != [] && m.session.value.record == Last(m)
  {
  }

  /** A save that changes one approval of the session's record. */
  lemma ApprovalSaveGrows(m: Machine, id: InvocationId, r: RunRecord, s: Session, m': Machine)
    requires m.session.Some? && m.saved != [] && id in r.approvals && Persist(m, Ok(r), s, [], m')
    requires r == Last(m).(approvals := Last(m).approvals[id := r.approvals[id]], status := r.status)
    requires id in Last(m).approvals ==> ApprovalGrows(Last(m).approvals[id], r.approvals[id])
    ensures SavedGrow(m, m')
  {
    hide Grows, Persist, ApprovalGrows;
    ApprovalUpdateGrows(Last(m), r, id, r.approvals[id]);
    PersistGrows(m, Ok(r), s, [], m');
  }

  lemma AskGrows(pg: Program, m: Machine, p: Path, token: string, deadline: Option<nat>, m': Machine)
    requires MachineInv(pg, m) && AskApprovalStep(pg, m, p, token, deadline, m')
    ensures SavedGrow(m, m')
  {
    hide MachineInv, AtGate, Persist, SavedGrow, ApprovalGrows;
    AtGateLive(pg, m, p);
    var s := m.session.value;
    ApprovalSaveGrows(m, Current(s, p), E.RequestApproval(s.record, Current(s, p), token, deadline), s, m');
  }

  lemma RefuseGrows(pg: Program, m: Machine, p: Path, m': Machine)
    requires MachineInv(pg, m) && RefuseApprovalStep(pg, m, p, m')
    ensures SavedGrow(m, m')
  {
    hide MachineInv, AtGate, Persist, SavedGrow;
    AtGateLive(pg, m, p);
    var s := m.session.value;
    ApprovalSaveGrows(m, Current(s, p), E.RejectApproval(s.record, Current(s, p)),
                      s.(threads := s.threads[p := Halted(Stopped)]), m');
  }

  lemma GateGrows(pg: Program, m: Machine, step: Step, m': Machine)
    requires MachineInv(pg, m) && StepOf(pg, m, step, m')
    requires || step.AskApproval? || step.WaitApproval? || step.ExpireApproval?
             || step.ClearApproval? || step.RefuseApproval?
    ensures SavedGrow(m, m')
  {
    hide MachineInv, AtGate, Persist, SavedGrow, AskApprovalStep, RefuseApprovalStep;
    match step
    case AskApproval(p, token, deadline) => AskGrows(pg, m, p, token, deadline, m');
    case RefuseApproval(p) => RefuseGrows(pg, m, p, m');
    case WaitApproval(p) =>
      AtGateLive(pg, m, p);
      var s := m.session.value;
      StatusSaveGrows(pg, m, RunStatus.Suspended, s.(threads := s.threads[p := Halted(DurableError.Suspended)]), m');
    case ExpireApproval(p, _) =>
      AtGateLive(pg, m, p);
      var s := m.session.value;
      StatusSaveGrows(pg, m, RunStatus.Expired, s.(threads := s.threads[p := Halted(Stopped)]), m');
    case ClearApproval(p) =>
      AtGateLive(pg, m, p);
      SameSaved(m, m');
  }

  lemma SameSaved(m: Machine, m': Machine)
    requires m'.saved == m.saved
    ensures SavedGrow(m, m')
  {
  }

  lemma InFlightStarted(pg: Program, m: Machine, id: TaskId)
    requires MachineInv(pg, m)
    ensures TaskLive(m) ==> m.saved != [] && m.session.value.record == Last(m)
    ensures TaskLive(m) && id in m.session.value.acting ==>
              id in Last(m).tasks && Last(m).tasks[id].status == TaskStatus.Started
  {
  }

  /** A save that changes one task of the session's record. */
  lemma TaskSaveGrows(m: Machine, id: TaskId, r: RunRecord, s: Session, m': Machine)
    requires m.session.Some? && m.saved != [] && id in r.tasks && Persist(m, Ok(r), s, [], m')
    requires r == Last(m).(tasks := Last(m).tasks[id := r.tasks[id]], status := r.status)
    requires id in Last(m).tasks ==> TaskGrows(Last(m).tasks[id], r.tasks[id])
    ensures SavedGrow(m, m')
  {
  }

  lemma ParkGrows(m: Machine, id: TaskId, m': Machine)
    requires m.saved != [] && ParkTaskStep(m, id, m') && m.session.value.record == Last(m)
    requires id in m.session.value.acting ==> Last(m).tasks[id].status == TaskStatus.Started
    ensures SavedGrow(m, m')
  {
    var s := m.session.value;
    TaskSaveGrows(m, id, E.ParkTask(s.record, id).value, s.(acting := s.acting - {id}), m');
  }

  lemma StartGrows(m: Machine, id: TaskId, m': Machine)
    requires m.saved != [] && StartTaskStep(m, id, m') && m.session.value.record == Last(m)
    ensures SavedGrow(m, m')
  {
  }

  lemma TaskStepsGrow(pg: Program, m: Machine, step: Step, m': Machine)
    requires MachineInv(pg, m) && StepOf(pg, m, step, m')
    requires || step.PlanTask? || step.StartTask? || step.LaunchTask?
             || step.FinishTask? || step.ParkTask? || step.DropTask?
    ensures SavedGrow(m, m')
  {
    hide MachineInv, Persist, SavedGrow, StartTaskStep, ParkTaskStep;
    InFlightStarted(pg, m, step.id);
    var id := step.id;
    match step
    case PlanTask(_, version, input, policy) =>
      TaskSaveGrows(m, id, E.PlanTask(m.session.value.record, id, version, input, policy), m.session.value, m');
    case StartTask(_) =>
      assert TaskLive(m) by { StartLive(m, id, m'); }
      StartGrows(m, id, m');
    case FinishTask(_, result) =>
      var s := m.session.value;
      TaskSaveGrows(m, id, E.CompleteTask(s.record, id, result), s.(acting := s.acting - {id}), m');
    case ParkTask(_) =>
      assert TaskLive(m) by { StartLive(m, id, m'); }
      ParkGrows(m, id, m');
    case _ => SameSaved(m, m');
  }

  lemma StartLive(m: Machine, id: TaskId, m': Machine)
    requires StartTaskStep(m, id, m') || ParkTaskStep(m, id, m')
    ensures TaskLive(m)
  {
  }

  lemma CallsGrow(pg: Program, m: Machine, step: Step, m': Machine)
    requires MachineInv(pg, m) && StepOf(pg, m, step, m')
    requires step.SubmitDecision? || step.CancelCall? || step.ResolveTask?
    ensures SavedGrow(m, m')
  {
    hide MachineInv, Grows, C.ValidateRecord;
    var r := Last(m);
    match step
    case SubmitDecision(id, token, request, expected, decision, now) =>
      DecisionGrows(r, id, token, request, expected, decision, now);
    case CancelCall(expected) => CancelGrows(r, expected);
    case ResolveTask(id, request, expected, resolution) => ResolutionGrows(r, id, request, expected, resolution);
  }

  lemma DecisionGrows(r: RunRecord, id: InvocationId, token: string, request: string, expected: nat,
                      decision: Decision, now: nat)
    ensures var w := C.SubmitDecision(r, id, token, request, expected, decision, now).write;
            w.Some? ==> r.revision == expected && Grows(r, w.value)
  {
    var w := C.SubmitDecision(r, id, token, request, expected, decision, now).write;
    if w.Some? {
      ApprovalUpdateGrows(r, w.value, id, w.value.approvals[id]);
    }
  }

  lemma CancelGrows(r: RunRecord, expected: nat)
    ensures var w := C.CancelRun(r, expected).write;
            w.Some? ==> r.revision == expected && Grows(r, w.value)
  {
  }

  lemma ResolutionGrows(r: RunRecord, id: TaskId, request: string, expected: nat, resolution: TaskResolution)
    ensures var w := C.ResolveTask(r, id, request, expected, resolution).write;
            w.Some? ==> r.revision == expected && Grows(r, w.value)
  {
    var w := C.ResolveTask(r, id, request, expected, resolution).write;
    if w.Some? {
      TaskUpdateGrows(r, w.value, id, w.value.tasks[id]);
    }
  }

  /** A save that only changes the status. */
  lemma StatusSaveGrows(pg: Program, m: Machine, status: RunStatus, s: Session, m': Machine)
    requires MachineInv(pg, m) && m.session.Some?
    requires Persist(m, Ok(E.SetStatus(m.session.value.record, status)), s, [], m')
    ensures SavedGrow(m, m')
  {
    hide MachineInv, Grows;
    StatusGrows(pg, m);
    PersistGrows(m, Ok(E.SetStatus(Last(m), status)), s, [], m');
  }

  lemma LeaseGrows(pg: Program, m: Machine, step: Step, m': Machine)
    requires MachineInv(pg, m) && StepOf(pg, m, step, m')
    requires step.StartRun? || step.Resume? || step.Release? || step.CancelRoot? || step.Execute?
             || step.CompleteRun? || step.CancelledRun? || step.CancelTask?
    ensures SavedGrow(m, m')
  {
    hide MachineInv, Grows, Persist, C.ExecutePrelude, C.ValidateRecord;
    match step
    case Execute(now) =>
      var s := m.session.value;
      match C.ExecutePrelude(s.record, s.cancelled, now) {
        case ExpireRun => StatusSaveGrows(pg, m, RunStatus.Expired, s.(phase := Finished), m');
        case StaySuspended =>
        case Drive => StatusSaveGrows(pg, m, RunStatus.Running, s.(phase := Driving), m');
      }
    case CompleteRun =>
      StatusSaveGrows(pg, m, RunStatus.Completed, m.session.value.(phase := Finished, threads := map[]), m');
    case CancelledRun =>
      StatusSaveGrows(pg, m, RunStatus.Cancelled, m.session.value.(phase := Finished, threads := map[]), m');
    case CancelTask => StatusSaveGrows(pg, m, RunStatus.Cancelled, m.session.value, m');
    case _ =>
  }

  lemma StepGrows(pg: Program, m: Machine, step: Step, m': Machine)
    requires MachineInv(pg, m) && StepOf(pg, m, step, m')
    ensures SavedGrow(m, m')
  {
    hide StepOf, MachineInv, SavedGrow;
    if
      case step.Enter? || step.BeginNode? || step.FinishLeaf? || step.FinishBarrier? || step.FinishNested?
           || step.Abort? || step.StopFrame? => LoopGrows(pg, m, step, m');
      case || step.AskApproval? || step.WaitApproval? || step.ExpireApproval?
           || step.ClearApproval? || step.RefuseApproval? =>
        GateGrows(pg, m, step, m');
      case || step.PlanTask? || step.StartTask? || step.LaunchTask?
           || step.FinishTask? || step.ParkTask? || step.DropTask? =>
        TaskStepsGrow(pg, m, step, m');
      case step.SubmitDecision? || step.CancelCall? || step.ResolveTask? => CallsGrow(pg, m, step, m');
      case step.StartRun? || step.Resume? || step.Release? || step.CancelRoot? || step.Execute?
           || step.CompleteRun? || step.CancelledRun? || step.CancelTask? => LeaseGrows(pg, m, step, m');
  }

  // ------------------------------------------------------------ terminal statuses

  /** The steps of a lease that save a status whatever the status is: a root cancellation that a frame, a
      task or the end of the run observes; the approvals of branches that were begun before; the end of the
      root frame; and, over Completed alone, a task left to its node's spawned work. */
  predicate Replaces(step: Step, from: RunStatus, to: RunStatus) {
    match step
    case StopFrame(_) => to == RunStatus.Cancelled
    case CancelTask => to == RunStatus.Cancelled
    case CancelledRun => to == RunStatus.Cancelled
    case WaitApproval(_) => to == RunStatus.Suspended
    case ExpireApproval(_, _) => to == RunStatus.Expired
    case RefuseApproval(_) => to == RunStatus.Rejected
    case CompleteRun => to == RunStatus.Completed
    case ParkTask(_) => from == RunStatus.Completed && to == RunStatus.Suspended
    case _ => false
  }

  /** A lease starts with an open run. */
  predicate LoadedOpen(m: Machine) {
    m.session.Some? && m.session.value.phase == Loaded && !m.session.value.poisoned ==>
      !Terminal(m.session.value.record.status)
  }

  lemma LoadedLoopStep(pg: Program, m: Machine, step: Step, m': Machine)
    requires LoadedOpen(m) && StepOf(pg, m, step, m') && (m.session.Some? ==> Timely(m.session.value))
    requires IsLoopStep(step)
    ensures LoadedOpen(m') && (m'.session.Some? ==> Timely(m'.session.value))
  {
    hide E.Commit, E.Begin, Callable, CalledOrigin, GraphAt, Recall, Route, WithoutChildren, ReturnedStates,
         AllReturned, ChildrenDone;
  }

  lemma LoadedOtherStep(pg: Program, m: Machine, step: Step, m': Machine)
    requires LoadedOpen(m) && StepOf(pg, m, step, m') && (m.session.Some? ==> Timely(m.session.value))
    requires !IsLoopStep(step)
    ensures LoadedOpen(m') && (m'.session.Some? ==> Timely(m'.session.value))
  {
    hide C.ExecutePrelude, C.ValidateRecord, C.SubmitDecision, C.CancelRun, C.ResolveTask, E.Commit, E.Begin,
         E.ParkTask, E.StartTask, GraphAt, Recall, WithoutChildren, ChildrenDone;
  }

  lemma LoadedStep(pg: Program, m: Machine, step: Step, m': Machine)
    requires LoadedOpen(m) && StepOf(pg, m, step, m') && (m.session.Some? ==> Timely(m.session.value))
    ensures LoadedOpen(m') && (m'.session.Some? ==> Timely(m'.session.value))
  {
    hide LoadedOpen, Timely, StepOf;
    if IsLoopStep(step) {
      LoadedLoopStep(pg, m, step, m');
    } else {
      LoadedOtherStep(pg, m, step, m');
    }
  }

  lemma SameRecord(pg: Program, m: Machine)
    requires MachineInv(pg, m)
    ensures m.session.Some? && !m.session.value.poisoned ==> m.saved != [] && m.session.value.record == Last(m)
  {
    hide StoreOk, PaidOk, ThreadsOk, InFlightOk;
  }

  /** Nothing was begun before the run is driven. */
  predicate Timely(s: Session) {
    s.phase == Loaded ==> !s.began && s.threads == map[]
  }

  lemma {:induction false} EveryLease(pg: Program, ms: seq<Machine>, steps: seq<Step>, i: nat)
    requires IsCourse(pg, ms, steps) && i < |ms|
    ensures LoadedOpen(ms[i]) && (ms[i].session.Some? ==> Timely(ms[i].session.value))
  {
    hide StepOf;
    if i > 0 {
      EveryLease(pg, ms, steps, i - 1);
      LoadedStep(pg, ms[i - 1], steps[i - 1], ms[i]);
    }
  }

  predicate IsCall(step: Step) {
    step.SubmitDecision? || step.CancelCall? || step.ResolveTask?
  }

  predicate IsTaskSave(step: Step) {
    step.PlanTask? || step.StartTask? || step.FinishTask? || step.ParkTask? || step.CancelTask?
  }

  predicate IsLoopStep(step: Step) {
    step.Enter? || step.BeginNode? || step.FinishLeaf? || step.FinishBarrier? || step.FinishNested? || step.StopFrame?
  }

  lemma StartKeepsStatus(m: Machine, id: TaskId)
    requires m.session.Some? && id in m.session.value.record.tasks
    ensures var r := m.session.value.record;
      E.StartTask(r, id).Ok? ==> E.StartTask(r, id).value.0 == r.(tasks := E.StartTask(r, id).value.0.tasks)
  {
  }

  lemma ParkSuspends(m: Machine, id: TaskId)
    requires m.session.Some?
    ensures var parked := E.ParkTask(m.session.value.record, id);
      parked.Ok? ==> !Halting(m.session.value.record.status) && parked.value.status == RunStatus.Suspended
  {
  }

  predicate IsCommit(step: Step) {
    step.FinishLeaf? || step.FinishBarrier? || step.FinishNested?
  }

  lemma TerminalCommit(pg: Program, m: Machine, step: Step, m': Machine)
    requires StepOf(pg, m, step, m') && m.saved != [] && Terminal(Last(m).status)
    requires m.session.Some? && !m.session.value.poisoned ==> m.session.value.record == Last(m)
    requires IsCommit(step)
    ensures m'.saved != []
    ensures Last(m').status != Last(m).status ==> Replaces(step, Last(m).status, Last(m').status)
  {
    hide Route, GraphAt, Recall, WithoutChildren, ReturnedStates, AllReturned, ChildrenDone;
  }

  lemma TerminalTaskSave(pg: Program, m: Machine, step: Step, m': Machine)
    requires LoadedOpen(m) && StepOf(pg, m, step, m') && m.saved != [] && Terminal(Last(m).status)
    requires m.session.Some? && !m.session.value.poisoned ==> m.session.value.record == Last(m)
    requires IsTaskSave(step)
    ensures m'.saved != []
    ensures Last(m').status != Last(m).status ==> Replaces(step, Last(m).status, Last(m').status)
  {
    hide MayStart, E.StartTask, E.ParkTask, InFlight;
    if step.StartTask? {
      StartKeepsStatus(m, step.id);
    } else if step.ParkTask? {
      ParkSuspends(m, step.id);
    }
  }

  lemma TerminalCall(pg: Program, m: Machine, step: Step, m': Machine)
    requires LoadedOpen(m) && StepOf(pg, m, step, m') && m.saved != [] && Terminal(Last(m).status)
    requires m.session.Some? && !m.session.value.poisoned ==> m.session.value.record == Last(m)
    requires IsCall(step)
    ensures m'.saved != []
    ensures Last(m').status != Last(m).status ==> Replaces(step, Last(m).status, Last(m').status)
  {
    hide EvalNode, OriginOf, C.ValidateRecord;
  }

  lemma TerminalLoopStep(pg: Program, m: Machine, step: Step, m': Machine)
    requires LoadedOpen(m) && StepOf(pg, m, step, m') && m.saved != [] && Terminal(Last(m).status)
    requires m.session.Some? && !m.session.value.poisoned ==> m.session.value.record == Last(m)
    requires IsLoopStep(step) && !IsCommit(step)
    ensures m'.saved != []
    ensures Last(m').status != Last(m).status ==> Replaces(step, Last(m).status, Last(m').status)
  {
    hide EvalNode, OriginOf, CallOrigin, C.ExecutePrelude, C.ValidateRecord, Route, Callable, CalledOrigin, GraphAt,
         Recall, WithoutChildren, ReturnedStates, AllReturned, ChildrenDone;
  }

  lemma TerminalOtherStep(pg: Program, m: Machine, step: Step, m': Machine)
    requires LoadedOpen(m) && StepOf(pg, m, step, m') && m.saved != [] && Terminal(Last(m).status)
    requires m.session.Some? && !m.session.value.poisoned ==> m.session.value.record == Last(m)
    requires !IsTaskSave(step) && !IsCall(step) && !IsLoopStep(step)
    ensures m'.saved != []
    ensures Last(m').status != Last(m).status ==> Replaces(step, Last(m).status, Last(m').status)
  {
    hide EvalNode, OriginOf, C.ExecutePrelude, C.ValidateRecord;
  }

  lemma TerminalStep(pg: Program, m: Machine, step: Step, m': Machine)
    requires LoadedOpen(m) && StepOf(pg, m, step, m') && m.saved != [] && Terminal(Last(m).status)
    requires m.session.Some? && !m.session.value.poisoned ==> m.session.value.record == Last(m)
    ensures m'.saved != []
    ensures Last(m').status != Last(m).status ==> Replaces(step, Last(m).status, Last(m').status)
  {
    hide StepOf, LoadedOpen, Replaces;
    if IsTaskSave(step) {
      TerminalTaskSave(pg, m, step, m');
    } else if IsCommit(step) {
      TerminalCommit(pg, m, step, m');
    } else if IsCall(step) {
      TerminalCall(pg, m, step, m');
    } else if IsLoopStep(step) {
      TerminalLoopStep(pg, m, step, m');
    } else {
      TerminalOtherStep(pg, m, step, m');
    }
  }

  /** No other step changes a terminal status. */
  lemma TerminalReplaced(pg: Program, ms: seq<Machine>, steps: seq<Step>, i: nat)
    requires ProgramOk(pg) && IsRun(pg, ms, steps) && i < |steps|
    requires ms[i].saved != [] && Terminal(Last(ms[i]).status)
    ensures ms[i + 1].saved != []
    ensures Last(ms[i + 1]).status != Last(ms[i]).status ==>
              Replaces(steps[i], Last(ms[i]).status, Last(ms[i + 1]).status)
  {
    hide MachineInv, StepOf;
    RunInv(pg, ms, steps, i);
    EveryLease(pg, ms, steps, i);
    SameRecord(pg, ms[i]);
    TerminalStep(pg, ms[i], steps[i], ms[i + 1]);
  }

  // ---------------------------------------------------------------- whole runs

  /** The history of a run is append-only, and each saved record grows into every later one. */
  lemma {:induction false} LinearHistory(pg: Program, ms: seq<Machine>, steps: seq<Step>, i: nat, j: nat)
    requires ProgramOk(pg) && IsRun(pg, ms, steps) && i <= j < |ms|
    ensures ms[i].saved <= ms[j].saved
    ensures ms[i].saved != [] ==> Grows(Last(ms[i]), Last(ms[j]))
    decreases j - i
  {
    hide StepOf, MachineInv, RecordsAnswered, Grows;
    if i < j {
      LinearHistory(pg, ms, steps, i, j - 1);
      RunInv(pg, ms, steps, j - 1);
      StepGrows(pg, ms[j - 1], steps[j - 1], ms[j]);
      if ms[i].saved != [] && ms[j].saved != ms[j - 1].saved {
        GrowsTransitive(Last(ms[i]), Last(ms[j - 1]), Last(ms[j]));
      }
    } else if ms[i].saved != [] {
      GrowsSelf(Last(ms[i]));
    }
  }

  lemma {:induction false} RecallGrows(r: RunRecord, r': RunRecord, id: InvocationId, script: Script)
    requires Grows(r, r') && Recall(r.tasks, id, script).Some?
    ensures Recall(r'.tasks, id, script) == Recall(r.tasks, id, script)
  {
    if script.Ask? {
      var task := TaskId(id, script.slot);
      assert TaskGrows(r.tasks[task], r'.tasks[task]);
      RecallGrows(r, r', id, script.resume[r.tasks[task].result.value]);
    }
  }

  /** Once the recorded results bring a leaf to its end, they bring it to the same end whenever it is executed
      again. */
  lemma RecallIsFinal(pg: Program, ms: seq<Machine>, steps: seq<Step>, i: nat, j: nat, id: InvocationId,
                      script: Script)
    requires ProgramOk(pg) && IsRun(pg, ms, steps) && i <= j < |ms| && ms[i].saved != []
    requires Recall(Last(ms[i]).tasks, id, script).Some?
    ensures ms[j].saved != [] && Recall(Last(ms[j]).tasks, id, script) == Recall(Last(ms[i]).tasks, id, script)
  {
    hide IsRun, Grows;
    LinearHistory(pg, ms, steps, i, j);
    RecallGrows(Last(ms[i]), Last(ms[j]), id, script);
  }

  /** The result an operator gives for a task is the one every later execution of its leaf goes on with. */
  lemma ResolvedIsRecalled(pg: Program, ms: seq<Machine>, steps: seq<Step>, i: nat, j: nat, id: TaskId,
                           request: string, expected: nat, result: Json, script: Script)
    requires ProgramOk(pg) && IsRun(pg, ms, steps) && i < j < |ms| && i < |steps|
    requires ms[i + 1].saved != ms[i].saved
    requires steps[i] == Step.ResolveTask(id, request, expected, Resolved(result))
    ensures ms[i].saved != [] && ms[i + 1].saved == ms[i].saved + [Last(ms[i + 1])]
    ensures C.ResolutionStored(Last(ms[i]), Last(ms[i + 1]), id, request, Resolved(result))
    ensures ms[j].saved != [] && id in Last(ms[j]).tasks
    ensures Last(ms[j]).tasks[id].status == TaskStatus.Completed && Last(ms[j]).tasks[id].result == Some(result)
    ensures var t := Last(ms[j]).tasks[id];
      script.Ask? && script.slot == id.slot && SameTask(t, script.version, script.input, script.policy)
      && result in script.resume ==>
        Recall(Last(ms[j]).tasks, id.at, script) == Recall(Last(ms[j]).tasks, id.at, script.resume[result])
  {
    hide IsRun, Grows;
    RunSteps(pg, ms, steps, i);
    if request != "" {
      C.ResolutionMeans(Last(ms[i]), id, request, expected, Resolved(result), true, true);
    }
    LinearHistory(pg, ms, steps, i + 1, j);
    ResultKept(Last(ms[i + 1]), Last(ms[j]), id);
  }

  lemma RunSteps(pg: Program, ms: seq<Machine>, steps: seq<Step>, i: nat)
    requires IsRun(pg, ms, steps) && i < |steps|
    ensures |ms| == |steps| + 1 && StepOf(pg, ms[i], steps[i], ms[i + 1])
  {
    hide StepOf;
  }

  lemma ResultKept(r: RunRecord, r': RunRecord, id: TaskId)
    requires Grows(r, r') && id in r.tasks && r.tasks[id].status == TaskStatus.Completed
    ensures id in r'.tasks && r'.tasks[id].status == TaskStatus.Completed && r'.tasks[id].result == r.tasks[id].result
  {
    assert TaskGrows(r.tasks[id], r'.tasks[id]);
  }

  // ---------------------------------------------- what tasks answer is what is recorded

  /** Answers matter to no step of the protocol. */
  lemma StepSame(pg: Program, w: Answers, m: Machine, step: Step, m': Machine)
    requires StepOf(pg, m, step, m')
    ensures StepOf(pg.(answers := w), m, step, m')
  {
    hide Persist, Called, CommitStep, GraphAt, CallOrigin, E.Commit, E.Begin, C.ExecutePrelude, C.ValidateRecord;
  }

  /** Every saved record grows into the last one. */
  lemma {:induction false} SavedGrows(pg: Program, ms: seq<Machine>, steps: seq<Step>, i: nat, k: nat)
    requires ProgramOk(pg) && IsRun(pg, ms, steps) && i < |ms| && k < |ms[i].saved|
    ensures Grows(ms[i].saved[k], Last(ms[i]))
  {
    hide StepOf, MachineInv, RecordsAnswered, Grows;
    GrowsSelf(Last(ms[i]));
    if i > 0 && k < |ms[i].saved| - 1 {
      RunInv(pg, ms, steps, i - 1);
      StepGrows(pg, ms[i - 1], steps[i - 1], ms[i]);
      SavedGrows(pg, ms, steps, i - 1, k);
      GrowsTransitive(ms[i].saved[k], Last(ms[i - 1]), Last(ms[i]));
    }
  }

  lemma GrowsSelf(r: RunRecord)
    ensures Grows(r, r)
  {
  }

  /** The answers recorded so far. */
  ghost function Told(m: Machine): Answers {
    (id: TaskId) =>
      if m.saved != [] && id in Last(m).tasks && Last(m).tasks[id].status == TaskStatus.Completed
      then Last(m).tasks[id].result else None
  }

  /** `w` answers as has been recorded, and otherwise as it likes. */
  ghost predicate Fits(w: Answers, m: Machine) {
    forall id | Told(m)(id).Some? :: w(id) == Told(m)(id)
  }

  /** A machine whose records all grow into the last one has recorded one answer to every task. */
  lemma ToldAnswers(pg: Program, m: Machine, last: Machine)
    requires Fits(pg.answers, last) && last.saved != [] && TasksOk(Last(last))
    requires forall k | 0 <= k < |m.saved| :: Grows(m.saved[k], Last(last))
    ensures RecordsAnswered(pg, m)
  {
    forall k | 0 <= k < |m.saved|
      ensures Answered(pg, m.saved[k].tasks)
    {
      forall id | id in m.saved[k].tasks && m.saved[k].tasks[id].status == TaskStatus.Completed
        ensures m.saved[k].tasks[id].result.Some? && m.saved[k].tasks[id].result == pg.answers(id)
      {
        assert TaskOk(id, Last(last).tasks[id]) && TaskGrows(m.saved[k].tasks[id], Last(last).tasks[id]);
        assert Told(last)(id) == Last(last).tasks[id].result;
      }
    }
  }

  /** Whatever happens in a course of the protocol, however often tasks are performed and whatever comes of
      it, it is a run for the answers its last record holds: what is recorded of a task is recorded once. */
  lemma {:induction false} EveryRunIsAnswered(pg: Program, ms: seq<Machine>, steps: seq<Step>, w: Answers)
    requires ProgramOk(pg) && IsCourse(pg, ms, steps) && Fits(w, ms[|steps|])
    ensures ProgramOk(pg.(answers := w)) && IsRun(pg.(answers := w), ms, steps)
    decreases |steps|
  {
    hide StepOf, MachineInv, Grows, RecordsAnswered, Told, Fits;
    var n := |steps|;
    if n == 0 {
      NothingSaved(pg.(answers := w), INITIAL);
    } else {
      var q := pg.(answers := Told(ms[n - 1]));
      FitsItself(ms[n - 1]);
      EveryRunIsAnswered(pg, ms[..n], steps[..n - 1], q.answers);
      StepSame(pg, q.answers, ms[n - 1], steps[n - 1], ms[n]);
      AnswersAgree(q, ms[..n], steps[..n - 1], steps[n - 1], ms[n], w);
      forall i | 0 <= i < n
        ensures StepOf(pg.(answers := w), ms[i], steps[i], ms[i + 1])
      {
        StepSame(pg, w, ms[i], steps[i], ms[i + 1]);
      }
    }
  }

  lemma FitsItself(m: Machine)
    ensures Fits(Told(m), m)
  {
  }

  /** Neither machine has recorded a result that the other contradicts. */
  ghost predicate Compatible(m: Machine, m': Machine) {
    forall id | Told(m)(id).Some? && Told(m')(id).Some? :: Told(m)(id) == Told(m')(id)
  }

  /** Two courses of one program that record no different results are runs for the same answers. */
  lemma TwoRunsAnswered(pg: Program, ms: seq<Machine>, steps: seq<Step>, ms': seq<Machine>, steps': seq<Step>)
    returns (w: Answers)
    requires ProgramOk(pg) && IsCourse(pg, ms, steps) && IsCourse(pg, ms', steps')
    requires Compatible(ms[|steps|], ms'[|steps'|])
    ensures ProgramOk(pg.(answers := w)) && IsRun(pg.(answers := w), ms, steps) && IsRun(pg.(answers := w), ms', steps')
  {
    hide StepOf, IsRun, Told;
    var m, m' := ms[|steps|], ms'[|steps'|];
    w := (id: TaskId) => if Told(m)(id).Some? then Told(m)(id) else Told(m')(id);
    EveryRunIsAnswered(pg, ms, steps, w);
    EveryRunIsAnswered(pg, ms', steps', w);
  }

  lemma NothingSaved(pg: Program, m: Machine)
    requires m.saved == []
    ensures RecordsAnswered(pg, m)
  {
  }

  /** Every record saved so far grows into the last one after one more step. */
  lemma GrowsOn(pg: Program, ms: seq<Machine>, steps: seq<Step>, last: Machine, i: nat, k: nat)
    requires ProgramOk(pg) && IsRun(pg, ms, steps) && i < |ms| && k < |ms[i].saved|
    requires SavedGrow(ms[|ms| - 1], last)
    ensures last.saved != [] && Grows(ms[i].saved[k], Last(last))
  {
    hide IsRun, Grows;
    var end := ms[|ms| - 1];
    SavedGrows(pg, ms, steps, i, k);
    LinearHistory(pg, ms, steps, i, |ms| - 1);
    GrowsTransitive(ms[i].saved[k], Last(ms[i]), Last(end));
    if last.saved != end.saved {
      GrowsTransitive(ms[i].saved[k], Last(end), Last(last));
    }
  }

  /** One more step records no second answer. */
  lemma AnswersAgree(pg: Program, ms: seq<Machine>, steps: seq<Step>, step: Step, last: Machine, answers: Answers)
    requires ProgramOk(pg) && IsRun(pg, ms, steps) && StepOf(pg, ms[|ms| - 1], step, last) && Fits(answers, last)
    ensures RecordsAnswered(pg.(answers := answers), last)
    ensures forall i | 0 <= i < |ms| :: RecordsAnswered(pg.(answers := answers), ms[i])
  {
    hide StepOf, MachineInv, Grows, RecordsAnswered, Told, Fits;
    var w := pg.(answers := answers);
    var n := |ms| - 1;
    RunInv(pg, ms, steps, n);
    StepGrows(pg, ms[n], step, last);
    StepInv(pg, ms[n], step, last);
    if last.saved == [] {
      NothingSaved(w, last);
    } else {
      LastTasks(pg, last);
      forall k | 0 <= k < |last.saved| ensures Grows(last.saved[k], Last(last)) {
        GrowsSelf(Last(last));
        if k < |ms[n].saved| {
          GrowsOn(pg, ms, steps, last, n, k);
        }
      }
      ToldAnswers(w, last, last);
    }
    forall i | 0 <= i < |ms|
      ensures RecordsAnswered(w, ms[i])
    {
      forall k | 0 <= k < |ms[i].saved| ensures last.saved != [] && Grows(ms[i].saved[k], Last(last)) {
        GrowsOn(pg, ms, steps, last, i, k);
      }
      if ms[i].saved == [] {
        NothingSaved(w, ms[i]);
      } else {
        assert Grows(ms[i].saved[0], Last(last));
        LastTasks(pg, last);
        ToldAnswers(w, ms[i], last);
      }
    }
  }

  lemma LastTasks(pg: Program, m: Machine)
    requires MachineInv(pg, m) && m.saved != []
    ensures TasksOk(Last(m))
  {
    hide LogOk, FramesOk, ApprovalsOk, HeaderOk;
  }

  /** No lease, and a record with a terminal status. */
  predicate AtRest(m: Machine) {
    m.session.None? && m.saved != [] && Terminal(Last(m).status)
  }

  lemma RestStep(pg: Program, m: Machine, step: Step, m': Machine)
    requires AtRest(m) && StepOf(pg, m, step, m')
    ensures m'.saved == m.saved && m'.session.None?
  {
  }

  /** A record left terminal when its lease ends is final. */
  lemma {:induction false} TerminalIsFinal(pg: Program, ms: seq<Machine>, steps: seq<Step>, i: nat, j: nat)
    requires IsCourse(pg, ms, steps) && i <= j < |ms| && AtRest(ms[i])
    ensures ms[j].saved == ms[i].saved && AtRest(ms[j])
    decreases j - i
  {
    hide StepOf;
    if i < j {
      TerminalIsFinal(pg, ms, steps, i, j - 1);
      RestStep(pg, ms[j - 1], steps[j - 1], ms[j]);
    }
  }

  /** After a failed save the session saves nothing more and cannot recover. */
  lemma PoisonedStep(pg: Program, m: Machine, step: Step, m': Machine)
    requires m.session.Some? && m.session.value.poisoned && StepOf(pg, m, step, m')
    ensures m'.saved == m.saved && m'.commits == m.commits
    ensures m'.session.Some? ==> m'.session.value.poisoned
  {
  }

  /** The revision a caller claims to have seen. */
  function Expected(step: Step): Option<nat> {
    match step
    case SubmitDecision(_, _, _, expected, _, _) => Some(expected)
    case CancelCall(expected) => Some(expected)
    case ResolveTask(_, _, expected, _) => Some(expected)
    case _ => None
  }

  /** A call that changes the record names the revision it changes. */
  lemma CallNamesRevision(pg: Program, m: Machine, step: Step, m': Machine)
    requires MachineInv(pg, m) && StepOf(pg, m, step, m') && Expected(step).Some? && m'.saved != m.saved
    ensures |m'.saved| == |m.saved| + 1 && Expected(step) == Some(|m.saved| - 1)
  {
    hide Grows, C.ValidateRecord, C.SubmitDecision, C.CancelRun, C.ResolveTask, RecordInv;
    assert Last(m).revision == |m.saved| - 1;
    match step
    case SubmitDecision(id, token, request, expected, decision, now) =>
      DecisionGrows(Last(m), id, token, request, expected, decision, now);
    case CancelCall(expected) => CancelGrows(Last(m), expected);
    case ResolveTask(id, request, expected, resolution) => ResolutionGrows(Last(m), id, request, expected, resolution);
    case _ =>
  }

  /** Of all calls that expect the same revision, at most one ever changes the record. */
  lemma OneCallPerRevision(pg: Program, ms: seq<Machine>, steps: seq<Step>, i: nat, j: nat)
    requires ProgramOk(pg) && IsRun(pg, ms, steps) && i < j < |steps|
    requires Expected(steps[i]).Some? && Expected(steps[j]) == Expected(steps[i])
    requires ms[i + 1].saved != ms[i].saved
    ensures ms[j + 1].saved == ms[j].saved
  {
    hide StepOf, MachineInv, Grows;
    RunInv(pg, ms, steps, i);
    RunInv(pg, ms, steps, j);
    CallNamesRevision(pg, ms[i], steps[i], ms[i + 1]);
    LinearHistory(pg, ms, steps, i + 1, j);
    if ms[j + 1].saved != ms[j].saved {
      CallNamesRevision(pg, ms[j], steps[j], ms[j + 1]);
    }
  }
}
