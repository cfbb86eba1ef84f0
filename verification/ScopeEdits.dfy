/** The edits the durable protocol applies to a run record, as functions. Every save in the
    protocol is one of these edits followed by an increment of the revision. */
module ScopeEdits {
  import opened Wrappers
  import opened GraphCore
  import opened RunModel

  /** The record `update` saves after an edit; a revision that would overflow is refused. */
  function Bumped(r: RunRecord): Result<RunRecord, DurableError> {
    if r.revision >= U64_MAX then Err(Conflict) else Ok(r.(revision := r.revision + 1))
  }

  function NewFrame(g: Graph, state: Json, maxSteps: nat): FrameRecord {
    FrameRecord(g.signature, state, Some(g.start), 0, maxSteps, false)
  }

  function RootRecord(runId: string, version: RunVersion, g: Graph, state: Json, maxSteps: nat): RunRecord {
    RunRecord(RUN_FORMAT_VERSION, runId, 0, version, RunStatus.Running, 0, maxSteps,
              map[Root := NewFrame(g, state, maxSteps)], map[], map[])
  }

  /** Open a frame that is not recorded yet. */
  function OpenFrame(r: RunRecord, p: Path, f: FrameRecord): RunRecord {
    r.(frames := r.frames[p := f])
  }

  /** Start, or re-enter, the invocation of `node`; a re-entered one is not charged again. */
  function Begin(r: RunRecord, p: Path, node: string): Result<(RunRecord, nat), DurableError> {
    if Halting(r.status) then Err(Stopped)
    else if p !in r.frames then Err(NotFound)
    else
      var f := r.frames[p];
      if f.nextNode != Some(node) then Err(Conflict)
      else if f.active then Ok((r, f.stepsUsed))
      else if f.stepsUsed >= f.maxSteps || r.stepsUsed >= r.maxSteps then Err(Conflict)
      else
        var f' := f.(stepsUsed := f.stepsUsed + 1, active := true);
        Ok((r.(frames := r.frames[p := f'], stepsUsed := r.stepsUsed + 1), f'.stepsUsed))
  }

  function BeginRecord(r: RunRecord, p: Path, node: string): Result<RunRecord, DurableError> {
    match Begin(r, p, node) case Ok(pair) => Ok(pair.0) case Err(e) => Err(e)
  }

  /** An edit that returns nothing. */
  function Unit(edited: Result<RunRecord, DurableError>): Result<(RunRecord, ()), DurableError> {
    match edited case Ok(r) => Ok((r, ())) case Err(e) => Err(e)
  }

  /** Advance the cursor of a frame and mark the invocation's approval, if any, as applied. */
  function Commit(r: RunRecord, p: Path, state: Json, next: Option<string>): Result<RunRecord, DurableError> {
    if p !in r.frames then Err(NotFound)
    else
      var f := r.frames[p];
      var advanced := r.(frames := r.frames[p := f.(state := state, nextNode := next, active := false)]);
      match f.nextNode
      case None => Ok(advanced)
      case Some(node) =>
        var id := InvocationId(p, node, f.stepsUsed);
        if id in r.approvals
        then Ok(advanced.(approvals := r.approvals[id := r.approvals[id].(applied := true)]))
        else Ok(advanced)
  }

  function SetStatus(r: RunRecord, s: RunStatus): RunRecord {
    r.(status := s)
  }

  /** Ask for a decision about the persisted state of the frame. */
  function RequestApproval(r: RunRecord, id: InvocationId, token: string, deadline: Option<nat>): RunRecord
    requires id.frame in r.frames
  {
    r.(approvals := r.approvals[id :=
      ApprovalRequest(id, id.frame, id.node, r.frames[id.frame].state, token, deadline, None, false)])
  }

  function RejectApproval(r: RunRecord, id: InvocationId): RunRecord
    requires id in r.approvals
  {
    r.(approvals := r.approvals[id := r.approvals[id].(applied := true)], status := RunStatus.Rejected)
  }

  predicate Overdue(a: ApprovalRequest, now: nat) {
    a.deadline.Some? && now >= a.deadline.value
  }

  // -------------------------------------------------------------------- tasks

  function PlannedTask(id: TaskId, version: string, input: Json, policy: ReplayPolicy): TaskRecord {
    TaskRecord(id, version, input, policy, TaskStatus.Planned, 0, None, map[])
  }

  function PlanTask(r: RunRecord, id: TaskId, version: string, input: Json, policy: ReplayPolicy): RunRecord {
    r.(tasks := r.tasks[id := PlannedTask(id, version, input, policy)])
  }

  function StartTask(r: RunRecord, id: TaskId): Result<(RunRecord, nat), DurableError>
    requires id in r.tasks
  {
    var t := r.tasks[id];
    if t.attempts >= U32_MAX then Err(Conflict)
    else
      var t' := t.(status := TaskStatus.Started, attempts := t.attempts + 1);
      Ok((r.(tasks := r.tasks[id := t']), t'.attempts))
  }

  function CompleteTask(r: RunRecord, id: TaskId, result: Json): RunRecord
    requires id in r.tasks
  {
    r.(tasks := r.tasks[id := r.tasks[id].(result := Some(result), status := TaskStatus.Completed)])
  }

  /** Park a task whose external outcome is not known. */
  function ParkTask(r: RunRecord, id: TaskId): Result<RunRecord, DurableError> {
    if id !in r.tasks then Err(NotFound)
    else if Halting(r.status) then Err(Stopped)
    else Ok(r.(tasks := r.tasks[id := r.tasks[id].(status := TaskStatus.Unknown)], status := RunStatus.Suspended))
  }

  // ----------------------------------------------------------- external calls

  function Decide(r: RunRecord, id: InvocationId, receipt: Receipt): RunRecord
    requires id in r.approvals
  {
    r.(approvals := r.approvals[id := r.approvals[id].(receipt := Some(receipt))])
  }

  function ResolveTask(r: RunRecord, id: TaskId, request: string, resolution: TaskResolution): RunRecord
    requires id in r.tasks
  {
    var t := r.tasks[id];
    var t' := match resolution
      case Resolved(value) => t.(result := Some(value), status := TaskStatus.Completed)
      case Retry => t.(result := None, status := TaskStatus.Planned);
    r.(tasks := r.tasks[id := t'.(resolutions := t.resolutions[request := resolution])])
  }
}
