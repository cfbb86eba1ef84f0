/** The persisted envelope of a durable run and the check every load applies to it. */
module RunModel {
  import opened Wrappers
  import opened GraphCore

  const RUN_FORMAT_VERSION: nat := 2
  const U32_MAX: nat := 0xFFFF_FFFF

  datatype DurableError =
    | Busy | NotFound | AlreadyExists | UnsupportedFormat | Incompatible | Conflict
    | Suspended | Stopped | BranchCancelled | Storage | NodeFailed

  datatype RunStatus = Running | Suspended | Completed | Rejected | Cancelled | Expired

  datatype RunVersion = RunVersion(workflow: string, stateSchema: string)

  datatype FrameRecord = FrameRecord(
    signature: string,
    state: Json,
    nextNode: Option<string>,
    stepsUsed: nat,
    maxSteps: nat,
    active: bool)

  datatype Decision = Approve | Reject(reason: string)

  datatype Receipt = Receipt(request: string, decision: Decision, acceptedRevision: nat)

  datatype ApprovalRequest = ApprovalRequest(
    id: InvocationId,
    frame: Path,
    node: string,
    content: Json,
    token: string,
    deadline: Option<nat>,
    receipt: Option<Receipt>,
    applied: bool)

  datatype TaskStatus = Planned | Started | Completed | Unknown

  datatype TaskResolution = Resolved(result: Json) | Retry

  datatype TaskRecord = TaskRecord(
    id: TaskId,
    version: string,
    input: Json,
    policy: ReplayPolicy,
    status: TaskStatus,
    attempts: nat,
    result: Option<Json>,
    resolutions: map<string, TaskResolution>)

  datatype RunRecord = RunRecord(
    formatVersion: nat,
    runId: string,
    revision: nat,
    version: RunVersion,
    status: RunStatus,
    stepsUsed: nat,
    maxSteps: nat,
    frames: map<Path, FrameRecord>,
    approvals: map<InvocationId, ApprovalRequest>,
    tasks: map<TaskId, TaskRecord>)

  predicate FrameInvalid(f: FrameRecord) {
    f.stepsUsed > f.maxSteps || (f.active && f.nextNode.None?)
  }

  predicate ApprovalInvalid(r: RunRecord, id: InvocationId, a: ApprovalRequest) {
    || id != a.id
    || a.frame !in r.frames
    || (a.applied && a.receipt.None?)
    || (a.receipt.Some? && a.receipt.value.acceptedRevision > r.revision)
  }

  predicate TaskInvalid(id: TaskId, t: TaskRecord) {
    id != t.id || (t.status == TaskStatus.Completed && t.result.None?)
  }

  /** RunRecord::validate, with its order of checks. */
  function Validate(r: RunRecord): Result<(), DurableError> {
    if r.formatVersion != RUN_FORMAT_VERSION then Err(UnsupportedFormat)
    else if Root !in r.frames then Err(Incompatible)
    else if
      || r.version.workflow == "" || r.version.stateSchema == ""
      || r.stepsUsed > r.maxSteps
      || (r.status == RunStatus.Completed && r.frames[Root].nextNode.Some?)
      || (exists p | p in r.frames :: FrameInvalid(r.frames[p]))
      || (exists id | id in r.approvals :: ApprovalInvalid(r, id, r.approvals[id]))
      || (exists id | id in r.tasks :: TaskInvalid(id, r.tasks[id]))
    then Err(Incompatible)
    else Ok(())
  }

  /** What a record must be to be read back. */
  predicate Readable(r: RunRecord) {
    && r.formatVersion == 2
    && r.version.workflow != "" && r.version.stateSchema != ""
    && r.stepsUsed <= r.maxSteps
    && Root in r.frames && (r.status == RunStatus.Completed ==> r.frames[Root].nextNode.None?)
    && (forall p | p in r.frames ::
          r.frames[p].stepsUsed <= r.frames[p].maxSteps && (r.frames[p].active ==> r.frames[p].nextNode.Some?))
    && (forall id | id in r.approvals ::
          && r.approvals[id].id == id && r.approvals[id].frame in r.frames
          && (r.approvals[id].applied ==> r.approvals[id].receipt.Some?)
          && (r.approvals[id].receipt.Some? ==> r.approvals[id].receipt.value.acceptedRevision <= r.revision))
    && (forall id | id in r.tasks ::
          r.tasks[id].id == id && (r.tasks[id].status == TaskStatus.Completed ==> r.tasks[id].result.Some?))
  }

  /** The check passes exactly the readable records, and says whether the format is the fault. */
  lemma ValidateExactly(r: RunRecord)
    ensures Validate(r)
         == if Readable(r) then Ok(())
            else Err(if r.formatVersion == 2 then Incompatible else UnsupportedFormat)
  {
  }

  predicate Terminal(s: RunStatus) {
    s == RunStatus.Completed || Halting(s)
  }

  /** A status `begin` refuses to work under. */
  predicate Halting(s: RunStatus) {
    s == Rejected || s == Cancelled || s == Expired
  }

  // -------------------------------------------------------------- nested frames

  /** Is `q` the frame `p` or one nested in it? */
  predicate Under(q: Path, p: Path) {
    q == p || (q.Child? && Under(q.parent, p))
  }

  function Depth(p: Path): nat {
    if p.Root? then 0 else 1 + Depth(p.parent)
  }

  lemma {:induction false} UnderDepth(q: Path, p: Path)
    requires Under(q, p)
    ensures Depth(q) >= Depth(p) && (Depth(q) == Depth(p) ==> q == p)
  {
    if q != p {
      UnderDepth(q.parent, p);
    }
  }

  lemma {:induction false} UnderTransitive(a: Path, b: Path, c: Path)
    requires Under(a, b) && Under(b, c)
    ensures Under(a, c)
  {
    if a != b {
      UnderTransitive(a.parent, b, c);
    }
  }

  // ---------------------------------------------------------------- step sums

  /** Sum of the steps of all frames. */
  ghost function SumSteps(frames: map<Path, FrameRecord>): nat
    decreases |frames|
  {
    if frames == map[] then 0
    else
      var p :| p in frames;
      frames[p].stepsUsed + SumSteps(frames - {p})
  }

  lemma {:induction false} SumStepsRemove(frames: map<Path, FrameRecord>, p: Path)
    requires p in frames
    ensures SumSteps(frames) == frames[p].stepsUsed + SumSteps(frames - {p})
    decreases |frames|
  {
    var q :| q in frames && SumSteps(frames) == frames[q].stepsUsed + SumSteps(frames - {q});
    if q != p {
      SumStepsRemove(frames - {q}, p);
      SumStepsRemove(frames - {p}, q);
      assert frames - {q} - {p} == frames - {p} - {q};
    }
  }

  lemma SumStepsUpdate(frames: map<Path, FrameRecord>, p: Path, f: FrameRecord)
    ensures SumSteps(frames[p := f])
         == SumSteps(frames) + f.stepsUsed - (if p in frames then frames[p].stepsUsed else 0)
  {
    var updated := frames[p := f];
    SumStepsRemove(updated, p);
    if p in frames {
      SumStepsRemove(frames, p);
      assert updated - {p} == frames - {p};
    } else {
      assert updated - {p} == frames;
    }
  }
}
