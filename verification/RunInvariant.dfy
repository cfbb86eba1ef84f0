/** The invariant of every record a run ever saves, and its preservation by each edit. */
module RunInvariant {
  import opened Wrappers
  import opened GraphCore
  import opened RunModel
  import E = ScopeEdits

  /** The program of a run: what `start` was given, and what its tasks will be recorded to have answered.
      `RunHistory.EveryRunIsAnswered` finds such answers for whatever a run has recorded. */
  datatype Program = Program(
    runId: string,
    version: RunVersion,
    graph: Graph,
    input: Json,
    maxSteps: nat,
    answers: Answers)

  ghost predicate ProgramOk(pg: Program) {
    && WellFormed(pg.graph)
    && pg.version.workflow != "" && pg.version.stateSchema != ""
  }

  /** The graph run a frame stands for. */
  datatype Origin = Origin(graph: Graph, input: Json, maxSteps: nat)

  /** The run of the nested call `name` made by `node` on `state`. */
  ghost function CallOrigin(g: Graph, node: string, state: Json, name: string): Option<Origin> {
    if IsNested(g, node) && HasCall(g.nodes[node].calls, name) then
      var call := g.nodes[node].calls[CallIndex(g.nodes[node].calls, name)];
      Some(Origin(call.graph, call.project(state), call.maxSteps))
    else None
  }

  /** The graph run a path denotes, read off the crash-free meaning of the program alone. */
  ghost function OriginOf(pg: Program, p: Path): Option<Origin> {
    match p
    case Root => Some(Origin(pg.graph, pg.input, pg.maxSteps))
    case Child(parent, node, invocation, name) =>
      match OriginOf(pg, parent)
      case None => None
      case Some(o) =>
        if invocation == 0 then None
        else match Traj(pg.answers, parent, o.graph, o.input, invocation - 1)
          case Some(Cursor(Some(n), s)) => if n == node then CallOrigin(o.graph, node, s, name) else None
          case _ => None
  }

  /** The meaning of frame `p` after `k` commits. */
  ghost function CursorAt(pg: Program, p: Path, k: nat): Option<Cursor> {
    match OriginOf(pg, p)
    case None => None
    case Some(o) => Traj(pg.answers, p, o.graph, o.input, k)
  }

  /** The run a nested path denotes, from the cursor in front of the invocation that calls it. */
  lemma ChildOrigin(pg: Program, p: Path, state: Json)
    requires p.Child? && p.invocation >= 1 && OriginOf(pg, p.parent).Some?
    requires CursorAt(pg, p.parent, p.invocation - 1) == Some(Cursor(Some(p.node), state))
    ensures OriginOf(pg, p) == CallOrigin(OriginOf(pg, p.parent).value.graph, p.node, state, p.name)
  {
  }

  lemma OtherNode(pg: Program, q: Path)
    requires q.Child? && q.invocation >= 1 && CursorAt(pg, q.parent, q.invocation - 1).Some?
    requires CursorAt(pg, q.parent, q.invocation - 1).value.node != Some(q.node)
    ensures OriginOf(pg, q).None?
  {
  }

  /** The result of the crash-free run a frame stands for. */
  ghost function Meaning(pg: Program, p: Path): Option<Json>
    requires OriginOf(pg, p).Some?
  {
    var o := OriginOf(pg, p).value;
    RunResult(pg.answers, p, o.graph, o.input, o.maxSteps)
  }

  /** The graph a path leads to, read off the program's text. */
  function GraphAt(g: Graph, p: Path): Option<Graph> {
    match p
    case Root => Some(g)
    case Child(parent, node, _, name) =>
      match GraphAt(g, parent)
      case None => None
      case Some(outer) =>
        if IsNested(outer, node) && HasCall(outer.nodes[node].calls, name)
        then Some(outer.nodes[node].calls[CallIndex(outer.nodes[node].calls, name)].graph)
        else None
  }

  lemma {:induction false} GraphAtOrigin(pg: Program, p: Path)
    requires OriginOf(pg, p).Some?
    ensures GraphAt(pg.graph, p) == Some(OriginOf(pg, p).value.graph)
  {
    hide EvalNode, Traj;
    if p.Child? {
      GraphAtOrigin(pg, p.parent);
    }
  }

  /** Commits a frame has made. */
  function Commits(f: FrameRecord): int {
    if f.active then f.stepsUsed - 1 else f.stepsUsed
  }

  /** A frame stands exactly where its graph's meaning is after its commits. */
  ghost predicate FrameOk(pg: Program, p: Path, f: FrameRecord) {
    && OriginOf(pg, p).Some?
    && f.signature == OriginOf(pg, p).value.graph.signature
    && f.maxSteps == OriginOf(pg, p).value.maxSteps
    && f.stepsUsed <= f.maxSteps
    && (f.active ==> f.stepsUsed >= 1 && f.nextNode.Some?)
    && CursorAt(pg, p, Commits(f)) == Some(Cursor(f.nextNode, f.state))
  }

  /** A nested frame belongs to a begun invocation, and is finished once that invocation committed. */
  ghost predicate ParentOk(frames: map<Path, FrameRecord>, p: Path, f: FrameRecord) {
    p.Child? ==>
      && p.parent in frames
      && 1 <= p.invocation <= frames[p.parent].stepsUsed
      && (p.invocation <= Commits(frames[p.parent]) ==> f.nextNode.None?)
  }

  /** A path whose parent has committed the invocation that runs it. */
  ghost predicate Due(pg: Program, frames: map<Path, FrameRecord>, p: Path) {
    && p.Child?
    && p.parent in frames
    && p.invocation <= Commits(frames[p.parent])
    && OriginOf(pg, p).Some?
  }

  /** Is the invocation one of a barrier? */
  ghost predicate AtBarrier(pg: Program, id: InvocationId) {
    && id.invocation >= 1
    && OriginOf(pg, id.frame).Some?
    && CursorAt(pg, id.frame, id.invocation - 1).Some?
    && CursorAt(pg, id.frame, id.invocation - 1).value.node == Some(id.node)
    && IsBarrier(OriginOf(pg, id.frame).value.graph, id.node)
  }

  /** The state in front of a barrier invocation. */
  ghost function StateAt(pg: Program, id: InvocationId): Json
    requires AtBarrier(pg, id)
  {
    CursorAt(pg, id.frame, id.invocation - 1).value.state
  }

  predicate Approved(a: ApprovalRequest) {
    a.receipt.Some? && a.receipt.value.decision.Approve?
  }

  ghost predicate ApprovalOk(pg: Program, r: RunRecord, id: InvocationId, a: ApprovalRequest) {
    && a.id == id && a.frame == id.frame && a.node == id.node
    && id.frame in r.frames
    && id.invocation <= r.frames[id.frame].stepsUsed
    && AtBarrier(pg, id) && a.content == StateAt(pg, id)
    && (a.receipt.Some? ==> a.receipt.value.acceptedRevision <= r.revision)
    && (a.applied ==> a.receipt.Some?)
    && (id.invocation <= Commits(r.frames[id.frame]) ==> a.applied && Approved(a))
  }

  /** A committed barrier invocation: it must have an approval. */
  ghost predicate PassedBarrier(pg: Program, r: RunRecord, id: InvocationId) {
    && id.frame in r.frames
    && id.invocation <= Commits(r.frames[id.frame])
    && AtBarrier(pg, id)
  }

  function Retries(res: map<string, TaskResolution>): nat {
    |set k | k in res && res[k].Retry?|
  }

  predicate TaskOk(id: TaskId, t: TaskRecord) {
    && t.id == id
    && (t.status == TaskStatus.Completed ==> t.result.Some?)
    && (t.policy == ManualRecovery ==>
          t.attempts == Retries(t.resolutions) + (if t.status == TaskStatus.Planned then 0 else 1))
  }

  /** What is recorded of a completed task is what it answers. */
  ghost predicate Answered(pg: Program, tasks: map<TaskId, TaskRecord>) {
    forall id | id in tasks && tasks[id].status == TaskStatus.Completed ::
      tasks[id].result.Some? && tasks[id].result == pg.answers(id)
  }

  /** A record that is what it must be, and tells what the tasks answer. */
  ghost predicate Sane(pg: Program, r: RunRecord) {
    RecordInv(pg, r) && Answered(pg, r.tasks)
  }

  /** What a leaf returns by the results recorded so far; None when one is missing, is one of another task,
      or cannot be decoded. */
  function Recall(tasks: map<TaskId, TaskRecord>, id: InvocationId, script: Script): Option<NodeResult> {
    match script
    case Return(result) => Some(result)
    case Ask(slot, version, input, policy, resume) =>
      var task := TaskId(id, slot);
      if task in tasks && SameTask(tasks[task], version, input, policy)
         && tasks[task].status == TaskStatus.Completed && tasks[task].result.Some?
         && tasks[task].result.value in resume
      then Recall(tasks, id, resume[tasks[task].result.value])
      else None
  }

  /** The call describes the task that is recorded under its identity. */
  predicate SameTask(t: TaskRecord, version: string, input: Json, policy: ReplayPolicy) {
    t.version == version && t.input == input && t.policy == policy
  }

  /** What a leaf recalls is what it means. */
  lemma {:induction false} RecallIsReplay(pg: Program, tasks: map<TaskId, TaskRecord>, id: InvocationId, script: Script)
    requires Answered(pg, tasks) && Recall(tasks, id, script).Some?
    ensures Replay(pg.answers, id, script) == Recall(tasks, id, script)
  {
    if script.Ask? {
      RecallIsReplay(pg, tasks, id, script.resume[tasks[TaskId(id, script.slot)].result.value]);
    }
  }

  ghost predicate CursorsOk(pg: Program, frames: map<Path, FrameRecord>) {
    forall p | p in frames :: FrameOk(pg, p, frames[p])
  }

  ghost predicate ParentsOk(frames: map<Path, FrameRecord>) {
    forall p | p in frames :: ParentOk(frames, p, frames[p])
  }

  ghost predicate ChildrenOk(pg: Program, frames: map<Path, FrameRecord>) {
    forall p | Due(pg, frames, p) :: p in frames
  }

  ghost predicate FramesOk(pg: Program, r: RunRecord) {
    CursorsOk(pg, r.frames) && ParentsOk(r.frames) && ChildrenOk(pg, r.frames)
  }

  ghost predicate ApprovalsOk(pg: Program, r: RunRecord) {
    && (forall id | id in r.approvals :: ApprovalOk(pg, r, id, r.approvals[id]))
    && (forall id | PassedBarrier(pg, r, id) :: id in r.approvals)
  }

  predicate TasksOk(r: RunRecord) {
    forall id | id in r.tasks :: TaskOk(id, r.tasks[id])
  }

  ghost predicate HeaderOk(pg: Program, r: RunRecord) {
    && r.formatVersion == RUN_FORMAT_VERSION
    && r.runId == pg.runId && r.version == pg.version && r.maxSteps == pg.maxSteps
    && Root in r.frames
    && r.stepsUsed == SumSteps(r.frames) <= r.maxSteps
    && (r.status == RunStatus.Completed ==> r.frames[Root].nextNode.None?)
  }

  ghost predicate RecordInv(pg: Program, r: RunRecord) {
    HeaderOk(pg, r) && FramesOk(pg, r) && ApprovalsOk(pg, r) && TasksOk(r)
  }

  /** The invariant implies the check every load makes. */
  lemma InvValidates(pg: Program, r: RunRecord)
    requires ProgramOk(pg) && RecordInv(pg, r)
    ensures Readable(r) && Validate(r) == Ok(())
  {
  }

  /** Every graph a path denotes is well formed. */
  lemma {:induction false} OriginWellFormed(pg: Program, p: Path)
    requires WellFormed(pg.graph) && OriginOf(pg, p).Some?
    ensures WellFormed(OriginOf(pg, p).value.graph)
  {
    if p.Child? {
      OriginWellFormed(pg, p.parent);
    }
  }

  // ------------------------------------------------------- edits keep the invariant

  /** The first record. */
  lemma RootRecordInv(pg: Program)
    requires ProgramOk(pg)
    ensures RecordInv(pg, E.RootRecord(pg.runId, pg.version, pg.graph, pg.input, pg.maxSteps))
  {
  }

  /** r' knows every frame of r, none has committed more, and new frames have committed nothing. */
  ghost predicate SameCommits(r: RunRecord, r': RunRecord) {
    && (forall p | p in r.frames :: p in r'.frames
          && Commits(r'.frames[p]) == Commits(r.frames[p]) && r'.frames[p].stepsUsed >= r.frames[p].stepsUsed)
    && (forall p | p in r'.frames && p !in r.frames :: Commits(r'.frames[p]) == 0)
  }

  lemma ApprovalsKept(pg: Program, r: RunRecord, r': RunRecord)
    requires ApprovalsOk(pg, r) && SameCommits(r, r')
    requires r'.approvals == r.approvals && r'.revision >= r.revision
    ensures ApprovalsOk(pg, r')
  {
  }

  /** Edits that leave frames, approvals and tasks alone. */
  lemma StatusInv(pg: Program, r: RunRecord, r': RunRecord)
    requires RecordInv(pg, r)
    requires r' == r.(status := r'.status, revision := r'.revision) && r'.revision >= r.revision
    requires r'.status == RunStatus.Completed ==> r.frames[Root].nextNode.None?
    ensures RecordInv(pg, r')
  {
    ApprovalsKept(pg, r, r');
  }

  lemma RecordedFrame(pg: Program, r: RunRecord, p: Path)
    requires RecordInv(pg, r) && p in r.frames
    ensures FrameOk(pg, p, r.frames[p])
  {
  }

  lemma RootRecorded(pg: Program, r: RunRecord)
    requires RecordInv(pg, r)
    ensures Root in r.frames
  {
  }

  /** The revision is free to grow. */
  lemma BumpInv(pg: Program, r: RunRecord)
    requires RecordInv(pg, r) && E.Bumped(r).Ok?
    ensures RecordInv(pg, E.Bumped(r).value)
  {
    StatusInv(pg, r, E.Bumped(r).value);
  }

  lemma NewFrameOk(pg: Program, p: Path, o: Origin)
    requires OriginOf(pg, p) == Some(o)
    ensures FrameOk(pg, p, E.NewFrame(o.graph, o.input, o.maxSteps))
  {
  }

  lemma NoZeroth(pg: Program, q: Path)
    requires q.Child? && OriginOf(pg, q).Some?
    ensures q.invocation >= 1
  {
  }

  /** Recording a new nested frame of the active invocation of its parent. */
  lemma OpenFrameInv(pg: Program, r: RunRecord, p: Path)
    requires RecordInv(pg, r)
    requires p.Child? && p !in r.frames && OriginOf(pg, p).Some?
    requires p.parent in r.frames && r.frames[p.parent].active && r.frames[p.parent].stepsUsed == p.invocation
    ensures var o := OriginOf(pg, p).value;
            RecordInv(pg, E.OpenFrame(r, p, E.NewFrame(o.graph, o.input, o.maxSteps)))
  {
    hide EvalNode, Traj, OriginOf, CursorAt, FrameOk, ParentsOk, ChildrenOk, ApprovalsOk, CursorsOk, TaskOk;
    var o := OriginOf(pg, p).value;
    var f := E.NewFrame(o.graph, o.input, o.maxSteps);
    var r' := E.OpenFrame(r, p, f);
    SumStepsUpdate(r.frames, p, f);
    assert HeaderOk(pg, r');
    NewFrameOk(pg, p, o);
    NoZeroth(pg, p);
    CursorsUpdate(pg, r.frames, p, f);
    OpenedParents(r.frames, p, f);
    OpenedChildren(pg, r.frames, p, f);
    ApprovalsKept(pg, r, r');
  }

  lemma OpenedParents(frames: map<Path, FrameRecord>, p: Path, f: FrameRecord)
    requires ParentsOk(frames) && p.Child? && p !in frames && p.parent in frames
    requires frames[p.parent].active && frames[p.parent].stepsUsed == p.invocation && p.invocation >= 1
    ensures ParentsOk(frames[p := f])
  {
  }

  lemma OpenedChildren(pg: Program, frames: map<Path, FrameRecord>, p: Path, f: FrameRecord)
    requires ChildrenOk(pg, frames) && p !in frames && Commits(f) == 0
    ensures ChildrenOk(pg, frames[p := f])
  {
  }

  lemma CursorsUpdate(pg: Program, frames: map<Path, FrameRecord>, p: Path, f: FrameRecord)
    requires CursorsOk(pg, frames) && FrameOk(pg, p, f)
    ensures CursorsOk(pg, frames[p := f])
  {
  }

  /** Beginning, or re-entering, an invocation. */
  lemma BeginInv(pg: Program, r: RunRecord, p: Path, node: string)
    requires RecordInv(pg, r) && E.Begin(r, p, node).Ok?
    ensures RecordInv(pg, E.Begin(r, p, node).value.0)
  {
    hide RecordInv;
    if !r.frames[p].active {
      BeginFresh(pg, r, p, r.frames[p].(stepsUsed := r.frames[p].stepsUsed + 1, active := true));
    }
  }

  lemma BeginFresh(pg: Program, r: RunRecord, p: Path, f: FrameRecord)
    requires RecordInv(pg, r) && p in r.frames
    requires !r.frames[p].active && r.frames[p].nextNode.Some? && r.frames[p].stepsUsed < r.frames[p].maxSteps
    requires f == r.frames[p].(stepsUsed := r.frames[p].stepsUsed + 1, active := true)
    requires r.stepsUsed < r.maxSteps
    ensures RecordInv(pg, r.(frames := r.frames[p := f], stepsUsed := r.stepsUsed + 1))
  {
    hide EvalNode, Traj, OriginOf, CursorAt, FrameOk;
    var r' := r.(frames := r.frames[p := f], stepsUsed := r.stepsUsed + 1);
    SumStepsUpdate(r.frames, p, f);
    assert HeaderOk(pg, r');
    assert FramesOk(pg, r') by {
      BeginCursor(pg, p, r.frames[p], f);
      CursorsUpdate(pg, r.frames, p, f);
      SameCommitsFrames(pg, r.frames, p, f);
    }
    assert ApprovalsOk(pg, r') by {
      ApprovalsKept(pg, r, r');
    }
  }

  lemma BeginCursor(pg: Program, p: Path, f: FrameRecord, f': FrameRecord)
    requires FrameOk(pg, p, f) && !f.active && f.nextNode.Some? && f.stepsUsed < f.maxSteps
    requires f' == f.(stepsUsed := f.stepsUsed + 1, active := true)
    ensures FrameOk(pg, p, f') && Commits(f') == Commits(f)
  {
  }

  /** Replacing a frame by one with as many commits keeps the relations between frames. */
  lemma SameCommitsFrames(pg: Program, frames: map<Path, FrameRecord>, p: Path, f: FrameRecord)
    requires ParentsOk(frames) && ChildrenOk(pg, frames) && p in frames
    requires Commits(f) == Commits(frames[p]) && f.stepsUsed >= frames[p].stepsUsed && f.nextNode == frames[p].nextNode
    ensures ParentsOk(frames[p := f]) && ChildrenOk(pg, frames[p := f])
  {
  }

  // ------------------------------------------------------------------- commit

  /** What a commit of the active invocation of `p` must have seen: the node's meaning on the
      persisted state, the approval of a barrier, and the ends of all nested runs. */
  ghost predicate CommitReady(pg: Program, r: RunRecord, p: Path, state: Json, next: Option<string>) {
    && p in r.frames && r.frames[p].active && r.frames[p].nextNode.Some?
    && OriginOf(pg, p).Some?
    && var f := r.frames[p];
       var g := OriginOf(pg, p).value.graph;
       var node := f.nextNode.value;
       && EvalNode(pg.answers, InvocationId(p, node, f.stepsUsed), g, f.state) == Some(Cursor(next, state))
       && ClosedOk(pg, r, p)
       && (forall q: Path | q.Child? && q.parent == p && q.invocation == f.stepsUsed && OriginOf(pg, q).Some? ::
             q in r.frames && r.frames[q].nextNode.None?)
  }

  function Advanced(f: FrameRecord, state: Json, next: Option<string>): FrameRecord {
    f.(state := state, nextNode := next, active := false)
  }

  /** A frame that commits what its node means stands where its graph's meaning is. */
  lemma AdvancedOk(pg: Program, p: Path, f: FrameRecord, state: Json, next: Option<string>)
    requires FrameOk(pg, p, f) && f.active && f.nextNode.Some?
    requires EvalNode(pg.answers, InvocationId(p, f.nextNode.value, f.stepsUsed), OriginOf(pg, p).value.graph, f.state)
          == Some(Cursor(next, state))
    ensures FrameOk(pg, p, Advanced(f, state, next))
  {
  }

  lemma CommitFrames(pg: Program, r: RunRecord, p: Path, state: Json, next: Option<string>)
    requires FramesOk(pg, r) && CommitReady(pg, r, p, state, next)
    ensures var frames' := r.frames[p := Advanced(r.frames[p], state, next)];
            CursorsOk(pg, frames') && ParentsOk(frames') && ChildrenOk(pg, frames')
  {
    hide EvalNode, Traj, OriginOf, CursorAt;
    var f := r.frames[p];
    var frames' := r.frames[p := Advanced(f, state, next)];
    AdvancedOk(pg, p, f, state, next);
    CursorsUpdate(pg, r.frames, p, Advanced(f, state, next));
    forall q | q in frames' ensures ParentOk(frames', q, frames'[q]) {
      assert ParentOk(r.frames, q, r.frames[q]);
      assert FrameOk(pg, q, r.frames[q]);
    }
    forall q | Due(pg, frames', q) ensures q in frames' {
      if q.parent != p || q.invocation < f.stepsUsed {
        assert Due(pg, r.frames, q);
      }
    }
  }

  /** The active invocation of a frame is the only barrier invocation of that number. */
  lemma ActiveBarrier(pg: Program, f: FrameRecord, id: InvocationId)
    requires FrameOk(pg, id.frame, f) && f.active && AtBarrier(pg, id) && id.invocation == f.stepsUsed
    ensures Some(id.node) == f.nextNode && StateAt(pg, id) == f.state
    ensures IsBarrier(OriginOf(pg, id.frame).value.graph, id.node)
  {
  }

  lemma ClosedApproval(pg: Program, r: RunRecord, r': RunRecord, id: InvocationId, a: ApprovalRequest)
    requires ApprovalOk(pg, r, id, a) && Approved(a) && r'.revision == r.revision
    requires id.frame in r'.frames && r'.frames[id.frame].stepsUsed == r.frames[id.frame].stepsUsed
    ensures ApprovalOk(pg, r', id, a.(applied := true))
  {
  }

  lemma OtherApproval(pg: Program, r: RunRecord, r': RunRecord, id: InvocationId, a: ApprovalRequest)
    requires ApprovalOk(pg, r, id, a) && r'.revision >= r.revision
    requires id.frame in r'.frames && r'.frames[id.frame].stepsUsed >= r.frames[id.frame].stepsUsed
    requires id.invocation <= Commits(r'.frames[id.frame]) ==> id.invocation <= Commits(r.frames[id.frame])
    ensures ApprovalOk(pg, r', id, a)
  {
  }

  /** What a commit of `p` needs to know about approvals. */
  ghost predicate ClosedOk(pg: Program, r: RunRecord, p: Path) {
    && p in r.frames && r.frames[p].active && r.frames[p].nextNode.Some?
    && OriginOf(pg, p).Some?
    && (IsBarrier(OriginOf(pg, p).value.graph, r.frames[p].nextNode.value) ==>
          && Closed(r, p) in r.approvals
          && Approved(r.approvals[Closed(r, p)]))
  }

  /** The invocation a commit of `p` closes. */
  function Closed(r: RunRecord, p: Path): InvocationId
    requires p in r.frames && r.frames[p].nextNode.Some?
  {
    InvocationId(p, r.frames[p].nextNode.value, r.frames[p].stepsUsed)
  }

  lemma ClosedIsBarrier(pg: Program, r: RunRecord, p: Path, id: InvocationId)
    requires CursorsOk(pg, r.frames) && p in r.frames && r.frames[p].active
    requires id.frame == p && id.invocation == r.frames[p].stepsUsed && AtBarrier(pg, id)
    ensures r.frames[p].nextNode.Some? && id == Closed(r, p)
    ensures IsBarrier(OriginOf(pg, p).value.graph, r.frames[p].nextNode.value)
  {
    assert FrameOk(pg, p, r.frames[p]);
    ActiveBarrier(pg, r.frames[p], id);
  }

  /** The approvals a commit leaves are in order: the one it closes carries an Approve receipt. */
  lemma CommitApprovals(pg: Program, r: RunRecord, p: Path, state: Json, next: Option<string>)
    requires CursorsOk(pg, r.frames) && ApprovalsOk(pg, r) && ClosedOk(pg, r, p)
    ensures ApprovalsOk(pg, E.Commit(r, p, state, next).value)
  {
    hide ApprovalOk, PassedBarrier, CursorsOk, OriginOf;
    var r' := E.Commit(r, p, state, next).value;
    forall id | id in r'.approvals ensures ApprovalOk(pg, r', id, r'.approvals[id]) {
      CommitApproval(pg, r, p, state, next, id);
    }
    forall id | PassedBarrier(pg, r', id) ensures id in r'.approvals {
      CommitPasses(pg, r, p, state, next, id);
    }
  }

  lemma CommitApproval(pg: Program, r: RunRecord, p: Path, state: Json, next: Option<string>, id: InvocationId)
    requires CursorsOk(pg, r.frames) && ClosedOk(pg, r, p)
    requires id in r.approvals && ApprovalOk(pg, r, id, r.approvals[id])
    ensures var r' := E.Commit(r, p, state, next).value;
            id in r'.approvals && ApprovalOk(pg, r', id, r'.approvals[id])
  {
    hide EvalNode, Traj, OriginOf, CursorAt, AtBarrier, CursorsOk;
    var r' := E.Commit(r, p, state, next).value;
    if id.frame == p && id.invocation == r.frames[p].stepsUsed {
      ClosedIsBarrier(pg, r, p, id);
      ClosedApproval(pg, r, r', id, r.approvals[id]);
    } else {
      OtherApproval(pg, r, r', id, r.approvals[id]);
    }
  }

  lemma CommitPasses(pg: Program, r: RunRecord, p: Path, state: Json, next: Option<string>, id: InvocationId)
    requires CursorsOk(pg, r.frames) && ClosedOk(pg, r, p)
    requires PassedBarrier(pg, r, id) ==> id in r.approvals
    requires PassedBarrier(pg, E.Commit(r, p, state, next).value, id)
    ensures id in r.approvals
  {
    hide EvalNode, Traj, OriginOf, CursorAt, AtBarrier, CursorsOk;
    if id.frame == p && id.invocation == r.frames[p].stepsUsed {
      ClosedIsBarrier(pg, r, p, id);
    }
  }

  /** Committing an invocation. */
  lemma CommitInv(pg: Program, r: RunRecord, p: Path, state: Json, next: Option<string>)
    requires RecordInv(pg, r) && CommitReady(pg, r, p, state, next)
    ensures E.Commit(r, p, state, next).Ok?
    ensures RecordInv(pg, E.Commit(r, p, state, next).value)
  {
    hide EvalNode, Traj, OriginOf, CursorAt, HeaderOk, CursorsOk, ParentsOk, ChildrenOk, ApprovalsOk, TaskOk, ClosedOk;
    CommitHeader(pg, r, p, state, next);
    CommitFrames(pg, r, p, state, next);
    CommitApprovals(pg, r, p, state, next);
  }

  lemma CommitHeader(pg: Program, r: RunRecord, p: Path, state: Json, next: Option<string>)
    requires HeaderOk(pg, r) && p in r.frames && r.frames[p].nextNode.Some?
    ensures E.Commit(r, p, state, next).Ok?
    ensures HeaderOk(pg, E.Commit(r, p, state, next).value)
  {
    SumStepsUpdate(r.frames, p, Advanced(r.frames[p], state, next));
  }

  // ---------------------------------------------------------------- approvals

  lemma FramesUntouched(pg: Program, r: RunRecord, r': RunRecord)
    requires RecordInv(pg, r) && ApprovalsOk(pg, r') && TasksOk(r')
    requires r' == r.(status := r'.status, revision := r'.revision, approvals := r'.approvals, tasks := r'.tasks)
    requires r'.status == RunStatus.Completed ==> r.frames[Root].nextNode.None?
    ensures RecordInv(pg, r')
  {
  }

  /** The active invocation of a barrier node is a barrier invocation. */
  lemma GateReached(pg: Program, f: FrameRecord, id: InvocationId)
    requires FrameOk(pg, id.frame, f) && f.active && f.nextNode == Some(id.node) && f.stepsUsed == id.invocation
    requires IsBarrier(OriginOf(pg, id.frame).value.graph, id.node)
    ensures AtBarrier(pg, id) && StateAt(pg, id) == f.state
  {
  }

  /** Asking for approval of the active barrier invocation. */
  lemma RequestInv(pg: Program, r: RunRecord, id: InvocationId, token: string, deadline: Option<nat>)
    requires RecordInv(pg, r) && id !in r.approvals
    requires id.frame in r.frames && r.frames[id.frame].active
    requires r.frames[id.frame].nextNode == Some(id.node) && r.frames[id.frame].stepsUsed == id.invocation
    requires OriginOf(pg, id.frame).Some? && IsBarrier(OriginOf(pg, id.frame).value.graph, id.node)
    ensures RecordInv(pg, E.RequestApproval(r, id, token, deadline))
  {
    hide EvalNode, Traj, OriginOf, CursorAt, AtBarrier;
    var r' := E.RequestApproval(r, id, token, deadline);
    GateReached(pg, r.frames[id.frame], id);
    assert ApprovalOk(pg, r', id, r'.approvals[id]);
    forall j | j in r'.approvals ensures ApprovalOk(pg, r', j, r'.approvals[j]) {
      if j != id {
        OtherApproval(pg, r, r', j, r.approvals[j]);
      }
    }
    forall j | PassedBarrier(pg, r', j) ensures j in r'.approvals {
      assert PassedBarrier(pg, r, j);
    }
    FramesUntouched(pg, r, r');
  }

  /** Changing the receipt or the applied mark of one request that is not committed past. */
  lemma ReviseApproval(pg: Program, r: RunRecord, r': RunRecord, id: InvocationId, a: ApprovalRequest)
    requires RecordInv(pg, r) && id in r.approvals
    requires r' == r.(approvals := r.approvals[id := a], status := r'.status, revision := r'.revision)
    requires r'.revision >= r.revision && r'.status != RunStatus.Completed
    requires ApprovalOk(pg, r', id, a)
    ensures RecordInv(pg, r')
  {
    forall j | j in r'.approvals ensures ApprovalOk(pg, r', j, r'.approvals[j]) {
      if j != id {
        assert ApprovalOk(pg, r, j, r.approvals[j]);
      }
    }
    forall j | PassedBarrier(pg, r', j) ensures j in r'.approvals {
      assert PassedBarrier(pg, r, j);
    }
    FramesUntouched(pg, r, r');
  }

  /** Applying a rejection. */
  lemma RefusedInv(pg: Program, r: RunRecord, id: InvocationId)
    requires RecordInv(pg, r) && id in r.approvals
    requires r.approvals[id].receipt.Some? && r.approvals[id].receipt.value.decision.Reject?
    ensures RecordInv(pg, E.RejectApproval(r, id))
  {
    hide OriginOf, EvalNode, CursorAt, AtBarrier;
    assert ApprovalOk(pg, r, id, r.approvals[id]);
    ReviseApproval(pg, r, E.RejectApproval(r, id), id, r.approvals[id].(applied := true));
  }

  // -------------------------------------------------------------------- tasks

  lemma TaskInv(pg: Program, r: RunRecord, r': RunRecord, id: TaskId)
    requires RecordInv(pg, r) && id in r'.tasks && TaskOk(id, r'.tasks[id])
    requires r' == r.(tasks := r.tasks[id := r'.tasks[id]], status := r'.status)
    requires r'.status == RunStatus.Completed ==> r.status == RunStatus.Completed
    ensures RecordInv(pg, r')
  {
    assert ApprovalsOk(pg, r') by {
      ApprovalsKept(pg, r, r');
    }
    FramesUntouched(pg, r, r');
  }

  /** Recording one more resolution under a fresh request id. */
  lemma RetriesGrow(res: map<string, TaskResolution>, request: string, resolution: TaskResolution)
    requires request !in res
    ensures Retries(res[request := resolution]) == Retries(res) + (if resolution.Retry? then 1 else 0)
  {
    var before := set k | k in res && res[k].Retry?;
    var res' := res[request := resolution];
    var after := set k | k in res' && res'[k].Retry?;
    assert after == if resolution.Retry? then before + {request} else before;
  }

  lemma {:induction false} SubsetSize<T>(a: set<T>, b: set<T>)
    requires a <= b
    ensures |a| <= |b|
  {
    if a != {} {
      var x :| x in a;
      SubsetSize(a - {x}, b - {x});
    }
  }

  lemma RetriesBound(res: map<string, TaskResolution>)
    ensures Retries(res) <= |res|
  {
    var retried := set k | k in res && res[k].Retry?;
    SubsetSize(retried, res.Keys);
  }

  // ------------------------------------------------------------- nested runs

  /** The frame is in the middle of this invocation. */
  predicate MidInvocation(frames: map<Path, FrameRecord>, id: InvocationId, state: Json) {
    && id.frame in frames && frames[id.frame].active
    && frames[id.frame].nextNode == Some(id.node) && frames[id.frame].stepsUsed == id.invocation
    && frames[id.frame].state == state
  }

  lemma RunningCursor(pg: Program, r: RunRecord, id: InvocationId, state: Json, o: Origin)
    requires RecordInv(pg, r) && MidInvocation(r.frames, id, state) && OriginOf(pg, id.frame) == Some(o)
    ensures id.invocation >= 1
    ensures Traj(pg.answers, id.frame, o.graph, o.input, id.invocation - 1) == Some(Cursor(Some(id.node), state))
    ensures CursorAt(pg, id.frame, id.invocation - 1) == Some(Cursor(Some(id.node), state))
  {
    hide EvalNode, OriginOf, Traj, RecordInv;
    RecordedFrame(pg, r, id.frame);
  }

  lemma NestedOrigin(pg: Program, r: RunRecord, id: InvocationId, state: Json, i: nat)
    requires ProgramOk(pg) && RecordInv(pg, r) && MidInvocation(r.frames, id, state) && OriginOf(pg, id.frame).Some?
    requires var g := OriginOf(pg, id.frame).value.graph; IsNested(g, id.node) && i < |g.nodes[id.node].calls|
    ensures var call := OriginOf(pg, id.frame).value.graph.nodes[id.node].calls[i];
            OriginOf(pg, NestedPath(id, call.name)) == Some(Origin(call.graph, call.project(state), call.maxSteps))
  {
    hide EvalNode, OriginOf, Traj, CursorAt, RecordInv;
    var o := OriginOf(pg, id.frame).value;
    var calls := o.graph.nodes[id.node].calls;
    RunningCursor(pg, r, id, state, o);
    ChildOrigin(pg, NestedPath(id, calls[i].name), state);
    OriginWellFormed(pg, id.frame);
    DistinctIndex(calls, i);
  }
}
