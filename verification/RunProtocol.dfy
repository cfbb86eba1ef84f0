/** The durable run protocol as a transition system: one store, at most one lease, the frames of an
    execution interleaved at every save, crashes between any two saves, and outside callers.
    A step that saves may succeed, fail, or fail after the record became visible; after a failure
    the session is poisoned. */
module RunProtocol {
  import opened Wrappers
  import opened GraphCore
  import opened RunModel
  import opened RunInvariant
  import E = ScopeEdits
  import C = RunCalls

  /** Where the loop of one frame stands in memory. */
  datatype Thread =
    | Head(current: string, state: Json)
    | InNode(current: string, invocation: nat, state: Json, cleared: bool)
    | Returned(state: Json)
    | Halted(error: DurableError)

  datatype Phase = Loaded | Driving | Finished

  /** Everything a lease holder keeps in memory and loses in a crash. `began`: some invocation was begun
      in this lease, so that tasks can have been called. */
  datatype Session = Session(
    record: RunRecord,
    poisoned: bool,
    cancelled: bool,
    phase: Phase,
    began: bool,
    threads: map<Path, Thread>,
    starting: set<TaskId>,
    acting: set<TaskId>)

  datatype CommitEvent = CommitEvent(frame: Path, node: string, state: Json, next: Option<string>)

  /** `saved` lists every record the store ever held, `commits` every commit that reached it and
      `launches` every external task action that was started. */
  datatype Machine = Machine(
    saved: seq<RunRecord>,
    session: Option<Session>,
    commits: seq<CommitEvent>,
    launches: seq<TaskId>)

  const INITIAL := Machine([], None, [], [])

  datatype Step =
    | StartRun
    | Resume
    | Release
    | CancelRoot
    | Execute(now: nat)
    | Enter(p: Path)
    | BeginNode(p: Path)
    | FinishLeaf(p: Path)
    | FinishBarrier(p: Path)
    | FinishNested(p: Path)
    | AskApproval(p: Path, token: string, deadline: Option<nat>)
    | WaitApproval(p: Path)
    | ExpireApproval(p: Path, now: nat)
    | ClearApproval(p: Path)
    | RefuseApproval(p: Path)
    | Abort(p: Path, error: DurableError)
    | StopFrame(p: Path)
    | PlanTask(id: TaskId, version: string, input: Json, policy: ReplayPolicy)
    | StartTask(id: TaskId)
    | LaunchTask(id: TaskId)
    | FinishTask(id: TaskId, result: Json)
    | ParkTask(id: TaskId)
    | DropTask(id: TaskId)
    | CancelTask
    | CompleteRun
    | CancelledRun
    | SubmitDecision(aid: InvocationId, token: string, request: string, expected: nat, decision: Decision, now: nat)
    | CancelCall(expected: nat)
    | ResolveTask(id: TaskId, request: string, expected: nat, resolution: TaskResolution)

  function Last(m: Machine): RunRecord
    requires m.saved != []
  {
    m.saved[|m.saved| - 1]
  }

  /** A save of `edited` by the session, which goes on as `s` when it succeeds. */
  ghost predicate Persist(m: Machine, edited: Result<RunRecord, DurableError>, s: Session,
                          log: seq<CommitEvent>, m': Machine)
    requires m.session.Some?
  {
    && !m.session.value.poisoned && edited.Ok? && E.Bumped(edited.value).Ok?
    && var r := E.Bumped(edited.value).value;
       var broken := Some(m.session.value.(poisoned := true));
       || m' == m.(saved := m.saved + [r], session := Some(s.(record := r)), commits := m.commits + log)
       || m' == m.(session := broken)
       || m' == m.(saved := m.saved + [r], session := broken, commits := m.commits + log)
  }

  /** A call that takes the lease, replies, and releases it. */
  ghost predicate Called<T>(m: Machine, a: C.Answer<T>, m': Machine) {
    || m' == m
    || (a.write.Some? && m' == m.(saved := m.saved + [a.write.value]))
  }

  function WithoutChildren(threads: map<Path, Thread>, p: Path): map<Path, Thread> {
    map q | q in threads && !(q.Child? && q.parent == p) :: threads[q]
  }

  predicate ChildrenDone(threads: map<Path, Thread>, p: Path) {
    forall q | q in threads && q.Child? && q.parent == p :: threads[q].Returned? || threads[q].Halted?
  }

  /** The thread after a commit. */
  function After(state: Json, next: Option<string>): Thread {
    match next case None => Returned(state) case Some(n) => Head(n, state)
  }

  /** The graph a frame runs. */
  function GraphOf(pg: Program, p: Path): Graph
    requires GraphAt(pg.graph, p).Some?
  {
    GraphAt(pg.graph, p).value
  }

  /** The session is driving the graph and the save path is open. */
  predicate Live(m: Machine) {
    m.session.Some? && !m.session.value.poisoned && m.session.value.phase == Driving
  }

  predicate InvocationOf(s: Session, p: Path) {
    p in s.threads && s.threads[p].InNode?
  }

  function Current(s: Session, p: Path): InvocationId
    requires InvocationOf(s, p)
  {
    InvocationId(p, s.threads[p].current, s.threads[p].invocation)
  }

  // ------------------------------------------------------------ lease and run

  ghost predicate StartRunStep(pg: Program, m: Machine, m': Machine) {
    && m.saved == [] && m.session.None?
    && var r := E.RootRecord(pg.runId, pg.version, pg.graph, pg.input, pg.maxSteps);
       m' == m || m' == m.(saved := [r], session := Some(Session(r, false, false, Loaded, false, map[], {}, {})))
  }

  ghost predicate ResumeStep(pg: Program, m: Machine, m': Machine) {
    && m.saved != [] && m.session.None?
    && C.ValidateRecord(pg.runId, pg.version, Last(m)).Ok?
    && Last(m).frames[Root].signature == pg.graph.signature
    && !Terminal(Last(m).status)
    && m' == m.(session := Some(Session(Last(m), false, false, Loaded, false, map[], {}, {})))
  }

  /** The lease ends: the process crashed, failed, or returned. */
  ghost predicate ReleaseStep(m: Machine, m': Machine) {
    m.session.Some? && m' == m.(session := None)
  }

  ghost predicate CancelRootStep(m: Machine, m': Machine) {
    m.session.Some? && m' == m.(session := Some(m.session.value.(cancelled := true)))
  }

  ghost predicate ExecuteStep(m: Machine, now: nat, m': Machine) {
    && m.session.Some? && m.session.value.phase == Loaded
    && var s := m.session.value;
       match C.ExecutePrelude(s.record, s.cancelled, now)
       case ExpireRun => Persist(m, Ok(E.SetStatus(s.record, RunStatus.Expired)), s.(phase := Finished), [], m')
       case StaySuspended => m' == m.(session := Some(s.(phase := Finished)))
       case Drive => Persist(m, Ok(E.SetStatus(s.record, RunStatus.Running)), s.(phase := Driving), [], m')
  }

  ghost predicate CompleteRunStep(m: Machine, m': Machine) {
    && Live(m)
    && var s := m.session.value;
       && !s.cancelled && Root in s.threads && s.threads[Root].Returned?
       && Persist(m, Ok(E.SetStatus(s.record, RunStatus.Completed)), s.(phase := Finished, threads := map[]), [], m')
  }

  /** The loop ended, or the root frame could not be entered, under a root cancellation. */
  ghost predicate CancelledRunStep(m: Machine, m': Machine) {
    && Live(m)
    && var s := m.session.value;
       && s.cancelled && (Root in s.threads ==> s.threads[Root].Returned? || s.threads[Root].Halted?)
       && Persist(m, Ok(E.SetStatus(s.record, RunStatus.Cancelled)), s.(phase := Finished, threads := map[]), [], m')
  }

  // ----------------------------------------------------------------- the loop

  /** May the frame start: the root of a driven run, or a call of a node that is being run? */
  ghost predicate Callable(pg: Program, s: Session, p: Path) {
    match p
    case Root => true
    case Child(parent, node, invocation, name) =>
      && InvocationOf(s, parent) && Current(s, parent) == InvocationId(parent, node, invocation)
      && GraphAt(pg.graph, parent).Some?
      && CallOrigin(GraphOf(pg, parent), node, s.threads[parent].state, name).Some?
  }

  /** The graph run a callable frame performs, read off the caller's memory. */
  ghost function CalledOrigin(pg: Program, s: Session, p: Path): Origin
    requires Callable(pg, s, p)
  {
    match p
    case Root => Origin(pg.graph, pg.input, pg.maxSteps)
    case Child(parent, node, _, name) =>
      CallOrigin(GraphOf(pg, parent), node, s.threads[parent].state, name).value
  }

  /** `enter`: restore a recorded frame, or record a new one. */
  ghost predicate EnterStep(pg: Program, m: Machine, p: Path, m': Machine) {
    && Live(m)
    && var s := m.session.value;
       && p !in s.threads && Callable(pg, s, p)
       && var o := CalledOrigin(pg, s, p);
          if p in s.record.frames then
            var f := s.record.frames[p];
            && f.signature == o.graph.signature && f.maxSteps == o.maxSteps
            && (f.nextNode.Some? ==> f.nextNode.value in o.graph.nodes)
            && m' == m.(session := Some(s.(threads := s.threads[p := After(f.state, f.nextNode)])))
          else
            var f := E.NewFrame(o.graph, o.input, o.maxSteps);
            Persist(m, Ok(E.OpenFrame(s.record, p, f)),
                    s.(threads := s.threads[p := Head(o.graph.start, o.input)]), [], m')
  }

  ghost predicate BeginStep(m: Machine, p: Path, m': Machine) {
    && Live(m)
    && var s := m.session.value;
       && p in s.threads && s.threads[p].Head? && !s.cancelled
       && var t := s.threads[p];
          match E.Begin(s.record, p, t.current)
          case Err(e) => m' == m.(session := Some(s.(threads := s.threads[p := Halted(e)])))
          case Ok((r, invocation)) =>
            Persist(m, Ok(r),
                    s.(began := true, threads := s.threads[p := InNode(t.current, invocation, t.state, false)]), [], m')
  }

  /** Route from a finished node and commit. */
  ghost predicate CommitStep(m: Machine, p: Path, c: Option<Cursor>, m': Machine)
    requires Live(m) && InvocationOf(m.session.value, p)
  {
    var s := m.session.value;
    match c
    case None => m' == m.(session := Some(s.(threads := WithoutChildren(s.threads, p)[p := Halted(NodeFailed)])))
    case Some(Cursor(next, state)) =>
      Persist(m, E.Commit(s.record, p, state, next),
              s.(threads := WithoutChildren(s.threads, p)[p := After(state, next)]),
              [CommitEvent(p, s.threads[p].current, state, next)], m')
  }

  ghost predicate NodeReady(pg: Program, m: Machine, p: Path) {
    && Live(m) && InvocationOf(m.session.value, p) && GraphAt(pg.graph, p).Some?
    && m.session.value.threads[p].current in GraphOf(pg, p).nodes
  }

  ghost function NodeOf(pg: Program, m: Machine, p: Path): Kind
    requires NodeReady(pg, m, p)
  {
    GraphOf(pg, p).nodes[m.session.value.threads[p].current]
  }

  /** A leaf that has come to its end by the results recorded of its tasks. */
  ghost predicate FinishLeafStep(pg: Program, m: Machine, p: Path, m': Machine) {
    && NodeReady(pg, m, p) && NodeOf(pg, m, p).Leaf?
    && var s := m.session.value;
       var t := s.threads[p];
       match Recall(s.record.tasks, Current(s, p), NodeOf(pg, m, p).run(t.state))
       case None => false
       case Some(Done(state, action)) => CommitStep(m, p, Route(GraphOf(pg, p), t.current, state, action), m')
       case Some(_) => CommitStep(m, p, None, m')
  }

  ghost predicate FinishBarrierStep(pg: Program, m: Machine, p: Path, m': Machine) {
    && NodeReady(pg, m, p) && NodeOf(pg, m, p).Barrier?
    && var t := m.session.value.threads[p];
       && t.cleared
       && CommitStep(m, p, Route(GraphOf(pg, p), t.current, t.state, Next), m')
  }

  predicate AllReturned(s: Session, p: Path, calls: seq<Call>)
    requires InvocationOf(s, p)
  {
    forall i | 0 <= i < |calls| ::
      && ChildOf(s, p, calls[i].name) in s.threads
      && s.threads[ChildOf(s, p, calls[i].name)].Returned?
  }

  function ChildOf(s: Session, p: Path, name: string): Path
    requires InvocationOf(s, p)
  {
    Child(p, s.threads[p].current, s.threads[p].invocation, name)
  }

  function ReturnedStates(s: Session, p: Path, calls: seq<Call>): seq<Json>
    requires InvocationOf(s, p) && AllReturned(s, p, calls)
  {
    seq(|calls|, i requires 0 <= i < |calls| => s.threads[ChildOf(s, p, calls[i].name)].state)
  }

  /** Combine the states of all nested runs, in declaration order. */
  ghost predicate FinishNestedStep(pg: Program, m: Machine, p: Path, m': Machine) {
    && NodeReady(pg, m, p) && NodeOf(pg, m, p).Nested?
    && var s := m.session.value;
       var k := NodeOf(pg, m, p);
       && AllReturned(s, p, k.calls) && ChildrenDone(s.threads, p)
       && match k.combine(s.threads[p].state, ReturnedStates(s, p, k.calls))
          case None => CommitStep(m, p, None, m')
          case Some(state) => CommitStep(m, p, Route(GraphOf(pg, p), s.threads[p].current, state, Next), m')
  }

  /** Any error exit of a frame: a failed node or nested run, a routing error, an exhausted budget,
      a cancelled branch. Nothing is saved. */
  ghost predicate AbortStep(m: Machine, p: Path, e: DurableError, m': Machine) {
    && Live(m)
    && var s := m.session.value;
       && p in s.threads && ChildrenDone(s.threads, p)
       && m' == m.(session := Some(s.(threads := WithoutChildren(s.threads, p)[p := Halted(e)])))
  }

  /** A frame that observes the root cancellation. */
  ghost predicate StopFrameStep(m: Machine, p: Path, m': Machine) {
    && Live(m)
    && var s := m.session.value;
       && s.cancelled && p in s.threads && ChildrenDone(s.threads, p)
       && Persist(m, Ok(E.SetStatus(s.record, RunStatus.Cancelled)),
                  s.(threads := WithoutChildren(s.threads, p)[p := Halted(Stopped)]), [], m')
  }

  // ------------------------------------------------------------------ approve

  ghost predicate AtGate(pg: Program, m: Machine, p: Path) {
    && NodeReady(pg, m, p) && NodeOf(pg, m, p).Barrier? && !m.session.value.threads[p].cleared
  }

  ghost predicate AskApprovalStep(pg: Program, m: Machine, p: Path, token: string, deadline: Option<nat>, m': Machine) {
    && AtGate(pg, m, p)
    && var s := m.session.value;
       && Current(s, p) !in s.record.approvals && p in s.record.frames
       && Persist(m, Ok(E.RequestApproval(s.record, Current(s, p), token, deadline)), s, [], m')
  }

  ghost predicate Requested(pg: Program, m: Machine, p: Path) {
    AtGate(pg, m, p) && Current(m.session.value, p) in m.session.value.record.approvals
  }

  ghost predicate WaitApprovalStep(pg: Program, m: Machine, p: Path, m': Machine) {
    && Requested(pg, m, p)
    && var s := m.session.value;
       && s.record.approvals[Current(s, p)].receipt.None?
       && Persist(m, Ok(E.SetStatus(s.record, RunStatus.Suspended)),
                  s.(threads := s.threads[p := Halted(DurableError.Suspended)]), [], m')
  }

  ghost predicate ExpireApprovalStep(pg: Program, m: Machine, p: Path, now: nat, m': Machine) {
    && Requested(pg, m, p)
    && var s := m.session.value;
       var a := s.record.approvals[Current(s, p)];
       && a.receipt.None? && E.Overdue(a, now)
       && Persist(m, Ok(E.SetStatus(s.record, RunStatus.Expired)),
                  s.(threads := s.threads[p := Halted(Stopped)]), [], m')
  }

  ghost predicate ClearApprovalStep(pg: Program, m: Machine, p: Path, m': Machine) {
    && Requested(pg, m, p)
    && var s := m.session.value;
       && Approved(s.record.approvals[Current(s, p)])
       && m' == m.(session := Some(s.(threads := s.threads[p := s.threads[p].(cleared := true)])))
  }

  ghost predicate RefuseApprovalStep(pg: Program, m: Machine, p: Path, m': Machine) {
    && Requested(pg, m, p)
    && var s := m.session.value;
       var a := s.record.approvals[Current(s, p)];
       && a.receipt.Some? && a.receipt.value.decision.Reject?
       && Persist(m, Ok(E.RejectApproval(s.record, Current(s, p))),
                  s.(threads := s.threads[p := Halted(Stopped)]), [], m')
  }

  // -------------------------------------------------------------------- tasks

  /** A task runtime belongs to a begun invocation; it may be captured and used until the lease ends. */
  predicate TaskOpen(m: Machine) {
    m.session.Some? && m.session.value.began
  }

  predicate TaskLive(m: Machine) {
    TaskOpen(m) && !m.session.value.poisoned
  }

  predicate InFlight(s: Session, id: TaskId) {
    id in s.starting || id in s.acting
  }

  /** A call looks at the status before it plans or starts; another thread may have ended the run since. */
  ghost predicate PlanTaskStep(m: Machine, id: TaskId, version: string, input: Json, policy: ReplayPolicy,
                               m': Machine) {
    && TaskLive(m)
    && var s := m.session.value;
       && id !in s.record.tasks
       && Persist(m, Ok(E.PlanTask(s.record, id, version, input, policy)), s, [], m')
  }

  /** A started or unknown task is started again only under a policy that allows replay. */
  predicate MayStart(t: TaskRecord) {
    || t.status == TaskStatus.Planned
    || (t.status != TaskStatus.Completed && t.policy != ManualRecovery)
  }

  ghost predicate StartTaskStep(m: Machine, id: TaskId, m': Machine) {
    && TaskLive(m)
    && var s := m.session.value;
       && id in s.record.tasks && !InFlight(s, id) && MayStart(s.record.tasks[id])
       && E.StartTask(s.record, id).Ok?
       && Persist(m, Ok(E.StartTask(s.record, id).value.0), s.(starting := s.starting + {id}), [], m')
  }

  /** Once its own start is saved the action runs, even if another thread's save has failed meanwhile. */
  ghost predicate LaunchTaskStep(m: Machine, id: TaskId, m': Machine) {
    && TaskOpen(m)
    && var s := m.session.value;
       && id in s.starting
       && m' == m.(session := Some(s.(starting := s.starting - {id}, acting := s.acting + {id})),
                   launches := m.launches + [id])
  }

  ghost predicate FinishTaskStep(m: Machine, id: TaskId, result: Json, m': Machine) {
    && TaskLive(m)
    && var s := m.session.value;
       && id in s.acting && id in s.record.tasks
       && Persist(m, Ok(E.CompleteTask(s.record, id, result)), s.(acting := s.acting - {id}), [], m')
  }

  /** A manual task whose action failed, or that is found started or unknown again. */
  ghost predicate ParkTaskStep(m: Machine, id: TaskId, m': Machine) {
    && TaskLive(m)
    && var s := m.session.value;
       && id in s.record.tasks && s.record.tasks[id].policy == ManualRecovery
       && (id in s.acting || (!InFlight(s, id)
             && (s.record.tasks[id].status == TaskStatus.Started || s.record.tasks[id].status == TaskStatus.Unknown)))
       && Persist(m, E.ParkTask(s.record, id), s.(acting := s.acting - {id}), [], m')
  }

  /** A task call that observes the root cancellation. Its node may go on regardless. */
  ghost predicate CancelTaskStep(m: Machine, m': Machine) {
    && TaskLive(m) && m.session.value.cancelled
    && Persist(m, Ok(E.SetStatus(m.session.value.record, RunStatus.Cancelled)), m.session.value, [], m')
  }

  /** A task call that ends without a save. */
  ghost predicate DropTaskStep(m: Machine, id: TaskId, m': Machine) {
    && m.session.Some?
    && m' == m.(session := Some(m.session.value.(starting := m.session.value.starting - {id},
                                                 acting := m.session.value.acting - {id})))
  }

  // ----------------------------------------------------------- external calls

  ghost predicate Callers(pg: Program, m: Machine) {
    m.session.None? && m.saved != [] && C.ValidateRecord(pg.runId, pg.version, Last(m)).Ok?
  }

  ghost predicate StepOf(pg: Program, m: Machine, step: Step, m': Machine) {
    match step
    case StartRun => StartRunStep(pg, m, m')
    case Resume => ResumeStep(pg, m, m')
    case Release => ReleaseStep(m, m')
    case CancelRoot => CancelRootStep(m, m')
    case Execute(now) => ExecuteStep(m, now, m')
    case Enter(p) => EnterStep(pg, m, p, m')
    case BeginNode(p) => BeginStep(m, p, m')
    case FinishLeaf(p) => FinishLeafStep(pg, m, p, m')
    case FinishBarrier(p) => FinishBarrierStep(pg, m, p, m')
    case FinishNested(p) => FinishNestedStep(pg, m, p, m')
    case AskApproval(p, token, deadline) => AskApprovalStep(pg, m, p, token, deadline, m')
    case WaitApproval(p) => WaitApprovalStep(pg, m, p, m')
    case ExpireApproval(p, now) => ExpireApprovalStep(pg, m, p, now, m')
    case ClearApproval(p) => ClearApprovalStep(pg, m, p, m')
    case RefuseApproval(p) => RefuseApprovalStep(pg, m, p, m')
    case Abort(p, e) => AbortStep(m, p, e, m')
    case StopFrame(p) => StopFrameStep(m, p, m')
    case PlanTask(id, version, input, policy) => PlanTaskStep(m, id, version, input, policy, m')
    case StartTask(id) => StartTaskStep(m, id, m')
    case LaunchTask(id) => LaunchTaskStep(m, id, m')
    case FinishTask(id, result) => FinishTaskStep(m, id, result, m')
    case ParkTask(id) => ParkTaskStep(m, id, m')
    case DropTask(id) => DropTaskStep(m, id, m')
    case CancelTask => CancelTaskStep(m, m')
    case CompleteRun => CompleteRunStep(m, m')
    case CancelledRun => CancelledRunStep(m, m')
    case SubmitDecision(id, token, request, expected, decision, now) =>
      Callers(pg, m) && Called(m, C.SubmitDecision(Last(m), id, token, request, expected, decision, now), m')
    case CancelCall(expected) => Callers(pg, m) && Called(m, C.CancelRun(Last(m), expected), m')
    case ResolveTask(id, request, expected, resolution) =>
      Callers(pg, m) && Called(m, C.ResolveTask(Last(m), id, request, expected, resolution), m')
  }

  /** A course of the protocol: machine states and the steps between them. */
  ghost predicate IsCourse(pg: Program, ms: seq<Machine>, steps: seq<Step>) {
    && |ms| == |steps| + 1 && ms[0] == INITIAL
    && forall i | 0 <= i < |steps| :: StepOf(pg, ms[i], steps[i], ms[i + 1])
  }

  /** Every result recorded up to here is what the program's tasks answer. */
  ghost predicate RecordsAnswered(pg: Program, m: Machine) {
    forall i | 0 <= i < |m.saved| :: Answered(pg, m.saved[i].tasks)
  }

  /** A run of the protocol: a course whose tasks answer what the program says. */
  ghost predicate IsRun(pg: Program, ms: seq<Machine>, steps: seq<Step>) {
    IsCourse(pg, ms, steps) && forall i | 0 <= i < |ms| :: RecordsAnswered(pg, ms[i])
  }
}
