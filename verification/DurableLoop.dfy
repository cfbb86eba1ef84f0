/** The durable execution loop: one session drives a graph and, recursively, its nested graphs. */
module DurableLoop {
  import opened Wrappers
  import opened GraphCore
  import opened RunModel
  import opened RunInvariant
  import opened RunStore
  import opened FrameScope
  import T = TaskRuntime
  import E = ScopeEdits

  /** Frames not below `p` are as they were. */
  predicate Outside(p: Path, frames: map<Path, FrameRecord>, frames': map<Path, FrameRecord>) {
    forall q | q in frames && !Under(q, p) :: q in frames' && frames'[q] == frames[q]
  }

  predicate Ended(frames: map<Path, FrameRecord>, p: Path, state: Json) {
    p in frames && frames[p].nextNode.None? && frames[p].state == state
  }

  /** A frame that is finished holds the result of the run it stands for. */
  lemma EndedResult(pg: Program, r: RunRecord, p: Path, o: Origin)
    requires RecordInv(pg, r) && p in r.frames && r.frames[p].nextNode.None? && OriginOf(pg, p) == Some(o)
    ensures Meaning(pg, p) == Some(r.frames[p].state)
  {
    hide EvalNode, OriginOf, RecordInv;
    var f := r.frames[p];
    RecordedFrame(pg, r, p);
    FinalFromTraj(pg.answers, p, o.graph, o.input, 0, Commits(f), o.maxSteps);
  }

  lemma StuckInvocation(pg: Program, r: RunRecord, id: InvocationId, state: Json, o: Origin)
    requires RecordInv(pg, r) && MidInvocation(r.frames, id, state) && OriginOf(pg, id.frame) == Some(o)
    requires EvalNode(pg.answers, id, o.graph, state).None?
    ensures Meaning(pg, id.frame).None?
  {
    hide EvalNode, OriginOf, Traj, RecordInv;
    RunningCursor(pg, r, id, state, o);
    StuckRun(pg.answers, id.frame, o.graph, o.input, id.invocation - 1, o.maxSteps);
  }

  /** Which nested runs an invocation can have. */
  lemma NestedName(pg: Program, r: RunRecord, id: InvocationId, state: Json, q: Path)
    requires RecordInv(pg, r) && MidInvocation(r.frames, id, state) && OriginOf(pg, id.frame).Some?
    requires q.Child? && q.parent == id.frame && q.invocation == id.invocation && OriginOf(pg, q).Some?
    ensures var g := OriginOf(pg, id.frame).value.graph;
            IsNested(g, id.node) && HasCall(g.nodes[id.node].calls, q.name) && q == NestedPath(id, q.name)
  {
    hide EvalNode, OriginOf, Traj, CursorAt, RecordInv;
    var o := OriginOf(pg, id.frame).value;
    RunningCursor(pg, r, id, state, o);
    if q.node != id.node {
      OtherNode(pg, q);
    }
    ChildOrigin(pg, q, state);
  }

  /** What a node's execution must have established for its commit. */
  ghost predicate Executed(pg: Program, r: RunRecord, id: InvocationId) {
    && OriginOf(pg, id.frame).Some?
    && var g := OriginOf(pg, id.frame).value.graph;
       && (IsBarrier(g, id.node) ==> id in r.approvals && Approved(r.approvals[id]))
       && (IsNested(g, id.node) ==> forall i | 0 <= i < |g.nodes[id.node].calls| :: CallDone(r.frames, id, g, i))
  }

  lemma ExecutedReady(pg: Program, r: RunRecord, id: InvocationId, state: Json, c: Cursor)
    requires RecordInv(pg, r) && MidInvocation(r.frames, id, state) && Executed(pg, r, id)
    requires EvalNode(pg.answers, id, OriginOf(pg, id.frame).value.graph, state) == Some(c)
    ensures CommitReady(pg, r, id.frame, c.state, c.node)
  {
    hide EvalNode, OriginOf, Traj, CursorAt, RecordInv;
    var g := OriginOf(pg, id.frame).value.graph;
    forall q: Path | q.Child? && q.parent == id.frame && q.invocation == id.invocation && OriginOf(pg, q).Some?
      ensures q in r.frames && r.frames[q].nextNode.None?
    {
      NestedName(pg, r, id, state, q);
      var i := CallIndex(g.nodes[id.node].calls, q.name);
      assert CallDone(r.frames, id, g, i) && g.nodes[id.node].calls[i].name == q.name;
    }
  }

  lemma FrameBudget(pg: Program, r: RunRecord, p: Path, o: Origin)
    requires RecordInv(pg, r) && p in r.frames && OriginOf(pg, p) == Some(o)
    ensures Commits(r.frames[p]) <= o.maxSteps
  {
  }

  /** The script of the leaf an invocation runs. */
  ghost function ScriptOf(pg: Program, id: InvocationId): Option<Script> {
    if id.invocation == 0 || OriginOf(pg, id.frame).None? then None
    else
      var g := OriginOf(pg, id.frame).value.graph;
      match CursorAt(pg, id.frame, id.invocation - 1)
      case Some(Cursor(Some(node), state)) =>
        if node == id.node && node in g.nodes && g.nodes[node].Leaf? then Some(g.nodes[node].run(state)) else None
      case _ => None
  }

  /** By the recorded results the script comes to a task that is recorded as another one. */
  predicate Clashes(tasks: map<TaskId, TaskRecord>, id: InvocationId, script: Script) {
    match script
    case Return(_) => false
    case Ask(slot, version, input, policy, resume) =>
      var task := TaskId(id, slot);
      && task in tasks
      && (!SameTask(tasks[task], version, input, policy)
          || (tasks[task].status == TaskStatus.Completed && tasks[task].result.Some?
              && tasks[task].result.value in resume
              && Clashes(tasks, id, resume[tasks[task].result.value])))
  }

  ghost predicate SomeClash(pg: Program, tasks: map<TaskId, TaskRecord>) {
    exists id :: ScriptOf(pg, id).Some? && Clashes(tasks, id, ScriptOf(pg, id).value)
  }

  predicate SomeSpent(tasks: map<TaskId, TaskRecord>) {
    exists id | id in tasks :: tasks[id].attempts >= U32_MAX
  }

  /** Why a loop may end with an error although nobody interferes with its nodes: nothing can be saved any
      more, the run's budget or a task's attempts are spent, the run was stopped or suspended, its branch
      group was cancelled at some moment since it was called, a task failed that it launched, a script asks
      for another task than the recorded one, or the crash-free run has no result either. */
  ghost predicate Excused(pg: Program, s: Session, was: View, e: DurableError, hasResult: bool)
    reads s, s.store.world
  {
    ExcusedBy(pg, s.store.world.at, was, s.Here(), e, hasResult)
  }

  ghost predicate ExcusedBy(pg: Program, at: nat -> Moment, was: View, now: View, e: DurableError, hasResult: bool) {
    if e == NodeFailed then !hasResult || T.Fruitless(at, was, now)
    else
      || now.poisoned || now.record.revision >= U64_MAX
      || match e
         case Incompatible => !hasResult || SomeClash(pg, now.record.tasks)
         case Conflict => !hasResult || now.record.stepsUsed >= now.record.maxSteps || SomeSpent(now.record.tasks)
         case Stopped => Halting(now.record.status)
         case Suspended => now.record.status == RunStatus.Suspended
         case BranchCancelled => GroupCancelled(at, was.time, now.time)
         case _ => false
  }

  /** An excuse of a part is one of the whole. */
  lemma ExcusedSince(pg: Program, at: nat -> Moment, was: View, later: View, now: View, e: DurableError,
                     hasResult: bool)
    requires ExcusedBy(pg, at, later, now, e, hasResult) && WentOn(at, was, later) && WentOn(at, later, now)
    ensures ExcusedBy(pg, at, was, now, e, hasResult)
  {
    hide RequestsKept, TasksKept, SomeClash, SomeSpent, Caused;
    if e == NodeFailed && T.Fruitless(at, later, now) {
      FruitlessSince(at, was, later, now, now);
    }
  }

  lemma FruitlessSince(at: nat -> Moment, was: View, later: View, now: View, end: View)
    requires T.Fruitless(at, later, now)
    requires was.launches <= later.launches <= now.launches <= end.launches
    requires was.time <= later.time <= now.time <= end.time
    ensures T.Fruitless(at, was, end)
  {
    var id, k :| id in now.launches[|later.launches|..] && later.time <= k < now.time && at(k).outcome(id).None?;
    var n :| 0 <= n < |now.launches[|later.launches|..]| && now.launches[|later.launches|..][n] == id;
    assert end.launches[|was.launches|..][|later.launches| - |was.launches| + n] == id;
  }

  /** What is excused although there is a result is excused anyway. */
  lemma ExcusedMore(pg: Program, at: nat -> Moment, was: View, now: View, e: DurableError, hasResult: bool,
                    hasResult': bool)
    requires ExcusedBy(pg, at, was, now, e, hasResult) && (hasResult' ==> hasResult)
    ensures ExcusedBy(pg, at, was, now, e, hasResult')
  {
  }

  /** An excuse other than the status stays one. */
  lemma StillExcused(pg: Program, at: nat -> Moment, was: View, mid: View, now: View, e: DurableError,
                     hasResult: bool)
    requires ExcusedBy(pg, at, was, mid, e, hasResult) && e != Stopped && e != DurableError.Suspended
    requires WentOn(at, was, mid) && WentOn(at, mid, now)
    ensures ExcusedBy(pg, at, was, now, e, hasResult)
  {
    hide RequestsKept, Clashes, Caused;
    if e == NodeFailed && T.Fruitless(at, was, mid) {
      FruitlessSince(at, was, was, mid, now);
    }
    if e == Incompatible && SomeClash(pg, mid.record.tasks) {
      var id :| ScriptOf(pg, id).Some? && Clashes(mid.record.tasks, id, ScriptOf(pg, id).value);
      StillClashes(mid.record.tasks, now.record.tasks, id, ScriptOf(pg, id).value);
    }
  }

  lemma {:induction false} StillClashes(was: map<TaskId, TaskRecord>, now: map<TaskId, TaskRecord>,
                                        id: InvocationId, script: Script)
    requires TasksKept(was, now) && Clashes(was, id, script)
    ensures Clashes(now, id, script)
  {
    var task := TaskId(id, script.slot);
    assert TaskKept(was[task], now[task]);
    if SameTask(was[task], script.version, script.input, script.policy) {
      StillClashes(was, now, id, script.resume[was[task].result.value]);
    }
  }

  /** What a loop makes of the status: it stops or suspends the run when it says so, and only then. */
  predicate StatusKept<T>(was: RunStatus, r: Result<T, DurableError>, now: RunStatus) {
    && (r == Err(Stopped) ==> Halting(now))
    && (r == Err(DurableError.Suspended) ==> now == RunStatus.Suspended)
    && (r.Ok? ==> now == was)
    && (r.Err? && r.error != Stopped ==> now == was || now == RunStatus.Suspended)
    && (Halting(was) ==> Halting(now))
  }

  /** A frame that has spent its budget before its end has no result. */
  lemma SpentFrame(pg: Program, r: RunRecord, p: Path, o: Origin)
    requires RecordInv(pg, r) && p in r.frames && OriginOf(pg, p) == Some(o)
    requires r.frames[p].nextNode.Some? && !r.frames[p].active && r.frames[p].stepsUsed >= o.maxSteps
    ensures Meaning(pg, p).None?
  {
    hide EvalNode, OriginOf, RecordInv, Traj, Final;
    RecordedFrame(pg, r, p);
    Unfinished(pg.answers, p, o.graph, o.input, r.frames[p].stepsUsed, o.maxSteps);
  }

  /** A frame whose cursor names a node its graph does not have has no result. */
  lemma StrayFrame(pg: Program, r: RunRecord, p: Path, o: Origin)
    requires RecordInv(pg, r) && p in r.frames && OriginOf(pg, p) == Some(o)
    requires r.frames[p].nextNode.Some? && r.frames[p].nextNode.value !in o.graph.nodes
    ensures Meaning(pg, p).None?
  {
    hide OriginOf, RecordInv, Traj, Final;
    RecordedFrame(pg, r, p);
    StuckRun(pg.answers, p, o.graph, o.input, Commits(r.frames[p]), o.maxSteps);
  }

  /** A run that is not at its end after all its steps has no result. */
  lemma Unfinished(w: Answers, p: Path, g: Graph, input: Json, k: nat, maxSteps: nat)
    requires maxSteps <= k && Traj(w, p, g, input, k).Some? && Traj(w, p, g, input, k).value.node.Some?
    ensures RunResult(w, p, g, input, maxSteps).None?
  {
    hide EvalNode, Final, Traj;
    if RunResult(w, p, g, input, maxSteps).Some? {
      AtStart(w, p, g, input, maxSteps);
      var end := TrajFromFinal(w, p, g, input, 0, maxSteps);
      TrajPrefix(w, p, g, input, end, k);
    }
  }

  lemma AtStart(w: Answers, p: Path, g: Graph, input: Json, maxSteps: nat)
    ensures Traj(w, p, g, input, 0) == Some(Cursor(Some(g.start), input))
    ensures Final(w, p, g, 0, Cursor(Some(g.start), input), maxSteps) == RunResult(w, p, g, input, maxSteps)
  {
  }

  /** The loop head observes the cancellation of the run, or of its branch group. */
  method CheckCancel(ghost pg: Program, s: Session) returns (r: Result<(), DurableError>)
    requires s.Good(pg)
    modifies s`record, s`poisoned, s.store`records, s.store.world`time
    ensures s.Good(pg) && s.record.frames == old(s.record.frames) && s.record.approvals == old(s.record.approvals)
    ensures var moment := s.store.world.at(old(s.store.world.time));
      && (r.Ok? <==> !moment.runCancelled && !moment.groupCancelled)
      && (r == Err(BranchCancelled) <==> !moment.runCancelled && moment.groupCancelled)
    ensures r.Err? ==> r.error != NodeFailed
    ensures r == Err(Stopped) ==> s.record.status == RunStatus.Cancelled
    ensures r.Ok? ==> s.record == old(s.record)
    ensures s.Onward(old(s.Here())) && StatusKept(old(s.record.status), r, s.record.status)
    ensures r.Err? ==> Excused(pg, s, old(s.Here()), r.error, true)
  {
    hide RecordInv, Answered, Truthful, RequestsKept, TasksKept, Session.Valid;
    SameRequests(s.record.approvals);
    SameTasks(s.record.tasks);
    var moment := s.Look(pg);
    if moment.runCancelled {
      r := s.Halt(pg, RunStatus.Cancelled, Stopped);
    } else if moment.groupCancelled {
      r := Err(BranchCancelled);
    } else {
      r := Ok(());
    }
  }

  predicate FrameSpent(f: FrameRecord) {
    !f.active && f.stepsUsed >= f.maxSteps
  }

  lemma NotBegun(pg: Program, r: RunRecord, p: Path, o: Origin)
    requires RecordInv(pg, r) && p in r.frames && r.frames[p].nextNode.Some? && OriginOf(pg, p) == Some(o)
    ensures FrameSpent(r.frames[p]) ==> Meaning(pg, p).None?
  {
    hide EvalNode, OriginOf, RecordInv, Traj, Final, RunResult;
    if FrameSpent(r.frames[p]) {
      RecordedFrame(pg, r, p);
      SpentFrame(pg, r, p, o);
    }
  }

  method BeginNode(ghost pg: Program, s: Session, p: Path, current: string) returns (r: Result<nat, DurableError>)
    requires s.Good(pg) && p in s.record.frames && s.record.frames[p].nextNode == Some(current)
    modifies s`record, s`poisoned, s.store`records, s.store.world`time
    ensures s.Good(pg)
    ensures r.Err? ==> r.error != NodeFailed && s.record == old(s.record)
    ensures s.Onward(old(s.Here())) && StatusKept(old(s.record.status), r, s.record.status)
    ensures r.Err? ==> Excused(pg, s, old(s.Here()), r.error, !FrameSpent(s.record.frames[p]))
    ensures r.Ok? ==>
              && !Halting(s.record.status)
              && MidInvocation(s.record.frames, InvocationId(p, current, r.value), old(s.record.frames[p].state))
              && s.record.frames == old(s.record.frames)[p := s.record.frames[p]]
              && Commits(s.record.frames[p]) == old(Commits(s.record.frames[p]))
  {
    hide RecordInv, OriginOf, EvalNode, Answered, Truthful, RequestsKept, TasksKept, WentOn, Faulty;
    ghost var start, was, stored := s.Here(), s.record, s.Stored();
    r := s.Begin(p, current);
    if E.Begin(was, p, current).Ok? {
      BeginInv(pg, was, p, current);
    }
    s.SavedGood(pg, E.BeginRecord(was, p, current), was, stored, r.Ok?);
    SameRequests(was.approvals);
    FramesMoved(s.store.world.at, start, s.Here());
  }

  method CommitNode(ghost pg: Program, s: Session, p: Path, c: Cursor) returns (r: Result<(), DurableError>)
    requires s.Good(pg) && CommitReady(pg, s.record, p, c.state, c.node)
    modifies s`record, s`poisoned, s.store`records, s.store.world`time
    ensures s.Good(pg)
    ensures r.Err? ==> r.error != NodeFailed && s.record == old(s.record)
    ensures s.Onward(old(s.Here())) && s.record.status == old(s.record.status)
    ensures r.Err? ==> s.Disturbed() && r.error != Stopped && r.error != DurableError.Suspended
    ensures r.Ok? ==>
              s.record.frames == old(s.record.frames)[p := Advanced(old(s.record.frames[p]), c.state, c.node)]
  {
    hide RecordInv, OriginOf, EvalNode, Answered, Truthful, TasksKept, WentOn, Faulty;
    ghost var start, was, stored := s.Here(), s.record, s.Stored();
    CommitInv(pg, was, p, c.state, c.node);
    r := s.Commit(p, c.state, c.node);
    s.SavedGood(pg, E.Commit(was, p, c.state, c.node), was, stored, r.Ok?);
    FramesMoved(s.store.world.at, start, s.Here());
  }

  /** The status between nested runs, by what they have reported. */
  predicate StatusSoFar(was: RunStatus, stopped: bool, suspended: bool, failed: bool, now: RunStatus) {
    && (stopped ==> Halting(now))
    && (!stopped && suspended ==> now == RunStatus.Suspended)
    && (!stopped && !suspended && !failed ==> now == was)
    && (!stopped ==> now == was || now == RunStatus.Suspended)
    && (Halting(was) ==> Halting(now))
  }

  lemma StatusNext<T>(was: RunStatus, stopped: bool, suspended: bool, failed: bool, now: RunStatus,
                      r: Result<T, DurableError>, next: RunStatus)
    requires StatusSoFar(was, stopped, suspended, failed, now) && StatusKept(now, r, next)
    ensures StatusSoFar(was, stopped || r == Err(Stopped), suspended || r == Err(DurableError.Suspended),
                        failed || (r.Err? && r.error != Stopped && r.error != DurableError.Suspended), next)
  {
  }

  /** A session whose run is being driven, between the tasks of its nodes. */
  ghost predicate Ready(pg: Program, s: Session)
    reads s, s.store, s.store.world
  {
    s.Good(pg) && s.inFlight == {} && s.record.status != RunStatus.Completed
  }

  /** One nested run of an invocation. */
  method RunCall(ghost pg: Program, s: Session, id: InvocationId, g: Graph, state: Json, i: nat)
    returns (r: Result<Json, DurableError>)
    requires ProgramOk(pg) && Ready(pg, s) && MidInvocation(s.record.frames, id, state)
    requires OriginOf(pg, id.frame).Some? && OriginOf(pg, id.frame).value.graph == g
    requires IsNested(g, id.node) && i < |g.nodes[id.node].calls|
    modifies s`record, s`poisoned, s`inFlight, s`launches, s.store`records, s.store.world`time
    ensures Ready(pg, s) && Outside(id.frame, old(s.record.frames), s.record.frames)
    ensures MidInvocation(s.record.frames, id, state)
    ensures forall j | 0 <= j < i && CallDone(old(s.record.frames), id, g, j) :: CallDone(s.record.frames, id, g, j)
    ensures r.Ok? ==>
              var call := g.nodes[id.node].calls[i];
              && CallResult(pg.answers, id, call, state) == Some(r.value)
              && CallDone(s.record.frames, id, g, i)
    ensures r.Err? ==> Excused(pg, s, old(s.Here()), r.error, EvalNode(pg.answers, id, g, state).Some?)
    ensures s.Onward(old(s.Here())) && StatusKept(old(s.record.status), r, s.record.status)
    decreases g, 0, 0
  {
    hide EvalNode, OriginOf, RecordInv, Final, CallOrigin;
    var call := g.nodes[id.node].calls[i];
    NestedOrigin(pg, s.record, id, state, i);
    r := RunGraphLoop(pg, s, NestedPath(id, call.name), call.graph, call.project(state), call.maxSteps);
    OutsideParent(id, call.name, old(s.record.frames), s.record.frames);
    SiblingsKept(pg, id, g, i, old(s.record.frames), s.record.frames);
    if RunResult(pg.answers, NestedPath(id, call.name), call.graph, call.project(state), call.maxSteps).None? {
      FailedCall(pg.answers, id, g, state, i);
    }
  }

  /** The frame of the j-th nested run is finished. */
  predicate CallDone(frames: map<Path, FrameRecord>, id: InvocationId, g: Graph, j: nat)
    requires IsNested(g, id.node) && j < |g.nodes[id.node].calls|
  {
    var q := NestedPath(id, g.nodes[id.node].calls[j].name);
    q in frames && frames[q].nextNode.None?
  }

  /** What the nested runs of an invocation have reported so far. */
  ghost predicate Gathered(pg: Program, at: nat -> Moment, was: View, now: View, id: InvocationId, g: Graph,
                           state: Json, i: nat, finals: seq<Json>, error: Option<DurableError>, halted: bool)
    requires IsNested(g, id.node) && i <= |g.nodes[id.node].calls|
  {
    && (!halted && error.None? ==>
          && ChildStates(pg.answers, id, g, state, i) == Some(finals)
          && forall j | 0 <= j < i :: CallDone(now.record.frames, id, g, j))
    && (error.Some? ==>
          && error.value != Stopped && error.value != DurableError.Suspended
          && ExcusedBy(pg, at, was, now, error.value, EvalNode(pg.answers, id, g, state).Some?))
  }

  /** One more report. */
  lemma GatheredMore(pg: Program, at: nat -> Moment, start: View, was: View, now: View, id: InvocationId, g: Graph,
                     state: Json, i: nat, finals: seq<Json>, error: Option<DurableError>, halted: bool,
                     res: Result<Json, DurableError>)
    requires IsNested(g, id.node) && i < |g.nodes[id.node].calls|
    requires Gathered(pg, at, start, was, id, g, state, i, finals, error, halted)
    requires WentOn(at, start, was) && WentOn(at, was, now)
    requires forall j | 0 <= j < i && CallDone(was.record.frames, id, g, j) :: CallDone(now.record.frames, id, g, j)
    requires res.Ok? ==>
               var call := g.nodes[id.node].calls[i];
               && CallResult(pg.answers, id, call, state) == Some(res.value)
               && CallDone(now.record.frames, id, g, i)
    requires res.Err? ==> ExcusedBy(pg, at, was, now, res.error, EvalNode(pg.answers, id, g, state).Some?)
    ensures var stops := res == Err(Stopped) || res == Err(DurableError.Suspended);
      Gathered(pg, at, start, now, id, g, state, i + 1, if res.Ok? then finals + [res.value] else finals,
               if res.Err? && !stops && error.None? then Some(res.error) else error, halted || stops)
  {
    hide EvalNode, ChildStates, RunResult, CallDone, ExcusedBy, WentOn;
    if error.Some? {
      StillExcused(pg, at, start, was, now, error.value, EvalNode(pg.answers, id, g, state).Some?);
    } else if res.Err? {
      ExcusedSince(pg, at, start, was, now, res.error, EvalNode(pg.answers, id, g, state).Some?);
    }
    if res.Ok? && !halted && error.None? {
      ChildStatesStep(pg.answers, id, g, state, i, finals, res.value);
    }
  }

  /** Run every nested graph of an invocation, in declaration order. */
  method GatherCalls(ghost pg: Program, s: Session, id: InvocationId, g: Graph, state: Json)
    returns (finals: seq<Json>, error: Option<DurableError>, stopped: bool, suspended: bool)
    requires ProgramOk(pg) && Ready(pg, s) && MidInvocation(s.record.frames, id, state)
    requires OriginOf(pg, id.frame).Some? && OriginOf(pg, id.frame).value.graph == g && IsNested(g, id.node)
    modifies s`record, s`poisoned, s`inFlight, s`launches, s.store`records, s.store.world`time
    ensures Ready(pg, s) && Outside(id.frame, old(s.record.frames), s.record.frames)
    ensures MidInvocation(s.record.frames, id, state)
    ensures Gathered(pg, s.store.world.at, old(s.Here()), s.Here(), id, g, state, |g.nodes[id.node].calls|, finals,
                     error, stopped || suspended)
    ensures StatusSoFar(old(s.record.status), stopped, suspended, error.Some?, s.record.status)
    ensures s.Onward(old(s.Here()))
    decreases g, 0, 1
  {
    hide EvalNode, OriginOf, RecordInv, ChildStates, Final, CallOrigin, RunResult, CallDone, MidInvocation, ExcusedBy,
         StatusSoFar, StatusKept, Gathered;
    var calls := g.nodes[id.node].calls;
    finals, error, stopped, suspended := [], None, false, false;
    ghost var at, start := s.store.world.at, s.Here();
    GatheredNone(pg, at, start, id, g, state);
    NothingDone(at, start, start);
    StatusFirst(s.record.status);
    for i := 0 to |calls|
      invariant Ready(pg, s) && Outside(id.frame, old(s.record.frames), s.record.frames)
      invariant MidInvocation(s.record.frames, id, state) && s.Onward(old(s.Here()))
      invariant Gathered(pg, at, start, s.Here(), id, g, state, i, finals, error, stopped || suspended)
      invariant StatusSoFar(old(s.record.status), stopped, suspended, error.Some?, s.record.status)
    {
      ghost var was := s.Here();
      var res := RunCall(pg, s, id, g, state, i);
      StatusNext(old(s.record.status), stopped, suspended, error.Some?, was.record.status, res, s.record.status);
      GatheredMore(pg, at, start, was, s.Here(), id, g, state, i, finals, error, stopped || suspended, res);
      WentFurther(at, start, was, s.Here());
      if res.Ok? {
        finals := finals + [res.value];
      } else if res.error == DurableError.Suspended {
        suspended := true;
      } else if res.error == Stopped {
        stopped := true;
      } else if error.None? {
        error := Some(res.error);
      }
    }
  }

  lemma GatheredNone(pg: Program, at: nat -> Moment, now: View, id: InvocationId, g: Graph, state: Json)
    requires IsNested(g, id.node)
    ensures Gathered(pg, at, now, now, id, g, state, 0, [], None, false)
  {
    ChildStatesNil(pg.answers, id, g, state);
  }

  lemma StatusFirst(was: RunStatus)
    ensures StatusSoFar(was, false, false, false, was)
  {
  }

  /** Run the nested graphs and combine their results: a stop outranks a failure, and a failure outranks a
      suspension. */
  method RunCalls(ghost pg: Program, s: Session, id: InvocationId, g: Graph, state: Json)
    returns (r: Result<seq<Json>, DurableError>)
    requires ProgramOk(pg) && Ready(pg, s) && MidInvocation(s.record.frames, id, state)
    requires OriginOf(pg, id.frame).Some? && OriginOf(pg, id.frame).value.graph == g && IsNested(g, id.node)
    modifies s`record, s`poisoned, s`inFlight, s`launches, s.store`records, s.store.world`time
    ensures Ready(pg, s) && Outside(id.frame, old(s.record.frames), s.record.frames)
    ensures MidInvocation(s.record.frames, id, state)
    ensures r.Ok? ==> ChildStates(pg.answers, id, g, state, |g.nodes[id.node].calls|) == Some(r.value)
    ensures r.Ok? ==> Executed(pg, s.record, id)
    ensures r.Err? ==> Excused(pg, s, old(s.Here()), r.error, EvalNode(pg.answers, id, g, state).Some?)
    ensures s.Onward(old(s.Here())) && StatusKept(old(s.record.status), r, s.record.status)
    decreases g, 0, 2
  {
    hide EvalNode, OriginOf, RecordInv, ChildStates, CallDone, MidInvocation;
    var finals, error, stopped, suspended := GatherCalls(pg, s, id, g, state);
    if stopped {
      return Err(Stopped);
    }
    if error.Some? {
      return Err(error.value);
    }
    if suspended {
      return Err(DurableError.Suspended);
    }
    r := Ok(finals);
  }

  lemma FailedCall(w: Answers, id: InvocationId, g: Graph, state: Json, i: nat)
    requires IsNested(g, id.node) && i < |g.nodes[id.node].calls|
    requires var call := g.nodes[id.node].calls[i];
             RunResult(w, NestedPath(id, call.name), call.graph, call.project(state), call.maxSteps).None?
    ensures EvalNode(w, id, g, state).None?
  {
    hide Final, ChildStates;
    ChildStatesNone(w, id, g, state, i, |g.nodes[id.node].calls|);
  }

  /** A nested run leaves its caller's frame, and what is outside it, alone. */
  lemma OutsideParent(id: InvocationId, name: string, frames: map<Path, FrameRecord>, frames': map<Path, FrameRecord>)
    requires Outside(NestedPath(id, name), frames, frames')
    ensures Outside(id.frame, frames, frames')
    ensures id.frame in frames ==> id.frame in frames' && frames'[id.frame] == frames[id.frame]
  {
    var child := NestedPath(id, name);
    forall q | q in frames && !Under(q, id.frame) ensures !Under(q, child) {
      if Under(q, child) {
        UnderTransitive(q, child, id.frame);
      }
    }
    if Under(id.frame, child) {
      UnderDepth(id.frame, child);
    }
  }

  /** A nested run leaves its finished siblings alone. */
  lemma SiblingsKept(pg: Program, id: InvocationId, g: Graph, i: nat, frames: map<Path, FrameRecord>,
                     frames': map<Path, FrameRecord>)
    requires ProgramOk(pg) && OriginOf(pg, id.frame).Some? && OriginOf(pg, id.frame).value.graph == g
    requires IsNested(g, id.node) && i < |g.nodes[id.node].calls|
    requires Outside(NestedPath(id, g.nodes[id.node].calls[i].name), frames, frames')
    ensures forall j | 0 <= j < i && NestedPath(id, g.nodes[id.node].calls[j].name) in frames ::
              var q := NestedPath(id, g.nodes[id.node].calls[j].name);
              q in frames' && frames'[q] == frames[q]
  {
    hide EvalNode, OriginOf;
    OriginWellFormed(pg, id.frame);
    var calls := g.nodes[id.node].calls;
    forall j | 0 <= j < i && NestedPath(id, calls[j].name) in frames
      ensures !Under(NestedPath(id, calls[j].name), NestedPath(id, calls[i].name))
    {
      if Under(NestedPath(id, calls[j].name), NestedPath(id, calls[i].name)) {
        UnderDepth(NestedPath(id, calls[j].name), NestedPath(id, calls[i].name));
      }
    }
  }

  /** By the recorded results the script `from` has come to `to`. */
  predicate Walks(tasks: map<TaskId, TaskRecord>, id: InvocationId, from: Script, to: Script) {
    || to == from
    || (from.Ask?
        && var task := TaskId(id, from.slot);
           && task in tasks && SameTask(tasks[task], from.version, from.input, from.policy)
           && tasks[task].status == TaskStatus.Completed && tasks[task].result.Some?
           && tasks[task].result.value in from.resume
           && Walks(tasks, id, from.resume[tasks[task].result.value], to))
  }

  lemma {:induction false} StillWalks(was: map<TaskId, TaskRecord>, now: map<TaskId, TaskRecord>, id: InvocationId,
                                      from: Script, to: Script)
    requires TasksKept(was, now) && Walks(was, id, from, to)
    ensures Walks(now, id, from, to)
  {
    if to != from {
      var task := TaskId(id, from.slot);
      assert TaskKept(was[task], now[task]);
      StillWalks(was, now, id, from.resume[was[task].result.value], to);
    }
  }

  /** One more recorded result. */
  lemma {:induction false} WalksOn(tasks: map<TaskId, TaskRecord>, id: InvocationId, from: Script, to: Script,
                                   answer: Json)
    requires Walks(tasks, id, from, to) && to.Ask? && answer in to.resume
    requires T.Recorded(tasks, TaskId(id, to.slot), to.version, to.input, to.policy, answer)
    ensures Walks(tasks, id, from, to.resume[answer])
  {
    if to != from {
      WalksOn(tasks, id, from.resume[tasks[TaskId(id, from.slot)].result.value], to, answer);
    } else {
      assert Walks(tasks, id, to.resume[answer], to.resume[answer]);
    }
  }

  /** Where a script has come to by the recorded results it means the same. */
  lemma {:induction false} WalksMean(pg: Program, tasks: map<TaskId, TaskRecord>, id: InvocationId, from: Script,
                                     to: Script)
    requires Answered(pg, tasks) && Walks(tasks, id, from, to)
    ensures Replay(pg.answers, id, from) == Replay(pg.answers, id, to)
    ensures Clashes(tasks, id, to) ==> Clashes(tasks, id, from)
  {
    if to != from {
      WalksMean(pg, tasks, id, from.resume[tasks[TaskId(id, from.slot)].result.value], to);
    }
  }

  lemma WalksNowhere(tasks: map<TaskId, TaskRecord>, id: InvocationId, script: Script)
    ensures Walks(tasks, id, script, script)
  {
  }

  lemma ReplayReturn(w: Answers, id: InvocationId, script: Script)
    requires script.Return?
    ensures Replay(w, id, script) == Some(script.result)
  {
  }

  lemma ScriptThere(pg: Program, r: RunRecord, id: InvocationId, g: Graph, state: Json)
    requires RecordInv(pg, r) && MidInvocation(r.frames, id, state)
    requires OriginOf(pg, id.frame).Some? && OriginOf(pg, id.frame).value.graph == g
    requires id.node in g.nodes && g.nodes[id.node].Leaf?
    ensures ScriptOf(pg, id) == Some(g.nodes[id.node].run(state))
  {
    hide OriginOf, RecordInv, CursorAt;
    RunningCursor(pg, r, id, state, OriginOf(pg, id.frame).value);
  }

  /** What one task call does for the script that makes it. */
  lemma TaskCalled(pg: Program, at: nat -> Moment, start: View, was: View, now: View, id: InvocationId,
                   whole: Script, script: Script, answer: Result<Json, DurableError>)
    requires WentOn(at, start, was) && script.Ask? && was.record.status != RunStatus.Completed
    requires T.Called(at, was, now, TaskId(id, script.slot), script.version, script.input, script.policy, answer)
    requires Walks(was.record.tasks, id, whole, script) && ScriptOf(pg, id) == Some(whole)
    requires Answered(pg, was.record.tasks) && Answered(pg, now.record.tasks) && !Halting(was.record.status)
    ensures WentOn(at, start, now) && now.record.frames == was.record.frames
    ensures StatusKept(was.record.status, answer, now.record.status) && now.record.status != RunStatus.Completed
    ensures answer.Ok? && answer.value in script.resume ==>
              Walks(now.record.tasks, id, whole, script.resume[answer.value])
    ensures answer.Ok? && answer.value !in script.resume ==>
              ExcusedBy(pg, at, start, now, NodeFailed, Replay(pg.answers, id, whole).Some?)
    ensures answer.Err? ==> ExcusedBy(pg, at, start, now, answer.error, Replay(pg.answers, id, whole).Some?)
  {
    hide WentOn, Walks, Clashes, ScriptOf, TasksKept, RequestsKept;
    var task := TaskId(id, script.slot);
    T.CalledOnward(at, was, now, task, script.version, script.input, script.policy, answer);
    WentFurther(at, start, was, now);
    TasksOn(at, was, now);
    StillWalks(was.record.tasks, now.record.tasks, id, whole, script);
    WalksMean(pg, was.record.tasks, id, whole, script);
    if answer.Ok? {
      if answer.value in script.resume {
        WalksOn(now.record.tasks, id, whole, script, answer.value);
      }
    } else {
      assert ExcusedBy(pg, at, was, now, answer.error, true) by {
        if T.Refused(was.record.tasks, task, script.version, script.input, script.policy, answer.error) {
          ClashesHere(was.record.tasks, id, script);
          StillClashes(was.record.tasks, now.record.tasks, id, whole);
        }
      }
      ExcusedMore(pg, at, was, now, answer.error, true, Replay(pg.answers, id, whole).Some?);
      ExcusedSince(pg, at, start, was, now, answer.error, Replay(pg.answers, id, whole).Some?);
    }
  }

  lemma ClashesHere(tasks: map<TaskId, TaskRecord>, id: InvocationId, script: Script)
    requires script.Ask? && TaskId(id, script.slot) in tasks
    requires !SameTask(tasks[TaskId(id, script.slot)], script.version, script.input, script.policy)
    ensures Clashes(tasks, id, script)
  {
  }

  lemma TasksOn(at: nat -> Moment, was: View, now: View)
    requires WentOn(at, was, now)
    ensures TasksKept(was.record.tasks, now.record.tasks)
  {
  }

  /** Run a leaf: have its tasks performed, or take what is recorded of them. */
  method RunScript(ghost pg: Program, s: Session, id: InvocationId, g: Graph, state: Json)
    returns (r: Result<NodeResult, DurableError>)
    requires Ready(pg, s) && MidInvocation(s.record.frames, id, state) && !Halting(s.record.status)
    requires OriginOf(pg, id.frame).Some? && OriginOf(pg, id.frame).value.graph == g
    requires id.node in g.nodes && g.nodes[id.node].Leaf?
    modifies s`record, s`poisoned, s`inFlight, s`launches, s.store`records, s.store.world`time
    ensures Ready(pg, s) && s.record.frames == old(s.record.frames)
    ensures var meaning := Replay(pg.answers, id, g.nodes[id.node].run(state));
      && (r.Ok? ==> meaning == Some(r.value))
      && (r.Err? ==> Excused(pg, s, old(s.Here()), r.error, meaning.Some?))
    ensures s.Onward(old(s.Here())) && StatusKept(old(s.record.status), r, s.record.status)
  {
    hide EvalNode, OriginOf, CursorAt, ScriptOf, RecordInv, Answered, Truthful, WentOn, T.Called, ExcusedBy, Walks,
         TasksKept, Replay, Session.Valid;
    ghost var at, start := s.store.world.at, s.Here();
    var script := g.nodes[id.node].run(state);
    ghost var whole := script;
    NothingDone(at, start, start);
    ScriptThere(pg, s.record, id, g, state);
    WalksNowhere(s.record.tasks, id, script);
    while script.Ask?
      invariant Ready(pg, s) && s.record.frames == old(s.record.frames) && s.record.status == old(s.record.status)
      invariant Walks(s.record.tasks, id, whole, script) && s.Onward(start)
      decreases script
    {
      ghost var was := s.Here();
      var task := TaskId(id, script.slot);
      var answer := T.Execute(pg, s, task, script.version, script.input, script.policy);
      TaskCalled(pg, at, start, was, s.Here(), id, whole, script, answer);
      if answer.Err? {
        return Err(answer.error);
      }
      if answer.value !in script.resume {
        return Err(NodeFailed);
      }
      script := script.resume[answer.value];
    }
    WalksMean(pg, s.record.tasks, id, whole, script);
    ReplayReturn(pg.answers, id, script);
    r := Ok(script.result);
  }

  /** Pass the barrier of an invocation. */
  method PassBarrier(ghost pg: Program, s: Session, id: InvocationId, state: Json, timeout: Option<nat>)
    returns (r: Result<(), DurableError>)
    requires s.Good(pg) && MidInvocation(s.record.frames, id, state) && !Halting(s.record.status)
    requires OriginOf(pg, id.frame).Some? && IsBarrier(OriginOf(pg, id.frame).value.graph, id.node)
    modifies s`record, s`poisoned, s.store`records, s.store.world`time
    ensures s.Good(pg) && s.record.frames == old(s.record.frames)
    ensures r.Ok? ==> Executed(pg, s.record, id)
    ensures r.Err? ==> r.error != NodeFailed && Excused(pg, s, old(s.Here()), r.error, true)
    ensures s.Onward(old(s.Here())) && StatusKept(old(s.record.status), r, s.record.status)
  {
    hide OriginOf, RecordInv, WentOn;
    r := s.Approve(pg, id, timeout);
  }

  /** Run a leaf to its action. */
  method RunLeaf(ghost pg: Program, s: Session, id: InvocationId, g: Graph, state: Json)
    returns (r: Result<(Json, Action), DurableError>)
    requires Ready(pg, s) && MidInvocation(s.record.frames, id, state) && !Halting(s.record.status)
    requires OriginOf(pg, id.frame).Some? && OriginOf(pg, id.frame).value.graph == g
    requires id.node in g.nodes && g.nodes[id.node].Leaf?
    modifies s`record, s`poisoned, s`inFlight, s`launches, s.store`records, s.store.world`time
    ensures Ready(pg, s) && s.record.frames == old(s.record.frames) && (r.Ok? ==> Executed(pg, s.record, id))
    ensures var meaning := EvalNode(pg.answers, id, g, state);
      && (r.Ok? ==> meaning == Route(g, id.node, r.value.0, r.value.1))
      && (r.Err? ==> Excused(pg, s, old(s.Here()), r.error, meaning.Some?))
    ensures s.Onward(old(s.Here())) && StatusKept(old(s.record.status), r, s.record.status)
  {
    hide OriginOf, RecordInv, Route, WentOn, Answered, Truthful, Session.Valid, T.Fruitless, Replay, SomeClash,
         SomeSpent;
    var done := RunScript(pg, s, id, g, state);
    if done.Err? {
      return Err(done.error);
    }
    match done.value {
      case Done(state', action) => return Ok((state', action));
      case _ => return Err(NodeFailed);
    }
  }

  /** Run the nested graphs of an invocation and combine what they return. */
  method RunComposite(ghost pg: Program, s: Session, id: InvocationId, g: Graph, state: Json)
    returns (r: Result<(Json, Action), DurableError>)
    requires ProgramOk(pg) && Ready(pg, s) && MidInvocation(s.record.frames, id, state)
    requires OriginOf(pg, id.frame).Some? && OriginOf(pg, id.frame).value.graph == g && IsNested(g, id.node)
    modifies s`record, s`poisoned, s`inFlight, s`launches, s.store`records, s.store.world`time
    ensures Ready(pg, s) && Outside(id.frame, old(s.record.frames), s.record.frames)
    ensures MidInvocation(s.record.frames, id, state) && (r.Ok? ==> Executed(pg, s.record, id))
    ensures var meaning := EvalNode(pg.answers, id, g, state);
      && (r.Ok? ==> meaning == Route(g, id.node, r.value.0, r.value.1))
      && (r.Err? ==> Excused(pg, s, old(s.Here()), r.error, meaning.Some?))
    ensures s.Onward(old(s.Here())) && StatusKept(old(s.record.status), r, s.record.status)
    decreases g, 0, 3
  {
    hide OriginOf, RecordInv, Route, WentOn, Answered, Truthful, Session.Valid, T.Fruitless, ChildStates, RunResult,
         MidInvocation, SomeClash, SomeSpent, Executed;
    var finals := RunCalls(pg, s, id, g, state);
    if finals.Err? {
      return Err(finals.error);
    }
    match g.nodes[id.node].combine(state, finals.value) {
      case None => return Err(NodeFailed);
      case Some(state') => return Ok((state', Next));
    }
  }

  lemma NoNode(w: Answers, id: InvocationId, g: Graph, state: Json)
    requires id.node !in g.nodes
    ensures EvalNode(w, id, g, state).None?
  {
  }

  lemma BarrierMeans(w: Answers, id: InvocationId, g: Graph, state: Json)
    requires IsBarrier(g, id.node)
    ensures EvalNode(w, id, g, state) == Route(g, id.node, state, Next)
  {
  }

  /** Execute one node on the state in memory. */
  method RunNode(ghost pg: Program, s: Session, p: Path, g: Graph, current: string, invocation: nat, state: Json)
    returns (r: Result<(Json, Action), DurableError>)
    requires ProgramOk(pg) && Ready(pg, s)
    requires MidInvocation(s.record.frames, InvocationId(p, current, invocation), state)
    requires OriginOf(pg, p).Some? && OriginOf(pg, p).value.graph == g && !Halting(s.record.status)
    modifies s`record, s`poisoned, s`inFlight, s`launches, s.store`records, s.store.world`time
    ensures Ready(pg, s) && Outside(p, old(s.record.frames), s.record.frames)
    ensures MidInvocation(s.record.frames, InvocationId(p, current, invocation), state)
    ensures r.Ok? ==> Executed(pg, s.record, InvocationId(p, current, invocation))
    ensures var meaning := EvalNode(pg.answers, InvocationId(p, current, invocation), g, state);
      && (r.Ok? ==> meaning == Route(g, current, r.value.0, r.value.1))
      && (r.Err? ==> Excused(pg, s, old(s.Here()), r.error, meaning.Some?))
    ensures s.Onward(old(s.Here())) && StatusKept(old(s.record.status), r, s.record.status)
    decreases g, 0, 4
  {
    hide OriginOf, RecordInv, Route, WentOn, Answered, Truthful, Session.Valid, T.Fruitless, EvalNode, MidInvocation,
         SomeClash, SomeSpent, Executed;
    var id := InvocationId(p, current, invocation);
    if current !in g.nodes {
      NothingDone(s.store.world.at, s.Here(), s.Here());
      NoNode(pg.answers, id, g, state);
      return Err(NodeFailed);
    }
    match g.nodes[current] {
      case Leaf(_) =>
        r := RunLeaf(pg, s, id, g, state);
      case Barrier(timeout) =>
        BarrierMeans(pg.answers, id, g, state);
        var passed := PassBarrier(pg, s, id, state, timeout);
        if passed.Err? {
          ExcusedMore(pg, s.store.world.at, old(s.Here()), s.Here(), passed.error, true,
                      EvalNode(pg.answers, id, g, state).Some?);
          return Err(passed.error);
        }
        r := Ok((state, Next));
      case Nested(_, _) =>
        r := RunComposite(pg, s, id, g, state);
    }
  }

  /** One turn of the loop: check for cancellation, begin, execute, route, commit. */
  method RunStep(ghost pg: Program, s: Session, p: Path, g: Graph, current: string, state: Json)
    returns (r: Result<Cursor, DurableError>)
    requires ProgramOk(pg) && Ready(pg, s)
    requires OriginOf(pg, p).Some? && OriginOf(pg, p).value.graph == g
    requires p in s.record.frames && s.record.frames[p].nextNode == Some(current) && s.record.frames[p].state == state
    modifies s`record, s`poisoned, s`inFlight, s`launches, s.store`records, s.store.world`time
    ensures Ready(pg, s) && Outside(p, old(s.record.frames), s.record.frames)
    ensures r.Ok? ==>
              && p in s.record.frames
              && s.record.frames[p].nextNode == r.value.node && s.record.frames[p].state == r.value.state
              && Commits(s.record.frames[p]) == old(Commits(s.record.frames[p])) + 1
    ensures var moment := s.store.world.at(old(s.store.world.time));
      moment.runCancelled || moment.groupCancelled ==> r.Err? && s.record.frames == old(s.record.frames)
    ensures r.Err? ==>
              Excused(pg, s, old(s.Here()), r.error,
                      Meaning(pg, p).Some?)
    ensures s.Onward(old(s.Here())) && StatusKept(old(s.record.status), r, s.record.status)
    decreases g, 1, 0
  {
    hide EvalNode, OriginOf, RecordInv, CommitReady, Final, Executed, Route, RunResult, WentOn, ExcusedBy;
    ghost var at, start, o := s.store.world.at, s.Here(), OriginOf(pg, p).value;
    var stop := CheckCancel(pg, s);
    if stop.Err? {
      ExcusedMore(pg, at, start, s.Here(), stop.error, true, Meaning(pg, p).Some?);
      return Err(stop.error);
    }
    ghost var checked := s.Here();
    var begun := BeginNode(pg, s, p, current);
    ghost var begins := s.Here();
    WentFurther(at, start, checked, begins);
    if begun.Err? {
      NotBegun(pg, s.record, p, o);
      ExcusedMore(pg, at, checked, s.Here(), begun.error, !FrameSpent(s.record.frames[p]),
                  Meaning(pg, p).Some?);
      ExcusedSince(pg, at, start, checked, s.Here(), begun.error, Meaning(pg, p).Some?);
      return Err(begun.error);
    }
    r := FinishStep(pg, s, p, g, current, begun.value, state);
    WentFurther(at, start, begins, s.Here());
    if r.Err? {
      ExcusedSince(pg, at, start, begins, s.Here(), r.error, Meaning(pg, p).Some?);
    }
  }

  /** Execute a begun invocation, route from it, commit. */
  method FinishStep(ghost pg: Program, s: Session, p: Path, g: Graph, current: string, invocation: nat, state: Json)
    returns (r: Result<Cursor, DurableError>)
    requires ProgramOk(pg) && Ready(pg, s)
    requires MidInvocation(s.record.frames, InvocationId(p, current, invocation), state)
    requires OriginOf(pg, p).Some? && OriginOf(pg, p).value.graph == g && !Halting(s.record.status)
    modifies s`record, s`poisoned, s`inFlight, s`launches, s.store`records, s.store.world`time
    ensures Ready(pg, s) && Outside(p, old(s.record.frames), s.record.frames)
    ensures r.Ok? ==>
              && p in s.record.frames
              && s.record.frames[p].nextNode == r.value.node && s.record.frames[p].state == r.value.state
              && Commits(s.record.frames[p]) == invocation
    ensures r.Err? ==>
              Excused(pg, s, old(s.Here()), r.error,
                      Meaning(pg, p).Some?)
    ensures s.Onward(old(s.Here())) && StatusKept(old(s.record.status), r, s.record.status)
    decreases g, 0, 5
  {
    hide EvalNode, OriginOf, RecordInv, CommitReady, Final, Executed, Route, RunResult, Answered, Truthful;
    ghost var id := InvocationId(p, current, invocation);
    var out := RunNode(pg, s, p, g, current, invocation, state);
    if out.Err? {
      if EvalNode(pg.answers, InvocationId(p, current, invocation), g, state).None? {
        StuckInvocation(pg, s.record, id, state, OriginOf(pg, p).value);
      }
      return Err(out.error);
    }
    var c := Route(g, current, out.value.0, out.value.1);
    if c.None? {
      StuckInvocation(pg, s.record, id, state, OriginOf(pg, p).value);
      return Err(NodeFailed);
    }
    ExecutedReady(pg, s.record, id, state, c.value);
    var done := CommitNode(pg, s, p, c.value);
    r := if done.Ok? then Ok(c.value) else Err(done.error);
  }

  /** Drive one graph from wherever its frame stands. A returned state is the result of the
      crash-free run; NodeFailed is reported only when that run has no result either. */
  method RunGraphLoop(ghost pg: Program, s: Session, p: Path, g: Graph, initial: Json, maxSteps: nat)
    returns (r: Result<Json, DurableError>)
    requires ProgramOk(pg) && Ready(pg, s)
    requires OriginOf(pg, p).Some? && OriginOf(pg, p).value == Origin(g, OriginOf(pg, p).value.input, maxSteps)
    requires p !in s.record.frames ==> OriginOf(pg, p).value.input == initial
    requires p.Child? ==> && p.parent in s.record.frames && s.record.frames[p.parent].active
                          && s.record.frames[p.parent].stepsUsed == p.invocation
    modifies s`record, s`poisoned, s`inFlight, s`launches, s.store`records, s.store.world`time
    ensures Ready(pg, s)
    ensures Outside(p, old(s.record.frames), s.record.frames)
    ensures r.Ok? ==>
              && Ended(s.record.frames, p, r.value)
              && Meaning(pg, p) == Some(r.value)
    ensures r.Err? ==> Excused(pg, s, old(s.Here()), r.error, Meaning(pg, p).Some?)
    ensures s.Onward(old(s.Here())) && StatusKept(old(s.record.status), r, s.record.status)
    decreases g, 2
  {
    hide EvalNode, OriginOf, RecordInv, CommitReady, Final, RunResult, WentOn;
    ghost var at, start := s.store.world.at, s.Here();
    if p in s.record.frames {
      RecordedFrame(pg, s.record, p);
    }
    var f := s.Enter(pg, p, g, initial, maxSteps);
    if f.Err? {
      if p in s.record.frames && s.Stray(s.record.frames[p], g) {
        StrayFrame(pg, s.record, p, OriginOf(pg, p).value);
      }
      return Err(f.error);
    }
    if f.value.nextNode.None? {
      EndedResult(pg, s.record, p, OriginOf(pg, p).value);
      return Ok(f.value.state);
    }
    ghost var entered := s.Here();
    r := Drive(pg, s, p, g, f.value.nextNode.value, f.value.state);
    WentFurther(at, start, entered, s.Here());
    if r.Err? {
      ExcusedSince(pg, at, start, entered, s.Here(), r.error,
                   Meaning(pg, p).Some?);
    }
  }

  /** The loop itself, from the cursor of an entered frame. */
  method Drive(ghost pg: Program, s: Session, p: Path, g: Graph, from: string, initial: Json)
    returns (r: Result<Json, DurableError>)
    requires ProgramOk(pg) && Ready(pg, s) && OriginOf(pg, p).Some? && OriginOf(pg, p).value.graph == g
    requires p in s.record.frames && s.record.frames[p].nextNode == Some(from) && s.record.frames[p].state == initial
    modifies s`record, s`poisoned, s`inFlight, s`launches, s.store`records, s.store.world`time
    ensures Ready(pg, s)
    ensures Outside(p, old(s.record.frames), s.record.frames)
    ensures var o := OriginOf(pg, p).value; var result := Meaning(pg, p);
      && (r.Ok? ==> Ended(s.record.frames, p, r.value) && result == Some(r.value))
      && (r.Err? ==> Excused(pg, s, old(s.Here()), r.error, result.Some?))
    ensures s.Onward(old(s.Here())) && StatusKept(old(s.record.status), r, s.record.status)
    decreases g, 1, 1
  {
    hide EvalNode, OriginOf, RecordInv, Final, RunResult, ExcusedBy, WentOn;
    ghost var at, start, o := s.store.world.at, s.Here(), OriginOf(pg, p).value;
    NothingDone(at, start, start);
    var current, state := from, initial;
    while true
      invariant Ready(pg, s) && Outside(p, old(s.record.frames), s.record.frames)
      invariant p in s.record.frames
      invariant s.record.frames[p].nextNode == Some(current) && s.record.frames[p].state == state
      invariant s.Onward(start) && s.record.status == old(s.record.status)
      decreases OriginOf(pg, p).value.maxSteps - Commits(s.record.frames[p])
    {
      FrameBudget(pg, s.record, p, o);
      ghost var was := s.Here();
      var c := RunStep(pg, s, p, g, current, state);
      WentFurther(at, start, was, s.Here());
      if c.Err? {
        ExcusedSince(pg, at, start, was, s.Here(), c.error, Meaning(pg, p).Some?);
        return Err(c.error);
      }
      FrameBudget(pg, s.record, p, o);
      state := c.value.state;
      match c.value.node {
        case None =>
          EndedResult(pg, s.record, p, OriginOf(pg, p).value);
          return Ok(state);
        case Some(n) => current := n;
      }
    }
  }
}
