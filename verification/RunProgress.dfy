/** An interrupted run can be completed: where a program has a result it can afford, and nobody need decide
    anything, some continuation of every run at rest completes it. */
module RunProgress {
  import opened Wrappers
  import opened GraphCore
  import opened RunModel
  import opened RunInvariant
  import opened RunProtocol
  import opened RunSafety
  import opened RunTheorems
  import opened RunCost
  import E = ScopeEdits
  import C = RunCalls

  /** Nobody has to act: there are no barriers, and leaves ask for no tasks, at any depth. */
  ghost predicate Plain(g: Graph)
    decreases g
  {
    forall n | n in g.nodes ::
      match g.nodes[n]
      case Leaf(run) => forall s :: run(s).Return?
      case Barrier(_) => false
      case Nested(calls, _) => forall i | 0 <= i < |calls| :: Plain(calls[i].graph)
  }

  // ---------------------------------------------------------------------- ways

  ghost predicate IsWay(pg: Program, ms: seq<Machine>, steps: seq<Step>) {
    && |ms| == |steps| + 1
    && (forall i | 0 <= i < |steps| :: StepOf(pg, ms[i], steps[i], ms[i + 1]))
    && (forall i | 0 <= i < |ms| :: RecordsAnswered(pg, ms[i]))
  }

  /** Steps of the protocol lead from one machine to the other. */
  ghost predicate Leads(pg: Program, m: Machine, m': Machine) {
    exists ms, steps :: IsWay(pg, ms, steps) && ms[0] == m && ms[|steps|] == m'
  }

  lemma LeadsNowhere(pg: Program, m: Machine)
    requires RecordsAnswered(pg, m)
    ensures Leads(pg, m, m)
  {
    assert IsWay(pg, [m], []);
  }

  lemma LeadsOneStep(pg: Program, m: Machine, step: Step, m': Machine)
    requires RecordsAnswered(pg, m) && RecordsAnswered(pg, m') && StepOf(pg, m, step, m')
    ensures Leads(pg, m, m')
  {
    hide StepOf, RecordsAnswered;
    assert IsWay(pg, [m, m'], [step]);
  }

  lemma LeadsOn(pg: Program, a: Machine, b: Machine, c: Machine)
    requires Leads(pg, a, b) && Leads(pg, b, c)
    ensures Leads(pg, a, c)
  {
    hide StepOf, RecordsAnswered;
    var ms, steps :| IsWay(pg, ms, steps) && ms[0] == a && ms[|steps|] == b;
    var ms', steps' :| IsWay(pg, ms', steps') && ms'[0] == b && ms'[|steps'|] == c;
    Joined(pg, ms, steps, ms', steps');
  }

  lemma Joined(pg: Program, ms: seq<Machine>, steps: seq<Step>, ms': seq<Machine>, steps': seq<Step>)
    requires IsWay(pg, ms, steps) && IsWay(pg, ms', steps') && ms[|steps|] == ms'[0]
    ensures Leads(pg, ms[0], ms'[|steps'|])
  {
    hide StepOf, RecordsAnswered;
    var all, taken := ms + ms'[1..], steps + steps';
    forall i | 0 <= i < |taken|
      ensures StepOf(pg, all[i], taken[i], all[i + 1])
    {
      if i < |steps| {
        assert all[i] == ms[i] && all[i + 1] == ms[i + 1];
      } else {
        assert all[i] == ms'[i - |steps|] && all[i + 1] == ms'[i - |steps| + 1];
      }
    }
    forall i | 0 <= i < |all|
      ensures RecordsAnswered(pg, all[i])
    {
      if i >= |ms| {
        assert all[i] == ms'[i - |steps|];
      }
    }
    assert IsWay(pg, all, taken) && all[0] == ms[0] && all[|taken|] == ms'[|steps'|];
  }

  /** What a way leads to from a reachable machine is reachable. */
  lemma LeadsReachable(pg: Program, m: Machine, m': Machine)
    requires Reachable(pg, m) && Leads(pg, m, m')
    ensures Reachable(pg, m')
  {
    hide StepOf, RecordsAnswered;
    var ms, steps :| IsRun(pg, ms, steps) && m in ms;
    var n :| 0 <= n < |ms| && ms[n] == m;
    assert IsWay(pg, ms[..n + 1], steps[..n]);
    var ms', steps' :| IsWay(pg, ms', steps') && ms'[0] == m && ms'[|steps'|] == m';
    Joined(pg, ms[..n + 1], steps[..n], ms', steps');
    var all, taken :| IsWay(pg, all, taken) && all[0] == INITIAL && all[|taken|] == m';
    assert IsRun(pg, all, taken) && m' in all;
  }

  // ------------------------------------------------------------------- good machines

  ghost predicate Good(pg: Program, m: Machine) {
    ProgramOk(pg) && MachineInv(pg, m) && RecordsAnswered(pg, m)
  }

  /** A session that drives the run and has not been disturbed. */
  ghost predicate Drives(pg: Program, m: Machine) {
    Good(pg, m) && Live(m) && !m.session.value.cancelled && m.session.value.record.status == RunStatus.Running
  }

  /** One more step, which records no task. */
  lemma Goes(pg: Program, m: Machine, step: Step, m': Machine)
    requires Good(pg, m) && StepOf(pg, m, step, m')
    requires m'.saved == m.saved
             || (m'.saved != [] && m'.saved == m.saved + [Last(m')]
                 && (m.saved == [] ==> Last(m').tasks == map[])
                 && (m.saved != [] ==> Last(m').tasks == Last(m).tasks))
    ensures Good(pg, m') && Leads(pg, m, m')
  {
    hide StepOf, MachineInv, Answered;
    StepInv(pg, m, step, m');
    if m'.saved != m.saved {
      NoTasksAnswered(pg);
      forall i | 0 <= i < |m'.saved|
        ensures Answered(pg, m'.saved[i].tasks)
      {
        if i < |m.saved| {
          assert m'.saved[i] == m.saved[i];
        } else if m.saved != [] {
          assert Answered(pg, m.saved[|m.saved| - 1].tasks);
        }
      }
    }
    LeadsOneStep(pg, m, step, m');
  }

  lemma NoTasksAnswered(pg: Program)
    ensures Answered(pg, map[])
  {
  }

  /** The machine after a confirmed save. */
  function Saving(m: Machine, r: RunRecord, s: Session, log: seq<CommitEvent>): Machine {
    m.(saved := m.saved + [r], session := Some(s.(record := r)), commits := m.commits + log)
  }

  lemma Record(pg: Program, m: Machine)
    requires Drives(pg, m)
    ensures m.saved != [] && m.session.value.record == Last(m) && Last(m).revision == |m.saved| - 1
    ensures RecordInv(pg, Last(m)) && Proper(pg, Last(m).frames) && Root in Last(m).frames
    ensures Last(m).stepsUsed == SumSteps(Last(m).frames) && Last(m).maxSteps == pg.maxSteps
  {
    hide CursorsOk, ParentsOk, ChildrenOk, ApprovalsOk, LogOk, ThreadsOk, InFlightOk, PaidOk;
    assert RecordInv(pg, Last(m));
  }

  // ------------------------------------------------------------------- begin and commit

  /** The program has a result, and its steps are affordable. */
  ghost predicate Affordable(pg: Program) {
    ProgramResult(pg).Some? && ProgramCost(pg) <= pg.maxSteps
  }

  /** The frame stands for a run that has a result. */
  ghost predicate Succeeds(pg: Program, p: Path) {
    OriginOf(pg, p).Some? && Meaning(pg, p).Some?
  }

  lemma Begun(pg: Program, frames: map<Path, FrameRecord>, p: Path)
    requires Proper(pg, frames) && ChildrenOk(pg, frames) && p in frames && Succeeds(pg, p)
    requires !frames[p].active && frames[p].nextNode.Some?
    ensures frames[p].stepsUsed < frames[p].maxSteps
    ensures Proper(pg, frames[p := frames[p].(stepsUsed := frames[p].stepsUsed + 1, active := true)])
  {
    hide EvalNode, Traj, OriginOf, ParentsOk, ChildrenOk;
    var f := frames[p];
    var f' := f.(stepsUsed := f.stepsUsed + 1, active := true);
    var n := Ahead(pg, frames, p, OriginOf(pg, p).value);
    assert FrameOk(pg, p, f);
    BeginCursor(pg, p, f, f');
    CursorsUpdate(pg, frames, p, f');
    SameCommitsFrames(pg, frames, p, f');
  }

  /** A frame that is in front of a node can still begin it. */
  lemma BudgetLeft(pg: Program, r: RunRecord, p: Path)
    requires RecordInv(pg, r) && Proper(pg, r.frames) && p in r.frames && Succeeds(pg, p) && Affordable(pg)
    requires !r.frames[p].active && r.frames[p].nextNode.Some?
    ensures r.frames[p].stepsUsed < r.frames[p].maxSteps && r.stepsUsed < r.maxSteps
  {
    hide Proper, Succeeds, RunResult, CostOfRun, CursorsOk, ParentsOk, ChildrenOk, ApprovalsOk, SumSteps, Full;
    var f' := r.frames[p].(stepsUsed := r.frames[p].stepsUsed + 1, active := true);
    Begun(pg, r.frames, p);
    FramesCost(pg, r.frames[p := f']);
    SumStepsUpdate(r.frames, p, f');
  }

  /** There is room for `n` more records. */
  predicate Room(m: Machine, n: int) {
    |m.saved| + n <= U64_MAX
  }

  lemma ThreadKnown(pg: Program, m: Machine, p: Path)
    requires Drives(pg, m) && p in m.session.value.threads
    ensures ThreadOk(Last(m).frames, Last(m).approvals, p, m.session.value.threads[p])
    ensures NestOk(m.session.value.threads, p)
  {
    Record(pg, m);
    hide StoreOk, PaidOk, InFlightOk, ThreadOk, NestOk, RecordsAnswered;
  }

  lemma BeginGoes(pg: Program, m: Machine, p: Path) returns (m': Machine)
    requires Drives(pg, m) && p in m.session.value.threads && m.session.value.threads[p].Head?
    requires Succeeds(pg, p) && Affordable(pg) && Room(m, 1)
    ensures Drives(pg, m') && Leads(pg, m, m') && |m'.saved| == |m.saved| + 1
    ensures var t := m.session.value.threads[p];
      && p in Last(m).frames && p in Last(m').frames
      && Last(m').frames[p].stepsUsed == Commits(Last(m).frames[p]) + 1
      && m'.session.value.threads
         == m.session.value.threads[p := InNode(t.current, Last(m').frames[p].stepsUsed, t.state, false)]
  {
    hide Succeeds, Affordable, Proper, RecordInv, MachineInv, RecordsAnswered, NestOk, SumSteps;
    Record(pg, m);
    ThreadKnown(pg, m, p);
    var s := m.session.value;
    var t := s.threads[p];
    if !s.record.frames[p].active {
      BudgetLeft(pg, s.record, p);
    }
    var (r, invocation) := E.Begin(s.record, p, t.current).value;
    m' := Saving(m, E.Bumped(r).value,
                 s.(began := true, threads := s.threads[p := InNode(t.current, invocation, t.state, false)]), []);
    assert m'.commits == m.commits;
    Goes(pg, m, BeginNode(p), m');
  }

  /** The invocation means `c`. */
  ghost predicate Means(pg: Program, p: Path, current: string, k: nat, state: Json, c: Cursor) {
    && OriginOf(pg, p).Some?
    && var o := OriginOf(pg, p).value;
       && current in o.graph.nodes && StepAt(pg, p, o, k)
       && NextId(pg, p, o, k) == InvocationId(p, current, k + 1) && StateBefore(pg, p, o, k) == state
       && EvalNode(pg.answers, InvocationId(p, current, k + 1), o.graph, state) == Some(c)
       && Traj(pg.answers, p, o.graph, o.input, k + 1) == Some(c)
  }

  /** The invocation a thread runs has a meaning. */
  lemma NodeMeans(pg: Program, m: Machine, p: Path) returns (c: Cursor)
    requires Drives(pg, m) && InvocationOf(m.session.value, p) && Succeeds(pg, p)
    ensures m.session.value.threads[p].invocation >= 1 && NodeReady(pg, m, p)
    ensures GraphAt(pg.graph, p) == Some(OriginOf(pg, p).value.graph)
    ensures var t := m.session.value.threads[p];
      Means(pg, p, t.current, t.invocation - 1, t.state, c)
  {
    hide Proper, RecordInv, MachineInv, RecordsAnswered, NestOk, Traj, EvalNode, OriginOf, GraphAt, Meaning;
    Record(pg, m);
    ThreadKnown(pg, m, p);
    ThreadOrigin(pg, m, p);
    var s := m.session.value;
    var o, k := OriginOf(pg, p).value, s.threads[p].invocation - 1;
    ProperCursors(pg, Last(m).frames);
    RunningState(pg, Last(m), p, s.threads[p]);
    var n := Ahead(pg, Last(m).frames, p, o);
    NextIsThere(pg, p, o, k, n);
    c := Traj(pg.answers, p, o.graph, o.input, k + 1).value;
    NextTraj(pg, p, o, k);
    if s.threads[p].current !in o.graph.nodes {
      NoSuchNode(pg.answers, Current(s, p), o.graph, s.threads[p].state);
    }
  }

  lemma ProperCursors(pg: Program, frames: map<Path, FrameRecord>)
    requires Proper(pg, frames)
    ensures CursorsOk(pg, frames)
  {
  }

  lemma NextTraj(pg: Program, p: Path, o: Origin, k: nat)
    requires StepAt(pg, p, o, k)
    ensures Traj(pg.answers, p, o.graph, o.input, k + 1)
         == EvalNode(pg.answers, NextId(pg, p, o, k), o.graph, StateBefore(pg, p, o, k))
  {
  }

  lemma NoSuchNode(w: Answers, id: InvocationId, g: Graph, state: Json)
    requires id.node !in g.nodes
    ensures EvalNode(w, id, g, state).None?
  {
  }

  lemma CommitGoes(pg: Program, m: Machine, p: Path, c: Cursor, step: Step) returns (m': Machine)
    requires Drives(pg, m) && InvocationOf(m.session.value, p) && Room(m, 1)
    requires forall n | CommitStep(m, p, Some(c), n) :: StepOf(pg, m, step, n)
    ensures Drives(pg, m') && Leads(pg, m, m') && |m'.saved| == |m.saved| + 1
    ensures m'.session.value.threads == WithoutChildren(m.session.value.threads, p)[p := After(c.state, c.node)]
    ensures p in Last(m').frames && Commits(Last(m').frames[p]) == m.session.value.threads[p].invocation
  {
    hide Proper, RecordInv, MachineInv, RecordsAnswered, NestOk, SumSteps, StepOf, WithoutChildren;
    Record(pg, m);
    ThreadKnown(pg, m, p);
    var s := m.session.value;
    var r := E.Commit(s.record, p, c.state, c.node).value;
    m' := Saving(m, E.Bumped(r).value, s.(threads := WithoutChildren(s.threads, p)[p := After(c.state, c.node)]),
                 [CommitEvent(p, s.threads[p].current, c.state, c.node)]);
    assert CommitStep(m, p, Some(c), m');
    Goes(pg, m, step, m');
  }

  // ------------------------------------------------------------------- leaves and calls

  lemma LeafMeaning(pg: Program, tasks: map<TaskId, TaskRecord>, id: InvocationId, g: Graph, state: Json, c: Cursor)
    requires Plain(g) && id.node in g.nodes && g.nodes[id.node].Leaf?
    requires EvalNode(pg.answers, id, g, state) == Some(c)
    ensures var result := Recall(tasks, id, g.nodes[id.node].run(state));
      && result.Some? && result.value.Done?
      && Route(g, id.node, result.value.state, result.value.action) == Some(c)
  {
    assert g.nodes[id.node].run(state).Return?;
  }

  lemma LeafGoes(pg: Program, m: Machine, p: Path, g: Graph, c: Cursor) returns (m': Machine)
    requires Drives(pg, m) && NodeReady(pg, m, p) && NodeOf(pg, m, p).Leaf? && GraphOf(pg, p) == g && Plain(g)
    requires EvalNode(pg.answers, Current(m.session.value, p), g, m.session.value.threads[p].state) == Some(c)
    requires Room(m, 1)
    ensures Drives(pg, m') && Leads(pg, m, m') && |m'.saved| == |m.saved| + 1
    ensures m'.session.value.threads == WithoutChildren(m.session.value.threads, p)[p := After(c.state, c.node)]
    ensures p in Last(m').frames && Commits(Last(m').frames[p]) == m.session.value.threads[p].invocation
  {
    hide Good, Recall, EvalNode, Route, CommitStep, WithoutChildren, GraphAt, Plain, Leads;
    var s := m.session.value;
    LeafMeaning(pg, s.record.tasks, Current(s, p), g, s.threads[p].state, c);
    forall n | CommitStep(m, p, Some(c), n)
      ensures StepOf(pg, m, FinishLeaf(p), n)
    {
    }
    m' := CommitGoes(pg, m, p, c, FinishLeaf(p));
  }

  lemma NestedMeaning(w: Answers, id: InvocationId, g: Graph, state: Json, finals: seq<Json>, c: Cursor)
    requires IsNested(g, id.node) && EvalNode(w, id, g, state) == Some(c)
    requires ChildStates(w, id, g, state, |g.nodes[id.node].calls|) == Some(finals)
    ensures var made := g.nodes[id.node].combine(state, finals);
      made.Some? && Route(g, id.node, made.value, Next) == Some(c)
  {
  }

  lemma NestedGoes(pg: Program, m: Machine, p: Path, g: Graph, c: Cursor) returns (m': Machine)
    requires Drives(pg, m) && NodeReady(pg, m, p) && NodeOf(pg, m, p).Nested? && GraphOf(pg, p) == g
    requires EvalNode(pg.answers, Current(m.session.value, p), g, m.session.value.threads[p].state) == Some(c)
    requires AllReturned(m.session.value, p, NodeOf(pg, m, p).calls) && ChildrenDone(m.session.value.threads, p)
    requires Room(m, 1)
    ensures Drives(pg, m') && Leads(pg, m, m') && |m'.saved| == |m.saved| + 1
    ensures m'.session.value.threads == WithoutChildren(m.session.value.threads, p)[p := After(c.state, c.node)]
    ensures p in Last(m').frames && Commits(Last(m').frames[p]) == m.session.value.threads[p].invocation
  {
    hide MachineInv, RecordsAnswered, EvalNode, Route, CommitStep, WithoutChildren, GraphAt, Leads, ChildStates,
         ChildrenDone;
    var s := m.session.value;
    var calls := NodeOf(pg, m, p).calls;
    ReturnedStatesAreFinal(pg, m, p, |calls|);
    var finals := ReturnedStates(s, p, calls);
    assert finals[..|calls|] == finals;
    NestedMeaning(pg.answers, Current(s, p), g, s.threads[p].state, finals, c);
    forall n | CommitStep(m, p, Some(c), n)
      ensures StepOf(pg, m, FinishNested(p), n)
    {
    }
    m' := CommitGoes(pg, m, p, c, FinishNested(p));
  }

  /** What is left to do from the k-th commit of a frame on. */
  ghost function CostFrom(pg: Program, p: Path, o: Origin, k: nat): nat
    requires k <= o.maxSteps && Traj(pg.answers, p, o.graph, o.input, k).Some?
  {
    Cost(pg.answers, p, o.graph, k, Traj(pg.answers, p, o.graph, o.input, k).value, o.maxSteps - k)
  }

  lemma {:induction false} CostLeft(pg: Program, p: Path, o: Origin, k: nat, n: nat)
    requires k <= n <= o.maxSteps && Traj(pg.answers, p, o.graph, o.input, n).Some?
    ensures Traj(pg.answers, p, o.graph, o.input, k).Some?
    ensures CostFrom(pg, p, o, k) <= CostOfRun(pg.answers, p, o.graph, o.input, o.maxSteps)
    decreases k
  {
    hide Traj, Cost, EvalNode, NodeCost, StepAt;
    TrajPrefix(pg.answers, p, o.graph, o.input, k, n);
    AtStart(pg.answers, p, o.graph, o.input);
    if k > 0 {
      NextIsThere(pg, p, o, k - 1, n);
      CostStep(pg, p, o, k - 1);
      CostLeft(pg, p, o, k - 1, n);
    }
  }

  /** Where a recorded frame of a successful run stands. */
  lemma FrameStands(pg: Program, frames: map<Path, FrameRecord>, p: Path)
    requires Proper(pg, frames) && p in frames && Succeeds(pg, p)
    ensures var o := OriginOf(pg, p).value; var k := Commits(frames[p]);
      && frames[p].signature == o.graph.signature && frames[p].maxSteps == o.maxSteps
      && 0 <= k <= o.maxSteps
      && Traj(pg.answers, p, o.graph, o.input, k) == Some(Cursor(frames[p].nextNode, frames[p].state))
      && (frames[p].nextNode.Some? ==> StepAt(pg, p, o, k) && frames[p].nextNode.value in o.graph.nodes)
      && CostFrom(pg, p, o, k) <= CostOfRun(pg.answers, p, o.graph, o.input, o.maxSteps)
  {
    hide Traj, Cost, EvalNode, OriginOf, ParentsOk, Meaning, CostFrom, CostOfRun;
    var o, k := OriginOf(pg, p).value, Commits(frames[p]);
    assert FrameOk(pg, p, frames[p]);
    CostLeft(pg, p, o, k, k);
    if frames[p].nextNode.Some? {
      var n := Ahead(pg, frames, p, o);
      NextIsThere(pg, p, o, k, n);
      NextTraj(pg, p, o, k);
      if frames[p].nextNode.value !in o.graph.nodes {
        NoSuchNode(pg.answers, NextId(pg, p, o, k), o.graph, frames[p].state);
      }
    }
  }

  // ---------------------------------------------------------------------- whole frames

  /** What the entered frame still has to do. */
  ghost predicate Standing(pg: Program, m: Machine, p: Path)
  {
    && m.saved != [] && p in Last(m).frames && OriginOf(pg, p).Some?
    && var o := OriginOf(pg, p).value; var k := Commits(Last(m).frames[p]);
       && 0 <= k <= o.maxSteps && Traj(pg.answers, p, o.graph, o.input, k).Some?
  }

  ghost function LeftOver(pg: Program, m: Machine, p: Path): nat
    requires Standing(pg, m, p)
  {
    CostFrom(pg, p, OriginOf(pg, p).value, Commits(Last(m).frames[p]))
  }

  lemma Stands(pg: Program, m: Machine, p: Path)
    requires Drives(pg, m) && p in Last(m).frames && Succeeds(pg, p)
    ensures Standing(pg, m, p)
    ensures var o := OriginOf(pg, p).value; LeftOver(pg, m, p) <= CostOfRun(pg.answers, p, o.graph, o.input, o.maxSteps)
  {
    hide Drives, Traj, CostOfRun, CostFrom, OriginOf, Proper, RecordInv, Meaning;
    Record(pg, m);
    FrameStands(pg, Last(m).frames, p);
  }

  lemma EnterKnownGoes(pg: Program, m: Machine, p: Path) returns (m': Machine)
    requires Drives(pg, m) && p !in m.session.value.threads && Callable(pg, m.session.value, p) && Succeeds(pg, p)
    requires p in Last(m).frames
    ensures Drives(pg, m') && Leads(pg, m, m') && m'.saved == m.saved && p in Last(m').frames
    ensures m'.session.value.threads
         == m.session.value.threads[p := After(Last(m).frames[p].state, Last(m).frames[p].nextNode)]
  {
    hide Proper, RecordInv, MachineInv, RecordsAnswered, Callable, CalledOrigin, OriginOf, Meaning, CostFrom, CostOfRun,
         Traj, StepAt, NestOk, ThreadOk, SumSteps;
    Record(pg, m);
    LiveThreads(pg, m);
    var s := m.session.value;
    ProperCursors(pg, Last(m).frames);
    CalledIsOrigin(pg, s, p);
    FrameStands(pg, Last(m).frames, p);
    var f := Last(m).frames[p];
    m' := m.(session := Some(s.(threads := s.threads[p := After(f.state, f.nextNode)])));
    Goes(pg, m, Enter(p), m');
  }

  lemma LiveThreads(pg: Program, m: Machine)
    requires Drives(pg, m)
    ensures ThreadsOk(m.session.value.record, m.session.value.threads)
  {
    hide StoreOk, PaidOk, InFlightOk, ThreadOk, NestOk, RecordsAnswered;
  }

  lemma EnterNewGoes(pg: Program, m: Machine, p: Path) returns (m': Machine)
    requires Drives(pg, m) && p !in m.session.value.threads && Callable(pg, m.session.value, p) && Succeeds(pg, p)
    requires p !in Last(m).frames && Room(m, 1)
    ensures Drives(pg, m') && Leads(pg, m, m') && |m'.saved| == |m.saved| + 1 && p in Last(m').frames
    ensures m'.session.value.threads
         == m.session.value.threads[p := After(Last(m').frames[p].state, Last(m').frames[p].nextNode)]
  {
    hide Proper, RecordInv, MachineInv, RecordsAnswered, Callable, CalledOrigin, OriginOf, Meaning;
    Record(pg, m);
    LiveThreads(pg, m);
    var s := m.session.value;
    ProperCursors(pg, Last(m).frames);
    CalledIsOrigin(pg, s, p);
    var o := CalledOrigin(pg, s, p);
    var r := E.OpenFrame(s.record, p, E.NewFrame(o.graph, o.input, o.maxSteps));
    m' := Saving(m, E.Bumped(r).value, s.(threads := s.threads[p := Head(o.graph.start, o.input)]), []);
    assert m'.commits == m.commits;
    Goes(pg, m, Enter(p), m');
  }

  /** A thread in front of a node has called nothing. */
  lemma HeadChildless(pg: Program, m: Machine, p: Path)
    requires Drives(pg, m) && p in m.session.value.threads && !m.session.value.threads[p].InNode?
    ensures Childless(m.session.value.threads, p)
  {
    hide StoreOk, PaidOk, InFlightOk, ThreadOk, RecordsAnswered;
    forall q | q in m.session.value.threads
      ensures !(q.Child? && q.parent == p)
    {
      assert NestOk(m.session.value.threads, q);
    }
  }

  /** The first `n` nested runs have returned, and nothing else has changed. */
  ghost predicate Ran(threads: map<Path, Thread>, threads': map<Path, Thread>, id: InvocationId, calls: seq<Call>,
                      n: nat)
    requires n <= |calls|
  {
    && (forall q | q in threads :: q in threads' && threads'[q] == threads[q])
    && (forall q | q in threads' && q !in threads :: IsCall(q, id, calls, n))
    && (forall j | 0 <= j < n :: CallReturned(threads', id, calls[j]))
  }

  ghost predicate IsCall(q: Path, id: InvocationId, calls: seq<Call>, n: nat)
    requires n <= |calls|
  {
    exists j :: 0 <= j < n && q == NestedPath(id, calls[j].name)
  }

  predicate CallReturned(threads: map<Path, Thread>, id: InvocationId, call: Call) {
    NestedPath(id, call.name) in threads && threads[NestedPath(id, call.name)].Returned?
  }

  lemma RanMore(threads: map<Path, Thread>, threads': map<Path, Thread>, threads'': map<Path, Thread>,
                id: InvocationId, calls: seq<Call>, n: nat)
    requires n < |calls| && Ran(threads, threads', id, calls, n)
    requires var q := NestedPath(id, calls[n].name);
      q !in threads' && q in threads'' && threads''[q].Returned? && threads'' == threads'[q := threads''[q]]
    ensures Ran(threads, threads'', id, calls, n + 1)
  {
    forall q | q in threads'' && q !in threads
      ensures IsCall(q, id, calls, n + 1)
    {
      if q in threads' {
        assert IsCall(q, id, calls, n);
      }
    }
    forall j | 0 <= j < n + 1
      ensures CallReturned(threads'', id, calls[j])
    {
      if j < n {
        assert CallReturned(threads', id, calls[j]);
      }
    }
  }

  lemma NotRunYet(threads: map<Path, Thread>, threads': map<Path, Thread>, id: InvocationId, calls: seq<Call>, n: nat)
    requires n < |calls| && Ran(threads, threads', id, calls, n) && DistinctCalls(calls)
    requires Childless(threads, id.frame)
    ensures NestedPath(id, calls[n].name) !in threads'
  {
    hide IsCall, DistinctCalls;
    NoEarlierCall(id, calls, n);
  }

  lemma NoEarlierCall(id: InvocationId, calls: seq<Call>, n: nat)
    requires n < |calls| && DistinctCalls(calls)
    ensures !IsCall(NestedPath(id, calls[n].name), id, calls, n)
  {
  }

  /** A nested call of a running invocation may be entered, and succeeds. */
  lemma CallReady(pg: Program, m: Machine, p: Path, k: nat, c: Cursor, i: nat)
    requires Drives(pg, m) && InvocationOf(m.session.value, p)
    requires GraphAt(pg.graph, p).Some? && OriginOf(pg, p).Some? && GraphOf(pg, p) == OriginOf(pg, p).value.graph
    requires var t := m.session.value.threads[p];
      && t.invocation == k + 1 && Means(pg, p, t.current, k, t.state, c)
      && IsNested(GraphOf(pg, p), t.current) && i < |GraphOf(pg, p).nodes[t.current].calls|
    ensures var s := m.session.value; var g := GraphOf(pg, p);
      var call := g.nodes[s.threads[p].current].calls[i];
      var q := NestedPath(Current(s, p), call.name);
      && DistinctCalls(g.nodes[s.threads[p].current].calls)
      && Callable(pg, s, q) && Succeeds(pg, q)
      && OriginOf(pg, q) == Some(Origin(call.graph, call.project(s.threads[p].state), call.maxSteps))
  {
    hide Good, OriginOf, EvalNode, Traj, GraphAt, StepAt, Meaning, RunResult;
    var s := m.session.value;
    var o := OriginOf(pg, p).value;
    ProgramProper(pg, m);
    NestedRun(pg, p, o.graph, o, k, i);
    var calls := o.graph.nodes[s.threads[p].current].calls;
    DistinctIndex(calls, i);
  }

  lemma ProgramProper(pg: Program, m: Machine)
    requires Good(pg, m)
    ensures ProgramOk(pg)
  {
  }

  ghost predicate Childless(threads: map<Path, Thread>, p: Path) {
    forall q | q in threads :: !(q.Child? && q.parent == p)
  }

  /** Run the first `n` nested calls of an invocation. */
  lemma {:induction false} DriveCalls(pg: Program, m: Machine, p: Path, g: Graph, k: nat, c: Cursor, n: nat)
    returns (m': Machine)
    requires Drives(pg, m) && InvocationOf(m.session.value, p) && Childless(m.session.value.threads, p)
    requires GraphAt(pg.graph, p) == Some(g) && OriginOf(pg, p).Some? && g == OriginOf(pg, p).value.graph
    requires var t := m.session.value.threads[p];
      && t.invocation == k + 1 && Means(pg, p, t.current, k, t.state, c)
      && IsNested(g, t.current) && n <= |g.nodes[t.current].calls|
    requires Plain(g) && Affordable(pg)
    requires var s := m.session.value;
      Room(m, 3 * CallsCost(pg.answers, Current(s, p), g, s.threads[p].state, n))
    ensures Drives(pg, m') && Leads(pg, m, m')
    ensures var s := m.session.value;
      && |m'.saved| <= |m.saved| + 3 * CallsCost(pg.answers, Current(s, p), g, s.threads[p].state, n)
      && Ran(s.threads, m'.session.value.threads, Current(s, p), g.nodes[s.threads[p].current].calls, n)
    decreases g, 0, n
  {
    hide Good, Traj, OriginOf, EvalNode, Cost, Meaning, Leads, Affordable, StepAt, Ran, Means, Callable, DistinctCalls,
         GraphAt, Plain, Childless;
    var s := m.session.value;
    var id, calls := Current(s, p), g.nodes[s.threads[p].current].calls;
    if n == 0 {
      m' := m;
      Stays(pg, m);
      RanNothing(s.threads, id, calls);
    } else {
      var call := calls[n - 1];
      var q := NestedPath(id, call.name);
      var m1 := DriveCalls(pg, m, p, g, k, c, n - 1);
      StillRuns(s.threads, m1.session.value.threads, id, calls, n - 1, p);
      CallReady(pg, m1, p, k, c, n - 1);
      NotRunYet(s.threads, m1.session.value.threads, id, calls, n - 1);
      PlainCall(g, s.threads[p].current, n - 1);
      m' := DriveCall(pg, m1, q, call.graph);
      LeadsOn(pg, m, m1, m');
      RanMore(s.threads, m1.session.value.threads, m'.session.value.threads, id, calls, n - 1);
    }
  }

  lemma Stays(pg: Program, m: Machine)
    requires Drives(pg, m)
    ensures Leads(pg, m, m)
  {
    hide MachineInv;
    LeadsNowhere(pg, m);
  }

  lemma RanNothing(threads: map<Path, Thread>, id: InvocationId, calls: seq<Call>)
    ensures Ran(threads, threads, id, calls, 0)
  {
  }

  lemma StillRuns(threads: map<Path, Thread>, threads': map<Path, Thread>, id: InvocationId, calls: seq<Call>, n: nat,
                  p: Path)
    requires n <= |calls| && Ran(threads, threads', id, calls, n) && p in threads
    ensures p in threads' && threads'[p] == threads[p]
  {
  }

  lemma PlainCall(g: Graph, node: string, i: nat)
    requires Plain(g) && IsNested(g, node) && i < |g.nodes[node].calls|
    ensures Plain(g.nodes[node].calls[i].graph)
  {
  }

  /** Enter a frame and drive it to its end. */
  lemma {:induction false} DriveCall(pg: Program, m: Machine, q: Path, g: Graph) returns (m': Machine)
    requires Drives(pg, m) && q !in m.session.value.threads && Callable(pg, m.session.value, q)
    requires Succeeds(pg, q) && g == OriginOf(pg, q).value.graph && Plain(g) && Affordable(pg)
    requires var o := OriginOf(pg, q).value; Room(m, 3 * CostOfRun(pg.answers, q, g, o.input, o.maxSteps))
    ensures Drives(pg, m') && Leads(pg, m, m')
    ensures var o := OriginOf(pg, q).value;
      |m'.saved| <= |m.saved| + 3 * CostOfRun(pg.answers, q, g, o.input, o.maxSteps)
    ensures q in m'.session.value.threads && m'.session.value.threads[q].Returned?
    ensures m'.session.value.threads == m.session.value.threads[q := m'.session.value.threads[q]]
    decreases g, 3
  {
    hide Good, Traj, OriginOf, EvalNode, Meaning, Leads, Affordable, StepAt, Callable, Plain, CostOfRun, Standing,
         LeftOver;
    SomeSaved(pg, m);
    var o := OriginOf(pg, q).value;
    RunCosts(pg, q);
    var m1: Machine;
    if q in Last(m).frames {
      m1 := EnterKnownGoes(pg, m, q);
    } else {
      m1 := EnterNewGoes(pg, m, q);
    }
    if m1.session.value.threads[q].Head? {
      Stands(pg, m1, q);
      m' := DriveFrame(pg, m1, q, g);
      LeadsOn(pg, m, m1, m');
    } else {
      m' := m1;
    }
  }

  lemma RunCosts(pg: Program, q: Path)
    requires Succeeds(pg, q)
    ensures var o := OriginOf(pg, q).value; CostOfRun(pg.answers, q, o.graph, o.input, o.maxSteps) >= 1
  {
    hide OriginOf, EvalNode, NodeCost;
  }

  /** Run the node of an invocation and commit. */
  lemma {:induction false} DriveNode(pg: Program, m: Machine, p: Path, g: Graph, k: nat, c: Cursor)
    returns (m': Machine)
    requires Drives(pg, m) && NodeReady(pg, m, p) && Childless(m.session.value.threads, p)
    requires GraphAt(pg.graph, p) == Some(g) && OriginOf(pg, p).Some? && g == OriginOf(pg, p).value.graph
    requires var t := m.session.value.threads[p]; t.invocation == k + 1 && Means(pg, p, t.current, k, t.state, c)
    requires Plain(g) && Affordable(pg)
    requires var s := m.session.value;
      Room(m, 3 * NodeCost(pg.answers, Current(s, p), g, s.threads[p].state) + 1)
    ensures Drives(pg, m') && Leads(pg, m, m')
    ensures var s := m.session.value;
      |m'.saved| <= |m.saved| + 3 * NodeCost(pg.answers, Current(s, p), g, s.threads[p].state) + 1
    ensures m'.session.value.threads == m.session.value.threads[p := After(c.state, c.node)]
    ensures p in Last(m').frames && Commits(Last(m').frames[p]) == k + 1
    decreases g, 1
  {
    hide Good, Traj, OriginOf, EvalNode, Meaning, Leads, Affordable, StepAt, Plain, WithoutChildren, Childless, GraphAt,
         Ran;
    var s := m.session.value;
    NoneRemoved(s.threads, p, After(c.state, c.node));
    NotBarrier(g, s.threads[p].current);
    if IsNested(g, s.threads[p].current) {
      var calls := g.nodes[s.threads[p].current].calls;
      var m1 := DriveCalls(pg, m, p, g, k, c, |calls|);
      StillRuns(s.threads, m1.session.value.threads, Current(s, p), calls, |calls|, p);
      RanAll(s.threads, m1.session, p, calls, After(c.state, c.node));
      m' := NestedGoes(pg, m1, p, g, c);
      LeadsOn(pg, m, m1, m');
    } else {
      m' := LeafGoes(pg, m, p, g, c);
    }
  }

  lemma NotBarrier(g: Graph, node: string)
    requires Plain(g) && node in g.nodes
    ensures g.nodes[node].Leaf? || g.nodes[node].Nested?
  {
  }

  lemma NoneRemoved(threads: map<Path, Thread>, p: Path, t: Thread)
    requires Childless(threads, p)
    ensures WithoutChildren(threads, p)[p := t] == threads[p := t]
  {
  }

  /** Once all calls have returned, a commit leaves the threads that were there before them. */
  lemma RanAll(threads: map<Path, Thread>, session: Option<Session>, p: Path, calls: seq<Call>, t: Thread)
    requires session.Some? && InvocationOf(session.value, p) && Childless(threads, p) && p in threads
    requires Ran(threads, session.value.threads, Current(session.value, p), calls, |calls|)
    ensures AllReturned(session.value, p, calls) && ChildrenDone(session.value.threads, p)
    ensures WithoutChildren(session.value.threads, p)[p := t] == threads[p := t]
  {
    var s := session.value;
    forall i | 0 <= i < |calls|
      ensures ChildOf(s, p, calls[i].name) in s.threads && s.threads[ChildOf(s, p, calls[i].name)].Returned?
    {
      assert CallReturned(s.threads, Current(s, p), calls[i]);
    }
    forall q | q in s.threads && q.Child? && q.parent == p
      ensures s.threads[q].Returned?
    {
      assert IsCall(q, Current(s, p), calls, |calls|);
    }
    forall q | q in s.threads && q !in threads
      ensures q.Child? && q.parent == p
    {
      assert IsCall(q, Current(s, p), calls, |calls|);
    }
  }

  /** What the step after the k-th commit costs. */
  lemma StepCost(pg: Program, m: Machine, p: Path, o: Origin, k: nat, t: Thread, c: Cursor)
    requires OriginOf(pg, p) == Some(o) && t.InNode? && Means(pg, p, t.current, k, t.state, c)
    requires Standing(pg, m, p) && Commits(Last(m).frames[p]) == k
    ensures k < o.maxSteps && Traj(pg.answers, p, o.graph, o.input, k + 1) == Some(c)
    ensures LeftOver(pg, m, p)
         == 1 + NodeCost(pg.answers, InvocationId(p, t.current, k + 1), o.graph, t.state) + CostFrom(pg, p, o, k + 1)
  {
    hide OriginOf, EvalNode, Cost, NodeCost, Traj;
    CostStep(pg, p, o, k);
  }

  lemma StandsNext(pg: Program, m: Machine, p: Path, o: Origin, k: nat, c: Cursor)
    requires m.saved != [] && p in Last(m).frames && Commits(Last(m).frames[p]) == k + 1
    requires OriginOf(pg, p) == Some(o) && k < o.maxSteps && Traj(pg.answers, p, o.graph, o.input, k + 1) == Some(c)
    ensures Standing(pg, m, p) && LeftOver(pg, m, p) == CostFrom(pg, p, o, k + 1)
  {
    hide OriginOf, EvalNode, Cost, Traj;
  }

  lemma SomeSaved(pg: Program, m: Machine)
    requires Drives(pg, m)
    ensures m.saved != [] && m.session.Some?
  {
    Record(pg, m);
  }

  /** Drive a frame from in front of a node to its end. */
  lemma {:induction false} DriveFrame(pg: Program, m: Machine, p: Path, g: Graph) returns (m': Machine)
    requires Drives(pg, m) && p in m.session.value.threads && m.session.value.threads[p].Head?
    requires Succeeds(pg, p) && g == OriginOf(pg, p).value.graph && Plain(g) && Affordable(pg)
    requires Standing(pg, m, p) && Room(m, 3 * LeftOver(pg, m, p) - 1)
    ensures Drives(pg, m') && Leads(pg, m, m') && |m'.saved| + 1 <= |m.saved| + 3 * LeftOver(pg, m, p)
    ensures p in m'.session.value.threads && m'.session.value.threads[p].Returned?
    ensures m'.session.value.threads == m.session.value.threads[p := m'.session.value.threads[p]]
    decreases g, 2, OriginOf(pg, p).value.maxSteps - Commits(Last(m).frames[p])
  {
    hide Good, Traj, OriginOf, EvalNode, Cost, Meaning, Leads, Affordable, Plain, StepAt, NodeCost, CostFrom, LeftOver,
         Means, GraphAt, Childless;
    var o, k := OriginOf(pg, p).value, Commits(Last(m).frames[p]);
    HeadChildless(pg, m, p);
    HeadCosts(pg, m, p);
    var m1 := BeginGoes(pg, m, p);
    var c := NodeMeans(pg, m1, p);
    StepCost(pg, m, p, o, k, m1.session.value.threads[p], c);
    SameKeysChildless(m.session.value.threads, m1.session.value.threads, p);
    var m2 := DriveNode(pg, m1, p, g, k, c);
    LeadsOn(pg, m, m1, m2);
    SomeSaved(pg, m2);
    StandsNext(pg, m2, p, o, k, c);
    if c.node.None? {
      m' := m2;
    } else {
      m' := DriveFrame(pg, m2, p, g);
      LeadsOn(pg, m, m2, m');
    }
  }

  lemma HeadCosts(pg: Program, m: Machine, p: Path)
    requires Drives(pg, m) && p in m.session.value.threads && m.session.value.threads[p].Head?
    requires Succeeds(pg, p) && Standing(pg, m, p)
    ensures LeftOver(pg, m, p) >= 1
  {
    hide Good, Traj, OriginOf, EvalNode, Cost, NodeCost, Meaning, CostOfRun, Proper, RecordInv, NestOk;
    Record(pg, m);
    ThreadKnown(pg, m, p);
    FrameStands(pg, Last(m).frames, p);
    CostStep(pg, p, OriginOf(pg, p).value, Commits(Last(m).frames[p]));
  }

  lemma SameKeysChildless(threads: map<Path, Thread>, threads': map<Path, Thread>, p: Path)
    requires Childless(threads, p) && threads'.Keys == threads.Keys
    ensures Childless(threads', p)
  {
    forall q | q in threads'
      ensures !(q.Child? && q.parent == p)
    {
      assert q in threads;
    }
  }

  // ------------------------------------------------------------------------ whole runs

  lemma {:induction false} PlainAt(pg: Program, p: Path)
    requires Plain(pg.graph) && OriginOf(pg, p).Some?
    ensures Plain(OriginOf(pg, p).value.graph)
  {
    hide EvalNode, Traj;
    if p.Child? {
      PlainAt(pg, p.parent);
      var g := OriginOf(pg, p.parent).value.graph;
      PlainCall(g, p.node, CallIndex(g.nodes[p.node].calls, p.name));
    }
  }

  /** A program without barriers asks for no decision. */
  lemma NothingAsked(pg: Program, r: RunRecord)
    requires RecordInv(pg, r) && Plain(pg.graph)
    ensures r.approvals == map[]
  {
    hide EvalNode, Traj, OriginOf, Plain, CursorAt;
    forall id | id in r.approvals ensures false {
      assert ApprovalOk(pg, r, id, r.approvals[id]);
      PlainAt(pg, id.frame);
      NotBarrier(OriginOf(pg, id.frame).value.graph, id.node);
    }
  }

  /** The run is not over, and no task waits for anybody. */
  predicate Resumable(m: Machine) {
    m.saved != [] ==>
      && C.Open(Last(m).status)
      && forall id | id in Last(m).tasks :: Last(m).tasks[id].status != TaskStatus.Unknown
  }

  /** A lease that has only just loaded its record. */
  predicate Leased(m: Machine) {
    && m.saved != [] && m.session == Some(Session(Last(m), false, false, Loaded, false, map[], {}, {}))
  }

  lemma StartGoes(pg: Program, m: Machine) returns (m': Machine)
    requires Good(pg, m) && m.session.None? && m.saved == []
    ensures Good(pg, m') && Leads(pg, m, m') && Leased(m') && Resumable(m') && |m'.saved| == 1
  {
    hide MachineInv, RecordsAnswered;
    var r := E.RootRecord(pg.runId, pg.version, pg.graph, pg.input, pg.maxSteps);
    m' := m.(saved := [r], session := Some(Session(r, false, false, Loaded, false, map[], {}, {})));
    Goes(pg, m, StartRun, m');
  }

  lemma ResumeGoes(pg: Program, m: Machine) returns (m': Machine)
    requires Good(pg, m) && m.session.None? && m.saved != [] && Resumable(m)
    ensures Good(pg, m') && Leads(pg, m, m') && Leased(m') && Resumable(m') && m'.saved == m.saved
  {
    hide MachineInv, RecordsAnswered, Validate;
    var i := |m.saved| - 1;
    LastValid(pg, m);
    m' := m.(session := Some(Session(Last(m), false, false, Loaded, false, map[], {}, {})));
    Goes(pg, m, Step.Resume, m');
  }

  lemma LastValid(pg: Program, m: Machine)
    requires ProgramOk(pg) && MachineInv(pg, m) && m.saved != []
    ensures RecordInv(pg, Last(m)) && Validate(Last(m)) == Ok(())
    ensures Last(m).runId == pg.runId && Last(m).version == pg.version && Last(m).revision == |m.saved| - 1
    ensures Root in Last(m).frames && Last(m).frames[Root].signature == pg.graph.signature
  {
    hide ParentsOk, ChildrenOk, ApprovalsOk, LogOk, Validate, Traj;
    assert RecordInv(pg, Last(m));
    InvValidates(pg, Last(m));
    assert FrameOk(pg, Root, Last(m).frames[Root]);
  }

  lemma ExecuteGoes(pg: Program, m: Machine) returns (m': Machine)
    requires Good(pg, m) && Leased(m) && Resumable(m) && Plain(pg.graph) && Room(m, 1)
    ensures Drives(pg, m') && Leads(pg, m, m') && |m'.saved| == |m.saved| + 1 && m'.session.value.threads == map[]
  {
    hide MachineInv, RecordsAnswered, Plain, Validate, RecordInv;
    LastValid(pg, m);
    NothingAsked(pg, Last(m));
    var s := m.session.value;
    var r := E.SetStatus(s.record, RunStatus.Running);
    m' := Saving(m, E.Bumped(r).value, s.(phase := Driving), []);
    assert m'.commits == m.commits;
    Goes(pg, m, Execute(0), m');
  }

  lemma CompleteGoes(pg: Program, m: Machine) returns (m': Machine)
    requires Drives(pg, m) && Root in m.session.value.threads && m.session.value.threads[Root].Returned? && Room(m, 1)
    ensures Good(pg, m') && Leads(pg, m, m') && m'.saved != [] && Last(m').status == RunStatus.Completed
  {
    hide MachineInv, RecordsAnswered, RecordInv, Proper, SumSteps;
    Record(pg, m);
    var s := m.session.value;
    var r := E.SetStatus(s.record, RunStatus.Completed);
    m' := Saving(m, E.Bumped(r).value, s.(phase := Finished, threads := map[]), []);
    assert m'.commits == m.commits;
    Goes(pg, m, CompleteRun, m');
  }

  lemma ReleaseGoes(pg: Program, m: Machine) returns (m': Machine)
    requires Good(pg, m)
    ensures Good(pg, m') && Leads(pg, m, m') && m' == m.(session := None)
  {
    hide MachineInv, RecordsAnswered;
    m' := m.(session := None);
    if m.session.Some? {
      Goes(pg, m, Release, m');
    } else {
      LeadsNowhere(pg, m);
    }
  }

  lemma RootSucceeds(pg: Program)
    requires Affordable(pg)
    ensures Succeeds(pg, Root) && OriginOf(pg, Root) == Some(Origin(pg.graph, pg.input, pg.maxSteps))
  {
  }

  /** Some way completes the run. */
  lemma WayToEnd(pg: Program, m: Machine) returns (m': Machine)
    requires Good(pg, m) && Resumable(m) && Plain(pg.graph) && Affordable(pg) && Room(m, 3 * ProgramCost(pg) + 3)
    ensures Good(pg, m') && Leads(pg, m, m') && m'.saved != [] && Last(m').status == RunStatus.Completed
  {
    hide MachineInv, RecordsAnswered, Plain, Leads, Affordable, CostOfRun, Succeeds;
    var rest := ReleaseGoes(pg, m);
    var leased: Machine;
    if m.saved == [] {
      leased := StartGoes(pg, rest);
    } else {
      leased := ResumeGoes(pg, rest);
    }
    LeadsOn(pg, m, rest, leased);
    var driven := ExecuteGoes(pg, leased);
    LeadsOn(pg, m, leased, driven);
    RootSucceeds(pg);
    var ended := DriveCall(pg, driven, Root, pg.graph);
    LeadsOn(pg, m, driven, ended);
    m' := CompleteGoes(pg, ended);
    LeadsOn(pg, m, ended, m');
  }

  lemma ReachableGood(pg: Program, m: Machine)
    requires ProgramOk(pg) && Reachable(pg, m)
    ensures Good(pg, m)
  {
    hide MachineInv, RecordsAnswered, StepOf;
    ReachableInv(pg, m);
  }

  /** Wherever a run of a program that nobody need act on was interrupted, if the program has a result it can
      afford, some continuation completes it. */
  lemma InterruptedCompletes(pg: Program, m: Machine) returns (m': Machine)
    requires ProgramOk(pg) && Reachable(pg, m) && Resumable(m)
    requires Plain(pg.graph) && Affordable(pg) && Room(m, 3 * ProgramCost(pg) + 3)
    ensures Reachable(pg, m') && Leads(pg, m, m') && m'.saved != [] && Last(m').status == RunStatus.Completed
  {
    hide Reachable, Good, Leads, Affordable, CostOfRun, Plain;
    ReachableGood(pg, m);
    m' := WayToEnd(pg, m);
    LeadsReachable(pg, m, m');
  }

  ghost predicate Completable(pg: Program) {
    exists m :: Reachable(pg, m) && m.saved != [] && Last(m).status == RunStatus.Completed
  }

  lemma InitialReachable(pg: Program)
    ensures Reachable(pg, INITIAL)
  {
    assert IsRun(pg, [INITIAL], []);
  }

  /** Such a program has a completing run if and only if it has a result and its cost, nested runs included,
      is within its budget. */
  lemma CompletesExactly(pg: Program)
    requires ProgramOk(pg) && Plain(pg.graph) && 3 * pg.maxSteps + 3 <= U64_MAX
    ensures Completable(pg) <==> ProgramResult(pg).Some? && ProgramCost(pg) <= pg.maxSteps
  {
    hide Reachable, CostOfRun, Plain, Leads, RunResult;
    if Completable(pg) {
      var m :| Reachable(pg, m) && m.saved != [] && Last(m).status == RunStatus.Completed;
      StepsAreCost(pg, m, |m.saved| - 1);
    }
    if Affordable(pg) {
      InitialReachable(pg);
      var m := InterruptedCompletes(pg, INITIAL);
    }
  }
}
