/** Safety of the durable run protocol: an invariant of every machine state of every run. */
module RunSafety {
  import opened Wrappers
  import opened GraphCore
  import opened RunModel
  import opened RunInvariant
  import opened RunProtocol
  import E = ScopeEdits
  import C = RunCalls

  // ---------------------------------------------------------------- invariant

  /** A thread's memory agrees with the persisted frame it works on. */
  predicate ThreadOk(frames: map<Path, FrameRecord>, approvals: map<InvocationId, ApprovalRequest>, p: Path,
                     t: Thread)
  {
    && p in frames
    && match t
       case Head(current, state) => frames[p].nextNode == Some(current) && frames[p].state == state
       case InNode(current, invocation, state, cleared) =>
         && frames[p].active && frames[p].nextNode == Some(current)
         && frames[p].stepsUsed == invocation && frames[p].state == state
         && (cleared ==> InvocationId(p, current, invocation) in approvals
                         && Approved(approvals[InvocationId(p, current, invocation)]))
       case Returned(state) => frames[p].nextNode == None && frames[p].state == state
       case Halted(_) => true
  }

  /** A nested frame runs only inside the invocation that called it. */
  predicate NestOk(threads: map<Path, Thread>, p: Path) {
    p.Child? ==>
      && p.parent in threads && threads[p.parent].InNode?
      && threads[p.parent].current == p.node && threads[p.parent].invocation == p.invocation
  }

  predicate ThreadsOk(r: RunRecord, threads: map<Path, Thread>) {
    && (forall p | p in threads :: ThreadOk(r.frames, r.approvals, p, threads[p]))
    && (forall p | p in threads :: NestOk(threads, p))
  }

  ghost predicate InFlightOk(r: RunRecord, s: Session) {
    && s.starting !! s.acting
    && forall id | InFlight(s, id) :: id in r.tasks && r.tasks[id].status == TaskStatus.Started
  }

  function Attempts(tasks: map<TaskId, TaskRecord>, id: TaskId): nat {
    if id in tasks then tasks[id].attempts else 0
  }

  /** Every launch was paid for by a saved attempt, and so will be the pending ones. */
  predicate LaunchesOk(launches: seq<TaskId>, starting: set<TaskId>, tasks: map<TaskId, TaskRecord>) {
    && (forall id | id in launches :: multiset(launches)[id] <= Attempts(tasks, id))
    && (forall id | id in starting :: multiset(launches)[id] + 1 <= Attempts(tasks, id))
  }

  /** The commits of one frame, in order. */
  function CommitsOf(log: seq<CommitEvent>, p: Path): seq<CommitEvent> {
    if log == [] then []
    else
      var before := CommitsOf(log[..|log| - 1], p);
      var last := log[|log| - 1];
      if last.frame == p then before + [last] else before
  }

  /** The k-th commit of a frame is the k-th step of its graph's meaning. */
  ghost predicate EventOk(pg: Program, p: Path, k: nat, ev: CommitEvent) {
    && CursorAt(pg, p, k).Some? && CursorAt(pg, p, k).value.node == Some(ev.node)
    && CursorAt(pg, p, k + 1) == Some(Cursor(ev.next, ev.state))
  }

  function CommitCount(frames: map<Path, FrameRecord>, p: Path): int {
    if p in frames then Commits(frames[p]) else 0
  }

  ghost predicate FrameLogOk(pg: Program, log: seq<CommitEvent>, frames: map<Path, FrameRecord>, p: Path) {
    && |CommitsOf(log, p)| == CommitCount(frames, p)
    && forall k | 0 <= k < |CommitsOf(log, p)| :: EventOk(pg, p, k, CommitsOf(log, p)[k])
  }

  ghost predicate LogOk(pg: Program, log: seq<CommitEvent>, frames: map<Path, FrameRecord>) {
    forall p :: FrameLogOk(pg, log, frames, p)
  }

  ghost predicate SavedOk(pg: Program, saved: seq<RunRecord>) {
    forall i | 0 <= i < |saved| :: RecordInv(pg, saved[i]) && saved[i].revision == i
  }

  /** The records and the log, whoever holds the lease. */
  ghost predicate StoreOk(pg: Program, m: Machine) {
    && SavedOk(pg, m.saved)
    && (m.saved == [] ==> m.session.None? && m.commits == [] && m.launches == [])
    && (m.saved != [] ==> LogOk(pg, m.commits, Last(m).frames) && LaunchesOk(m.launches, {}, Last(m).tasks))
  }

  /** What holds of a lease even after a failed save: every action still to be launched is paid for. */
  ghost predicate PaidOk(m: Machine) {
    m.session.Some? ==> m.saved != [] && LaunchesOk(m.launches, m.session.value.starting, Last(m).tasks)
  }

  ghost predicate LeaseOk(pg: Program, m: Machine) {
    m.session.Some? && !m.session.value.poisoned ==>
      && m.saved != []
      && var s := m.session.value;
         && s.record == Last(m)
         && ThreadsOk(s.record, s.threads)
         && InFlightOk(s.record, s)
  }

  ghost predicate MachineInv(pg: Program, m: Machine) {
    StoreOk(pg, m) && PaidOk(m) && LeaseOk(pg, m)
  }

  // -------------------------------------------------------------- one save

  /** A session that may go on as `s` after saving `r`. */
  ghost predicate MaySave(pg: Program, m: Machine, r: RunRecord, s: Session, log: seq<CommitEvent>) {
    && m.saved != [] && r.revision == Last(m).revision
    && RecordInv(pg, r)
    && ThreadsOk(r, s.threads)
    && InFlightOk(r, s) && (m.session.Some? ==> m.session.value.starting <= s.starting)
    && LogOk(pg, m.commits + log, r.frames)
    && LaunchesOk(m.launches, s.starting, r.tasks)
  }

  /** Whatever becomes of a save, the invariant is kept. */
  lemma PersistInv(pg: Program, m: Machine, edited: Result<RunRecord, DurableError>, s: Session,
                   log: seq<CommitEvent>, m': Machine)
    requires MachineInv(pg, m) && m.session.Some? && Persist(m, edited, s, log, m')
    requires edited.Ok? && MaySave(pg, m, edited.value, s, log)
    ensures MachineInv(pg, m')
  {
    hide EvalNode, Traj, OriginOf, RecordInv, LogOk, ThreadOk, NestOk, LaunchesOk;
    BumpInv(pg, edited.value);
    LaunchesFewer(m.launches, s.starting, {}, edited.value.tasks);
    LaunchesFewer(m.launches, s.starting, m.session.value.starting, edited.value.tasks);
    assert SavedOk(pg, m'.saved);
  }

  lemma LaunchesFewer(launches: seq<TaskId>, starting: set<TaskId>, fewer: set<TaskId>, tasks: map<TaskId, TaskRecord>)
    requires LaunchesOk(launches, starting, tasks) && fewer <= starting
    ensures LaunchesOk(launches, fewer, tasks)
  {
  }

  /** A call from outside whose written record keeps the invariant. */
  lemma CalledInv<T>(pg: Program, m: Machine, a: C.Answer<T>, m': Machine)
    requires MachineInv(pg, m) && m.session.None? && m.saved != [] && Called(m, a, m')
    requires a.write.Some? ==>
               && RecordInv(pg, a.write.value) && a.write.value.revision == Last(m).revision + 1
               && a.write.value.frames == Last(m).frames
               && LaunchesOk(m.launches, {}, a.write.value.tasks)
    ensures MachineInv(pg, m')
  {
    hide EvalNode, Traj, OriginOf, RecordInv, LogOk;
    assert SavedOk(pg, m'.saved);
  }

  // ---------------------------------------------------------------- commit log

  lemma LogKept(pg: Program, log: seq<CommitEvent>, frames: map<Path, FrameRecord>, frames': map<Path, FrameRecord>)
    requires LogOk(pg, log, frames)
    requires forall p :: CommitCount(frames', p) == CommitCount(frames, p)
    ensures LogOk(pg, log + [], frames') && LogOk(pg, log, frames')
  {
    hide EvalNode, Traj, OriginOf;
    assert log + [] == log;
    forall p ensures FrameLogOk(pg, log, frames', p) {
      assert FrameLogOk(pg, log, frames, p);
      assert CommitCount(frames', p) == CommitCount(frames, p);
    }
  }

  lemma LogCommit(pg: Program, log: seq<CommitEvent>, frames: map<Path, FrameRecord>, p: Path, f: FrameRecord,
                  ev: CommitEvent)
    requires LogOk(pg, log, frames) && p in frames && Commits(frames[p]) >= 0
    requires Commits(f) == Commits(frames[p]) + 1
    requires ev.frame == p && EventOk(pg, p, Commits(frames[p]), ev)
    ensures LogOk(pg, log + [ev], frames[p := f])
  {
    hide EvalNode, Traj, OriginOf;
    var log' := log + [ev];
    var frames' := frames[p := f];
    assert log'[..|log'| - 1] == log;
    forall q ensures FrameLogOk(pg, log', frames', q) {
      assert FrameLogOk(pg, log, frames, q);
    }
  }

  // --------------------------------------------------- steps that change status

  /** A session that goes on after a save that touched neither frames, approvals nor tasks. */
  lemma StatusSave(pg: Program, m: Machine, status: RunStatus, s: Session, m': Machine)
    requires MachineInv(pg, m) && m.session.Some?
    requires s == m.session.value.(phase := s.phase, threads := s.threads)
    requires Persist(m, Ok(E.SetStatus(s.record, status)), s, [], m')
    requires status == RunStatus.Completed ==> Root in s.record.frames && s.record.frames[Root].nextNode.None?
    requires ThreadsOk(s.record, s.threads)
    ensures MachineInv(pg, m')
  {
    hide EvalNode, Traj, OriginOf, CursorAt;
    var r := E.SetStatus(s.record, status);
    StatusInv(pg, s.record, r);
    LogKept(pg, m.commits, s.record.frames, r.frames);
    PersistInv(pg, m, Ok(r), s, [], m');
  }

  lemma StartRunInv(pg: Program, m: Machine, m': Machine)
    requires ProgramOk(pg) && MachineInv(pg, m) && StartRunStep(pg, m, m')
    ensures MachineInv(pg, m')
  {
    RootRecordInv(pg);
    if m' != m {
      forall p ensures FrameLogOk(pg, m'.commits, Last(m').frames, p) {}
    }
  }

  lemma ExecuteInv(pg: Program, m: Machine, now: nat, m': Machine)
    requires MachineInv(pg, m) && ExecuteStep(m, now, m')
    ensures MachineInv(pg, m')
  {
    hide EvalNode, Traj, OriginOf, CursorAt, C.ExecutePrelude, LogOk, RecordInv;
    var s := m.session.value;
    match C.ExecutePrelude(s.record, s.cancelled, now)
    case ExpireRun => StatusSave(pg, m, RunStatus.Expired, s.(phase := Finished), m');
    case StaySuspended =>
    case Drive => StatusSave(pg, m, RunStatus.Running, s.(phase := Driving), m');
  }

  lemma CompleteRunInv(pg: Program, m: Machine, m': Machine)
    requires MachineInv(pg, m) && CompleteRunStep(m, m')
    ensures MachineInv(pg, m')
  {
    hide EvalNode, Traj, OriginOf, CursorAt, LogOk, RecordInv;
    var s := m.session.value;
    assert ThreadOk(s.record.frames, s.record.approvals, Root, s.threads[Root]);
    StatusSave(pg, m, RunStatus.Completed, s.(phase := Finished, threads := map[]), m');
  }

  lemma CancelledRunInv(pg: Program, m: Machine, m': Machine)
    requires MachineInv(pg, m) && CancelledRunStep(m, m')
    ensures MachineInv(pg, m')
  {
    StatusSave(pg, m, RunStatus.Cancelled, m.session.value.(phase := Finished, threads := map[]), m');
  }

  // ----------------------------------------------------------------- threads

  /** Replacing one thread by a terminal or advanced one, and dropping its children. */
  lemma ThreadsReplaced(r: RunRecord, r': RunRecord, threads: map<Path, Thread>, p: Path, t: Thread)
    requires ThreadsOk(r, threads) && p in threads
    requires r'.approvals == r.approvals
    requires forall q | q in threads && q != p :: q in r'.frames && r'.frames[q] == r.frames[q]
    requires ThreadOk(r'.frames, r'.approvals, p, t)
    requires ChildrenDone(threads, p)
    ensures ThreadsOk(r', WithoutChildren(threads, p)[p := t])
  {
    var threads' := WithoutChildren(threads, p)[p := t];
    forall q | q in threads' ensures NestOk(threads', q) {
      assert NestOk(threads, q);
    }
    forall q | q in threads' ensures ThreadOk(r'.frames, r'.approvals, q, threads'[q]) {
      if q != p {
        assert ThreadOk(r.frames, r.approvals, q, threads[q]);
      }
    }
  }

  /** Leaves and barriers have no nested frames. */
  lemma AbortInv(pg: Program, m: Machine, p: Path, e: DurableError, m': Machine)
    requires MachineInv(pg, m) && AbortStep(m, p, e, m')
    ensures MachineInv(pg, m')
  {
    hide EvalNode, Traj, OriginOf, CursorAt, LogOk, RecordInv;
    var s := m.session.value;
    assert ThreadOk(s.record.frames, s.record.approvals, p, s.threads[p]);
    ThreadsReplaced(s.record, s.record, s.threads, p, Halted(e));
  }

  lemma StopFrameInv(pg: Program, m: Machine, p: Path, m': Machine)
    requires MachineInv(pg, m) && StopFrameStep(m, p, m')
    ensures MachineInv(pg, m')
  {
    hide EvalNode, Traj, OriginOf, CursorAt, LogOk, RecordInv;
    var s := m.session.value;
    assert ThreadOk(s.record.frames, s.record.approvals, p, s.threads[p]);
    ThreadsReplaced(s.record, s.record, s.threads, p, Halted(Stopped));
    StatusSave(pg, m, RunStatus.Cancelled, s.(threads := WithoutChildren(s.threads, p)[p := Halted(Stopped)]), m');
  }

  /** Replacing one thread, whose nested frames, if any, stay inside the same invocation. */
  lemma ThreadSet(r: RunRecord, r': RunRecord, threads: map<Path, Thread>, p: Path, t: Thread)
    requires ThreadsOk(r, threads)
    requires r'.approvals == r.approvals
    requires forall q | q in threads && q != p :: q in r'.frames && r'.frames[q] == r.frames[q]
    requires ThreadOk(r'.frames, r'.approvals, p, t)
    requires p in threads && threads[p].InNode? ==>
               t.InNode? && t.current == threads[p].current && t.invocation == threads[p].invocation
    requires NestOk(threads[p := t], p)
    ensures ThreadsOk(r', threads[p := t])
  {
    var threads' := threads[p := t];
    forall q | q in threads' ensures NestOk(threads', q) {
      if q != p {
        assert NestOk(threads, q);
      }
    }
    forall q | q in threads' ensures ThreadOk(r'.frames, r'.approvals, q, threads'[q]) {
      if q != p {
        assert ThreadOk(r.frames, r.approvals, q, threads[q]);
      }
    }
  }

  // ------------------------------------------------------------- enter, begin

  /** A running invocation works on the state its frame's meaning has there. */
  lemma RunningState(pg: Program, r: RunRecord, p: Path, t: Thread)
    requires CursorsOk(pg, r.frames) && ThreadOk(r.frames, r.approvals, p, t) && t.InNode?
    ensures t.invocation >= 1 && OriginOf(pg, p).Some?
    ensures CursorAt(pg, p, t.invocation - 1) == Some(Cursor(Some(t.current), t.state))
  {
    assert FrameOk(pg, p, r.frames[p]);
  }

  /** The caller of a callable frame is in the middle of the invocation that calls. */
  lemma CallerRuns(pg: Program, s: Session, p: Path)
    requires CursorsOk(pg, s.record.frames) && ThreadsOk(s.record, s.threads)
    requires p.Child? && InvocationOf(s, p.parent) && Current(s, p.parent).invocation == p.invocation
    ensures GraphAt(pg.graph, p.parent).Some? && OriginOf(pg, p.parent).Some? && p.invocation >= 1
    ensures OriginOf(pg, p.parent).value.graph == GraphOf(pg, p.parent)
    ensures CursorAt(pg, p.parent, p.invocation - 1)
         == Some(Cursor(Some(s.threads[p.parent].current), s.threads[p.parent].state))
    ensures p.parent in s.record.frames && s.record.frames[p.parent].active
    ensures s.record.frames[p.parent].stepsUsed == p.invocation
  {
    hide EvalNode, Traj, OriginOf, CursorAt, CursorsOk, GraphAt;
    assert ThreadOk(s.record.frames, s.record.approvals, p.parent, s.threads[p.parent]);
    RunningState(pg, s.record, p.parent, s.threads[p.parent]);
    GraphAtOrigin(pg, p.parent);
  }

  /** What the caller has in memory is the run the path denotes. */
  lemma CalledIsOrigin(pg: Program, s: Session, p: Path)
    requires CursorsOk(pg, s.record.frames) && ThreadsOk(s.record, s.threads) && Callable(pg, s, p)
    ensures OriginOf(pg, p) == Some(CalledOrigin(pg, s, p))
    ensures p.Child? ==>
              && p.parent in s.record.frames && s.record.frames[p.parent].active
              && s.record.frames[p.parent].stepsUsed == p.invocation
  {
    if p.Child? {
      hide EvalNode, Traj, OriginOf, CallOrigin, CursorAt, GraphAt, CursorsOk, ThreadsOk;
      CallerRuns(pg, s, p);
      ChildOrigin(pg, p, s.threads[p.parent].state);
    }
  }

  lemma EnterInv(pg: Program, m: Machine, p: Path, m': Machine)
    requires MachineInv(pg, m) && EnterStep(pg, m, p, m')
    ensures MachineInv(pg, m')
  {
    hide EvalNode, Traj, OriginOf, CallOrigin, CursorAt, MachineInv, Callable, CalledOrigin, Persist;
    var s := m.session.value;
    if p in s.record.frames {
      var t := After(s.record.frames[p].state, s.record.frames[p].nextNode);
      CallableNest(pg, s, p, t);
      EnterKnown(pg, m, p, t);
    } else {
      EnterNew(pg, m, p, m');
    }
  }

  /** Any thread that agrees with its frame may be set where none was. */
  lemma EnterKnown(pg: Program, m: Machine, p: Path, t: Thread)
    requires MachineInv(pg, m) && Live(m) && p !in m.session.value.threads
    requires ThreadOk(m.session.value.record.frames, m.session.value.record.approvals, p, t)
    requires NestOk(m.session.value.threads[p := t], p)
    ensures MachineInv(pg, m.(session := Some(m.session.value.(threads := m.session.value.threads[p := t]))))
  {
    hide EvalNode, Traj, OriginOf, CursorAt, LogOk, RecordInv;
    ThreadSet(m.session.value.record, m.session.value.record, m.session.value.threads, p, t);
  }

  lemma CallableNest(pg: Program, s: Session, p: Path, t: Thread)
    requires Callable(pg, s, p) && p !in s.threads
    ensures NestOk(s.threads[p := t], p)
  {
  }

  lemma EnterNew(pg: Program, m: Machine, p: Path, m': Machine)
    requires MachineInv(pg, m) && EnterStep(pg, m, p, m') && p !in m.session.value.record.frames
    ensures MachineInv(pg, m')
  {
    hide EvalNode, Traj, OriginOf, CallOrigin, CursorAt, LogOk, FrameOk, CalledOrigin, Callable, MachineInv, CursorsOk,
         ApprovalsOk, LaunchesOk, Persist, NestOk;
    LiveFrames(pg, m);
    var s := m.session.value;
    CalledIsOrigin(pg, s, p);
    var o := CalledOrigin(pg, s, p);
    var t := Head(o.graph.start, o.input);
    OpenFrameInv(pg, s.record, p);
    var r := E.OpenFrame(s.record, p, E.NewFrame(o.graph, o.input, o.maxSteps));
    LogKept(pg, m.commits, s.record.frames, r.frames);
    CallableNest(pg, s, p, t);
    ThreadSet(s.record, r, s.threads, p, t);
    PersistInv(pg, m, Ok(r), s.(threads := s.threads[p := t]), [], m');
  }

  lemma BeginStepInv(pg: Program, m: Machine, p: Path, m': Machine)
    requires MachineInv(pg, m) && BeginStep(m, p, m')
    ensures MachineInv(pg, m')
  {
    if E.Begin(m.session.value.record, p, m.session.value.threads[p].current).Ok? {
      hide *;
      BegunInv(pg, m, p, m');
    } else {
      hide *;
      NotBegunInv(pg, m, p, m');
    }
  }

  lemma NotBegunInv(pg: Program, m: Machine, p: Path, m': Machine)
    requires MachineInv(pg, m) && BeginStep(m, p, m')
    requires E.Begin(m.session.value.record, p, m.session.value.threads[p].current).Err?
    ensures MachineInv(pg, m')
  {
    hide EvalNode, Traj, OriginOf, CallOrigin, CursorAt, LogOk, FrameOk, RecordInv, Persist, E.Begin;
    var s := m.session.value;
    var t := s.threads[p];
    assert ThreadOk(s.record.frames, s.record.approvals, p, t) && NestOk(s.threads, p);
    ThreadSet(s.record, s.record, s.threads, p, Halted(E.Begin(s.record, p, t.current).error));
  }

  /** What begin changes: one frame is active, in front of the same node, and counts the invocation. */
  lemma BegunEdit(r: RunRecord, p: Path, current: string)
    requires E.Begin(r, p, current).Ok? && p in r.frames
    ensures var (r', invocation) := E.Begin(r, p, current).value;
      && r'.approvals == r.approvals && r'.tasks == r.tasks && r'.revision == r.revision && p in r'.frames
      && r'.frames == r.frames[p := r'.frames[p]] && r'.frames[p].active && r'.frames[p].nextNode == Some(current)
      && r'.frames[p].stepsUsed == invocation && r'.frames[p].state == r.frames[p].state
      && forall q :: CommitCount(r'.frames, q) == CommitCount(r.frames, q)
  {
    if r.frames[p].active {
      assert r.frames == r.frames[p := r.frames[p]];
    }
  }

  lemma BegunInv(pg: Program, m: Machine, p: Path, m': Machine)
    requires MachineInv(pg, m) && BeginStep(m, p, m')
    requires E.Begin(m.session.value.record, p, m.session.value.threads[p].current).Ok?
    ensures MachineInv(pg, m')
  {
    hide EvalNode, Traj, OriginOf, CallOrigin, CursorAt, LogOk, FrameOk, RecordInv, Persist, MachineInv, LaunchesOk,
         CursorsOk, E.Begin, CommitCount, Commits, ThreadsOk;
    LiveFrames(pg, m);
    var s := m.session.value;
    var t := s.threads[p];
    HeadThread(s.record, s.threads, p);
    BeginInv(pg, s.record, p, t.current);
    BegunEdit(s.record, p, t.current);
    var (r, invocation) := E.Begin(s.record, p, t.current).value;
    LogKept(pg, m.commits, s.record.frames, r.frames);
    var threads := s.threads[p := InNode(t.current, invocation, t.state, false)];
    BegunThread(s.record, r, s.threads, p, invocation);
    PersistInv(pg, m, Ok(r), s.(began := true, threads := threads), [], m');
  }

  lemma HeadThread(r: RunRecord, threads: map<Path, Thread>, p: Path)
    requires ThreadsOk(r, threads) && p in threads && threads[p].Head?
    ensures p in r.frames && r.frames[p].nextNode == Some(threads[p].current) && r.frames[p].state == threads[p].state
    ensures NestOk(threads, p)
  {
    assert ThreadOk(r.frames, r.approvals, p, threads[p]);
  }

  /** The thread of a begun invocation. */
  lemma BegunThread(r: RunRecord, r': RunRecord, threads: map<Path, Thread>, p: Path, invocation: nat)
    requires ThreadsOk(r, threads) && p in threads && threads[p].Head? && r'.approvals == r.approvals
    requires p in r'.frames && r'.frames == r.frames[p := r'.frames[p]] && r'.frames[p].active
    requires r'.frames[p].nextNode == Some(threads[p].current) && r'.frames[p].stepsUsed == invocation
    requires r'.frames[p].state == threads[p].state
    ensures ThreadsOk(r', threads[p := InNode(threads[p].current, invocation, threads[p].state, false)])
  {
    HeadThread(r, threads, p);
    forall q | q in threads ensures q in r.frames {
      assert ThreadOk(r.frames, r.approvals, q, threads[q]);
    }
    ThreadSet(r, r', threads, p, InNode(threads[p].current, invocation, threads[p].state, false));
  }

  // ------------------------------------------------------------------- commit

  /** A commit of what the running node means. */
  lemma CommitStepInv(pg: Program, m: Machine, p: Path, c: Cursor, m': Machine)
    requires MachineInv(pg, m) && Live(m) && InvocationOf(m.session.value, p)
    requires CommitStep(m, p, Some(c), m') && ChildrenDone(m.session.value.threads, p)
    requires CommitReady(pg, m.session.value.record, p, c.state, c.node)
    ensures MachineInv(pg, m')
  {
    hide EvalNode, Traj, OriginOf, CallOrigin, CursorAt, LogOk, FrameOk, CommitReady, MachineInv, CursorsOk, RecordInv,
         LaunchesOk;
    LiveFrames(pg, m);
    var s := m.session.value;
    var t := s.threads[p];
    var ev := CommitEvent(p, t.current, c.state, c.node);
    assert ThreadOk(s.record.frames, s.record.approvals, p, t);
    CommitInv(pg, s.record, p, c.state, c.node);
    var r := E.Commit(s.record, p, c.state, c.node).value;
    CommittedEvent(pg, s.record, p, c, ev);
    LogCommit(pg, m.commits, s.record.frames, p, r.frames[p], ev);
    CommitThreads(s.record, r, s.threads, p, c);
    PersistInv(pg, m, Ok(r), s.(threads := WithoutChildren(s.threads, p)[p := After(c.state, c.node)]), [ev], m');
  }

  lemma CommittedEvent(pg: Program, r: RunRecord, p: Path, c: Cursor, ev: CommitEvent)
    requires CursorsOk(pg, r.frames) && CommitReady(pg, r, p, c.state, c.node)
    requires ev == CommitEvent(p, r.frames[p].nextNode.value, c.state, c.node)
    ensures Commits(r.frames[p]) >= 0 && EventOk(pg, p, Commits(r.frames[p]), ev)
  {
    hide EvalNode, Traj, OriginOf, ClosedOk, CursorAt;
    assert FrameOk(pg, p, r.frames[p]);
    NextCursor(pg, p, Commits(r.frames[p]), r.frames[p].nextNode.value, r.frames[p].state);
  }

  lemma NextCursor(pg: Program, p: Path, k: nat, node: string, state: Json)
    requires OriginOf(pg, p).Some? && CursorAt(pg, p, k) == Some(Cursor(Some(node), state))
    ensures CursorAt(pg, p, k + 1)
         == EvalNode(pg.answers, InvocationId(p, node, k + 1), OriginOf(pg, p).value.graph, state)
  {
    hide EvalNode, OriginOf;
  }

  /** Marking an approval as applied does not disturb a thread that was cleared by it. */
  lemma CommitThreads(r: RunRecord, r': RunRecord, threads: map<Path, Thread>, p: Path, c: Cursor)
    requires ThreadsOk(r, threads) && p in threads && p in r.frames && ChildrenDone(threads, p)
    requires E.Commit(r, p, c.state, c.node) == Ok(r')
    ensures ThreadsOk(r', WithoutChildren(threads, p)[p := After(c.state, c.node)])
  {
    var kept := r'.(approvals := r.approvals);
    ThreadsReplaced(r, kept, threads, p, After(c.state, c.node));
    var threads' := WithoutChildren(threads, p)[p := After(c.state, c.node)];
    forall q | q in threads' ensures ThreadOk(r'.frames, r'.approvals, q, threads'[q]) {
      assert ThreadOk(kept.frames, kept.approvals, q, threads'[q]);
    }
  }

  lemma CommitFailedInv(pg: Program, m: Machine, p: Path, m': Machine)
    requires MachineInv(pg, m) && Live(m) && InvocationOf(m.session.value, p)
    requires CommitStep(m, p, None, m') && ChildrenDone(m.session.value.threads, p)
    ensures MachineInv(pg, m')
  {
    AbortInv(pg, m, p, NodeFailed, m');
  }

  /** What the threads of a lease that can save stand on. */
  lemma LiveFrames(pg: Program, m: Machine)
    requires MachineInv(pg, m) && Live(m)
    ensures m.saved != [] && m.session.value.record == Last(m) && RecordInv(pg, Last(m))
    ensures CursorsOk(pg, m.session.value.record.frames) && ThreadsOk(m.session.value.record, m.session.value.threads)
    ensures InFlightOk(m.session.value.record, m.session.value)
    ensures LogOk(pg, m.commits, Last(m).frames) && LaunchesOk(m.launches, m.session.value.starting, Last(m).tasks)
  {
    hide CursorsOk, ParentsOk, ChildrenOk, ApprovalsOk, LogOk, LaunchesOk, ThreadsOk, InFlightOk;
  }

  /** The frame of a running invocation, and its graph. */
  lemma ThreadOrigin(pg: Program, m: Machine, p: Path)
    requires MachineInv(pg, m) && Live(m) && InvocationOf(m.session.value, p)
    ensures OriginOf(pg, p).Some? && GraphAt(pg.graph, p) == Some(OriginOf(pg, p).value.graph)
    ensures p in m.session.value.record.frames
  {
    hide EvalNode, Traj, LogOk, OriginOf, CursorAt, GraphAt;
    var s := m.session.value;
    assert ThreadOk(s.record.frames, s.record.approvals, p, s.threads[p]);
    RunningState(pg, s.record, p, s.threads[p]);
    GraphAtOrigin(pg, p);
  }

  /** Only composite nodes have nested frames. */
  lemma PlainOrigin(pg: Program, r: RunRecord, p: Path, t: Thread, q: Path)
    requires CursorsOk(pg, r.frames) && ThreadOk(r.frames, r.approvals, p, t) && t.InNode?
    requires OriginOf(pg, p).Some? && !IsNested(OriginOf(pg, p).value.graph, t.current)
    requires q.Child? && q.parent == p && q.invocation == t.invocation
    ensures OriginOf(pg, q).None?
  {
    hide EvalNode, Traj, OriginOf, CursorAt, FrameOk;
    RunningState(pg, r, p, t);
    if q.node == t.current {
      ChildOrigin(pg, q, t.state);
    } else {
      OtherNode(pg, q);
    }
  }

  lemma FrameHasOrigin(pg: Program, frames: map<Path, FrameRecord>, q: Path)
    requires CursorsOk(pg, frames) && q in frames
    ensures OriginOf(pg, q).Some?
  {
    assert FrameOk(pg, q, frames[q]);
  }

  lemma PlainNode(pg: Program, m: Machine, p: Path)
    requires MachineInv(pg, m) && NodeReady(pg, m, p) && !NodeOf(pg, m, p).Nested?
    ensures forall q: Path | q.Child? && q.parent == p && q.invocation == m.session.value.threads[p].invocation ::
              OriginOf(pg, q).None?
    ensures ChildrenDone(m.session.value.threads, p)
    ensures WithoutChildren(m.session.value.threads, p) == m.session.value.threads
  {
    hide EvalNode, Traj, LogOk, OriginOf, CursorAt, MachineInv, GraphAt, RecordInv, InFlightOk, LaunchesOk, CursorsOk;
    LiveFrames(pg, m);
    ThreadOrigin(pg, m, p);
    var s := m.session.value;
    var t := s.threads[p];
    assert ThreadOk(s.record.frames, s.record.approvals, p, t);
    forall q: Path | q.Child? && q.parent == p && q.invocation == t.invocation ensures OriginOf(pg, q).None? {
      PlainOrigin(pg, s.record, p, t, q);
    }
    forall q | q in s.threads ensures !(q.Child? && q.parent == p) {
      assert NestOk(s.threads, q) && ThreadOk(s.record.frames, s.record.approvals, q, s.threads[q]);
      FrameHasOrigin(pg, s.record.frames, q);
    }
  }

  /** What a thread holds when it commits is what CommitReady asks for. */
  lemma ReadyFrom(pg: Program, m: Machine, p: Path, c: Cursor)
    requires MachineInv(pg, m) && NodeReady(pg, m, p)
    requires EvalNode(pg.answers, Current(m.session.value, p), GraphOf(pg, p), m.session.value.threads[p].state)
          == Some(c)
    requires NodeOf(pg, m, p).Barrier? ==> m.session.value.threads[p].cleared
    requires forall q: Path | q.Child? && q.parent == p && q.invocation == m.session.value.threads[p].invocation
                              && OriginOf(pg, q).Some? ::
               q in m.session.value.record.frames && m.session.value.record.frames[q].nextNode.None?
    ensures CommitReady(pg, m.session.value.record, p, c.state, c.node)
  {
    hide EvalNode, Traj, OriginOf, CursorAt, LogOk, FrameOk, RecordInv;
    ThreadOrigin(pg, m, p);
    var s := m.session.value;
    assert ThreadOk(s.record.frames, s.record.approvals, p, s.threads[p]);
  }

  /** A running leaf recalls what its tasks answer. */
  lemma RecallOk(pg: Program, m: Machine, p: Path, script: Script)
    requires MachineInv(pg, m) && RecordsAnswered(pg, m) && Live(m) && InvocationOf(m.session.value, p)
    requires Recall(m.session.value.record.tasks, Current(m.session.value, p), script).Some?
    ensures Replay(pg.answers, Current(m.session.value, p), script)
         == Recall(m.session.value.record.tasks, Current(m.session.value, p), script)
  {
    hide StoreOk, PaidOk, ThreadsOk, InFlightOk, Recall, Replay, Answered;
    assert Answered(pg, m.saved[|m.saved| - 1].tasks);
    RecallIsReplay(pg, m.session.value.record.tasks, Current(m.session.value, p), script);
  }

  /** A leaf commits its meaning, whenever it is executed again. */
  lemma FinishLeafInv(pg: Program, m: Machine, p: Path, m': Machine)
    requires MachineInv(pg, m) && RecordsAnswered(pg, m) && FinishLeafStep(pg, m, p, m')
    ensures MachineInv(pg, m')
  {
    hide Traj, OriginOf, CursorAt, MachineInv, CommitReady, Persist, Route, Recall, Replay, RecordsAnswered, GraphAt;
    PlainNode(pg, m, p);
    var t := m.session.value.threads[p];
    var script := NodeOf(pg, m, p).run(t.state);
    RecallOk(pg, m, p, script);
    var c := match Recall(m.session.value.record.tasks, Current(m.session.value, p), script).value
      case Done(state, action) => Route(GraphOf(pg, p), t.current, state, action)
      case _ => None;
    if c.Some? {
      ReadyFrom(pg, m, p, c.value);
      CommitStepInv(pg, m, p, c.value, m');
    } else {
      CommitFailedInv(pg, m, p, m');
    }
  }

  lemma FinishBarrierInv(pg: Program, m: Machine, p: Path, m': Machine)
    requires MachineInv(pg, m) && FinishBarrierStep(pg, m, p, m')
    ensures MachineInv(pg, m')
  {
    hide Traj, OriginOf, CursorAt, MachineInv, CommitReady, Persist, Route;
    PlainNode(pg, m, p);
    var t := m.session.value.threads[p];
    var c := Route(GraphOf(pg, p), t.current, t.state, Next);
    if c.Some? {
      ReadyFrom(pg, m, p, c.value);
      CommitStepInv(pg, m, p, c.value, m');
    } else {
      CommitFailedInv(pg, m, p, m');
    }
  }

  // ------------------------------------------------------------- nested runs

  /** A nested frame that returned holds the result of the run it stands for. */
  lemma ReturnedIsFinal(pg: Program, r: RunRecord, q: Path, t: Thread, o: Origin)
    requires CursorsOk(pg, r.frames) && ThreadOk(r.frames, r.approvals, q, t) && t.Returned?
    requires OriginOf(pg, q) == Some(o)
    ensures RunResult(pg.answers, q, o.graph, o.input, o.maxSteps) == Some(t.state)
  {
    hide EvalNode, OriginOf;
    var f := r.frames[q];
    assert FrameOk(pg, q, f);
    FinalFromTraj(pg.answers, q, o.graph, o.input, 0, Commits(f), o.maxSteps);
  }

  /** The i-th nested run of a running invocation. */
  lemma CalledRun(pg: Program, m: Machine, p: Path, i: nat)
    requires ProgramOk(pg) && MachineInv(pg, m) && NodeReady(pg, m, p) && NodeOf(pg, m, p).Nested?
    requires i < |NodeOf(pg, m, p).calls|
    ensures var s := m.session.value; var call := NodeOf(pg, m, p).calls[i];
            OriginOf(pg, ChildOf(s, p, call.name))
            == Some(Origin(call.graph, call.project(s.threads[p].state), call.maxSteps))
  {
    hide EvalNode, Traj, OriginOf, CursorAt, LogOk, FrameOk, RecordInv;
    ThreadOrigin(pg, m, p);
    var s := m.session.value;
    assert ThreadOk(s.record.frames, s.record.approvals, p, s.threads[p]);
    NestedOrigin(pg, s.record, Current(s, p), s.threads[p].state, i);
  }

  lemma {:induction false} ReturnedStatesAreFinal(pg: Program, m: Machine, p: Path, n: nat)
    requires ProgramOk(pg) && MachineInv(pg, m) && NodeReady(pg, m, p) && NodeOf(pg, m, p).Nested?
    requires n <= |NodeOf(pg, m, p).calls| && AllReturned(m.session.value, p, NodeOf(pg, m, p).calls)
    ensures var s := m.session.value;
            ChildStates(pg.answers, Current(s, p), GraphOf(pg, p), s.threads[p].state, n)
            == Some(ReturnedStates(s, p, NodeOf(pg, m, p).calls)[..n])
  {
    hide EvalNode, Traj, OriginOf, CursorAt, LogOk, FrameOk, MachineInv, RunResult, CallOrigin;
    if n > 0 {
      hide ChildStates;
      ReturnedStatesAreFinal(pg, m, p, n - 1);
      NestedResult(pg, m, p, n - 1);
      var s := m.session.value;
      var all := ReturnedStates(s, p, NodeOf(pg, m, p).calls);
      ChildStatesStep(pg.answers, Current(s, p), GraphOf(pg, p), s.threads[p].state, n - 1, all[..n - 1], all[n - 1]);
      assert all[..n] == all[..n - 1] + [all[n - 1]];
    }
  }

  lemma NestedResult(pg: Program, m: Machine, p: Path, i: nat)
    requires ProgramOk(pg) && MachineInv(pg, m) && NodeReady(pg, m, p) && NodeOf(pg, m, p).Nested?
    requires i < |NodeOf(pg, m, p).calls| && AllReturned(m.session.value, p, NodeOf(pg, m, p).calls)
    ensures var s := m.session.value;
            var call := NodeOf(pg, m, p).calls[i];
            RunResult(pg.answers, ChildOf(s, p, call.name), call.graph, call.project(s.threads[p].state), call.maxSteps)
            == Some(ReturnedStates(s, p, NodeOf(pg, m, p).calls)[i])
  {
    hide EvalNode, Traj, OriginOf, CursorAt, MachineInv, RunResult, CallOrigin;
    var q := ChildOf(m.session.value, p, NodeOf(pg, m, p).calls[i].name);
    CalledRun(pg, m, p, i);
    ChildReturned(pg, m, q, OriginOf(pg, q).value);
  }

  lemma ChildReturned(pg: Program, m: Machine, q: Path, o: Origin)
    requires MachineInv(pg, m) && Live(m) && q in m.session.value.threads && m.session.value.threads[q].Returned?
    requires OriginOf(pg, q) == Some(o)
    ensures RunResult(pg.answers, q, o.graph, o.input, o.maxSteps) == Some(m.session.value.threads[q].state)
  {
    hide EvalNode, Traj, OriginOf, CursorAt, LogOk, FrameOk, Final;
    var s := m.session.value;
    assert ThreadOk(s.record.frames, s.record.approvals, q, s.threads[q]);
    ReturnedIsFinal(pg, s.record, q, s.threads[q], o);
  }

  /** A run that an invocation can call is one of its node's calls. */
  lemma Callee(pg: Program, p: Path, node: string, state: Json, q: Path)
    requires OriginOf(pg, p).Some? && q.Child? && q.parent == p && q.invocation >= 1 && OriginOf(pg, q).Some?
    requires CursorAt(pg, p, q.invocation - 1) == Some(Cursor(Some(node), state))
    ensures q.node == node && IsNested(OriginOf(pg, p).value.graph, node)
    ensures HasCall(OriginOf(pg, p).value.graph.nodes[node].calls, q.name)
  {
    hide EvalNode, Traj, OriginOf, CursorAt;
    if q.node != node {
      OtherNode(pg, q);
    }
    ChildOrigin(pg, q, state);
  }

  /** Every frame the running invocation may call has returned. */
  lemma ChildrenFinished(pg: Program, m: Machine, p: Path)
    requires MachineInv(pg, m) && NodeReady(pg, m, p) && NodeOf(pg, m, p).Nested?
    requires AllReturned(m.session.value, p, NodeOf(pg, m, p).calls)
    ensures forall q: Path | q.Child? && q.parent == p && q.invocation == m.session.value.threads[p].invocation
                             && OriginOf(pg, q).Some? ::
              q in m.session.value.record.frames && m.session.value.record.frames[q].nextNode.None?
  {
    hide EvalNode, Traj, OriginOf, CursorAt, LogOk, FrameOk, GraphAt, NestOk, ParentsOk, ChildrenOk, ApprovalsOk,
         LaunchesOk, InFlightOk, HasCall, CallOrigin;
    ThreadOrigin(pg, m, p);
    var s := m.session.value;
    var calls := NodeOf(pg, m, p).calls;
    assert ThreadOk(s.record.frames, s.record.approvals, p, s.threads[p]);
    RunningState(pg, s.record, p, s.threads[p]);
    forall q: Path | q.Child? && q.parent == p && q.invocation == s.threads[p].invocation && OriginOf(pg, q).Some?
      ensures q in s.record.frames && s.record.frames[q].nextNode.None?
    {
      Callee(pg, p, s.threads[p].current, s.threads[p].state, q);
      assert q == ChildOf(s, p, calls[CallIndex(calls, q.name)].name);
      assert ThreadOk(s.record.frames, s.record.approvals, q, s.threads[q]);
    }
  }

  lemma FinishNestedInv(pg: Program, m: Machine, p: Path, m': Machine)
    requires ProgramOk(pg) && MachineInv(pg, m) && FinishNestedStep(pg, m, p, m')
    ensures MachineInv(pg, m')
  {
    hide Traj, OriginOf, CursorAt, MachineInv, CommitReady, Persist, Route, ChildStates;
    var s := m.session.value;
    var k := NodeOf(pg, m, p);
    var t := s.threads[p];
    ReturnedStatesAreFinal(pg, m, p, |k.calls|);
    var finals := ReturnedStates(s, p, k.calls);
    assert finals[..|k.calls|] == finals;
    ChildrenFinished(pg, m, p);
    var c := match k.combine(t.state, finals)
      case Some(state) => Route(GraphOf(pg, p), t.current, state, Next)
      case None => None;
    if c.Some? {
      ReadyFrom(pg, m, p, c.value);
      CommitStepInv(pg, m, p, c.value, m');
    } else {
      CommitFailedInv(pg, m, p, m');
    }
  }

  // ------------------------------------------------------------------ approve

  /** Threads depend on approvals only through the receipts that cleared them. */
  lemma ApprovalsChanged(r: RunRecord, r': RunRecord, threads: map<Path, Thread>)
    requires ThreadsOk(r, threads) && r'.frames == r.frames
    requires forall id | id in r.approvals && Approved(r.approvals[id]) ::
               id in r'.approvals && Approved(r'.approvals[id])
    ensures ThreadsOk(r', threads)
  {
  }

  lemma AskApprovalInv(pg: Program, m: Machine, p: Path, token: string, deadline: Option<nat>, m': Machine)
    requires MachineInv(pg, m) && AskApprovalStep(pg, m, p, token, deadline, m')
    ensures MachineInv(pg, m')
  {
    hide EvalNode, Traj, OriginOf, CursorAt, LogOk, FrameOk, RecordInv;
    ThreadOrigin(pg, m, p);
    var s := m.session.value;
    assert ThreadOk(s.record.frames, s.record.approvals, p, s.threads[p]);
    RequestInv(pg, s.record, Current(s, p), token, deadline);
    var r := E.RequestApproval(s.record, Current(s, p), token, deadline);
    ApprovalsChanged(s.record, r, s.threads);
    LogKept(pg, m.commits, s.record.frames, r.frames);
    PersistInv(pg, m, Ok(r), s, [], m');
  }

  /** A gate thread that stops. */
  lemma GateHalted(pg: Program, m: Machine, p: Path, e: DurableError)
    requires MachineInv(pg, m) && AtGate(pg, m, p)
    ensures ThreadsOk(m.session.value.record, m.session.value.threads[p := Halted(e)])
  {
    hide EvalNode, Traj, OriginOf, CursorAt, LogOk, FrameOk, RecordInv;
    var s := m.session.value;
    PlainNode(pg, m, p);
    assert ThreadOk(s.record.frames, s.record.approvals, p, s.threads[p]);
    ThreadsReplaced(s.record, s.record, s.threads, p, Halted(e));
  }

  lemma WaitApprovalInv(pg: Program, m: Machine, p: Path, m': Machine)
    requires MachineInv(pg, m) && WaitApprovalStep(pg, m, p, m')
    ensures MachineInv(pg, m')
  {
    hide EvalNode, Traj, OriginOf, CursorAt, MachineInv;
    var s := m.session.value;
    GateHalted(pg, m, p, DurableError.Suspended);
    StatusSave(pg, m, RunStatus.Suspended, s.(threads := s.threads[p := Halted(DurableError.Suspended)]), m');
  }

  lemma ExpireApprovalInv(pg: Program, m: Machine, p: Path, now: nat, m': Machine)
    requires MachineInv(pg, m) && ExpireApprovalStep(pg, m, p, now, m')
    ensures MachineInv(pg, m')
  {
    hide EvalNode, Traj, OriginOf, CursorAt, MachineInv;
    var s := m.session.value;
    GateHalted(pg, m, p, Stopped);
    StatusSave(pg, m, RunStatus.Expired, s.(threads := s.threads[p := Halted(Stopped)]), m');
  }

  lemma ClearApprovalInv(pg: Program, m: Machine, p: Path, m': Machine)
    requires MachineInv(pg, m) && ClearApprovalStep(pg, m, p, m')
    ensures MachineInv(pg, m')
  {
    hide EvalNode, Traj, OriginOf, CursorAt, LogOk, FrameOk, RecordInv;
    var s := m.session.value;
    var t := s.threads[p];
    assert ThreadOk(s.record.frames, s.record.approvals, p, t) && NestOk(s.threads, p);
    ThreadSet(s.record, s.record, s.threads, p, t.(cleared := true));
  }

  lemma RefuseApprovalInv(pg: Program, m: Machine, p: Path, m': Machine)
    requires MachineInv(pg, m) && RefuseApprovalStep(pg, m, p, m')
    ensures MachineInv(pg, m')
  {
    hide EvalNode, Traj, OriginOf, CursorAt, LogOk, FrameOk, RecordInv, Persist, MachineInv, LaunchesOk, CursorsOk,
         GraphAt, ThreadOk, NestOk;
    LiveFrames(pg, m);
    var s := m.session.value;
    var id := Current(s, p);
    var r := E.RejectApproval(s.record, id);
    RefusedInv(pg, s.record, id);
    GateHalted(pg, m, p, Stopped);
    ApprovalsChanged(s.record, r, s.threads[p := Halted(Stopped)]);
    LogKept(pg, m.commits, s.record.frames, r.frames);
    PersistInv(pg, m, Ok(r), s.(threads := s.threads[p := Halted(Stopped)]), [], m');
  }

  // -------------------------------------------------------------------- tasks

  /** A save that changes one task. */
  lemma TaskSave(pg: Program, m: Machine, r: RunRecord, id: TaskId, s: Session, m': Machine)
    requires MachineInv(pg, m) && m.session.Some? && Persist(m, Ok(r), s, [], m')
    requires s == m.session.value.(starting := s.starting, acting := s.acting)
    requires id in r.tasks && TaskOk(id, r.tasks[id])
    requires r == s.record.(tasks := s.record.tasks[id := r.tasks[id]], status := r.status)
    requires r.status == RunStatus.Completed ==> s.record.status == RunStatus.Completed
    requires InFlightOk(r, s) && LaunchesOk(m.launches, s.starting, r.tasks)
    requires m.session.value.starting <= s.starting
    ensures MachineInv(pg, m')
  {
    hide EvalNode, Traj, OriginOf, CursorAt, LogOk;
    TaskInv(pg, s.record, r, id);
    ApprovalsChanged(s.record, r, s.threads);
    LogKept(pg, m.commits, s.record.frames, r.frames);
    PersistInv(pg, m, Ok(r), s, [], m');
  }

  lemma PlanTaskInv(pg: Program, m: Machine, id: TaskId, version: string, input: Json, policy: ReplayPolicy,
                    m': Machine)
    requires MachineInv(pg, m) && PlanTaskStep(m, id, version, input, policy, m')
    ensures MachineInv(pg, m')
  {
    hide EvalNode, Traj, OriginOf, CursorAt, LogOk, FramesOk, ApprovalsOk;
    var s := m.session.value;
    var r := E.PlanTask(s.record, id, version, input, policy);
    RetriesBound(map[]);
    TaskSave(pg, m, r, id, s, m');
  }

  lemma StartTaskInv(pg: Program, m: Machine, id: TaskId, m': Machine)
    requires MachineInv(pg, m) && StartTaskStep(m, id, m')
    ensures MachineInv(pg, m')
  {
    hide EvalNode, Traj, OriginOf, CursorAt, LogOk, FramesOk, ApprovalsOk;
    var s := m.session.value;
    assert TaskOk(id, s.record.tasks[id]);
    var r := E.StartTask(s.record, id).value.0;
    TaskSave(pg, m, r, id, s.(starting := s.starting + {id}), m');
  }

  lemma LaunchTaskInv(pg: Program, m: Machine, id: TaskId, m': Machine)
    requires MachineInv(pg, m) && LaunchTaskStep(m, id, m')
    ensures MachineInv(pg, m')
  {
    hide EvalNode, Traj, OriginOf, CursorAt, LogOk, RecordInv;
    var s := m.session.value;
    var launches := m.launches + [id];
    forall j ensures multiset(launches)[j] == multiset(m.launches)[j] + (if j == id then 1 else 0) {
      assert multiset(launches) == multiset(m.launches) + multiset{id};
    }
    forall j | j in launches ensures multiset(launches)[j] <= Attempts(Last(m).tasks, j) {
      if j != id {
        assert j in m.launches;
      }
    }
  }

  lemma FinishTaskInv(pg: Program, m: Machine, id: TaskId, result: Json, m': Machine)
    requires MachineInv(pg, m) && FinishTaskStep(m, id, result, m')
    ensures MachineInv(pg, m')
  {
    hide EvalNode, Traj, OriginOf, CursorAt, LogOk, FramesOk, ApprovalsOk;
    var s := m.session.value;
    assert TaskOk(id, s.record.tasks[id]) && InFlight(s, id);
    TaskSave(pg, m, E.CompleteTask(s.record, id, result), id, s.(acting := s.acting - {id}), m');
  }

  lemma ParkTaskInv(pg: Program, m: Machine, id: TaskId, m': Machine)
    requires MachineInv(pg, m) && ParkTaskStep(m, id, m')
    ensures MachineInv(pg, m')
  {
    hide EvalNode, Traj, OriginOf, CursorAt, LogOk, FramesOk, ApprovalsOk;
    var s := m.session.value;
    assert TaskOk(id, s.record.tasks[id]) && (id in s.acting ==> InFlight(s, id));
    TaskSave(pg, m, E.ParkTask(s.record, id).value, id, s.(acting := s.acting - {id}), m');
  }

  lemma DropTaskInv(pg: Program, m: Machine, id: TaskId, m': Machine)
    requires MachineInv(pg, m) && DropTaskStep(m, id, m')
    ensures MachineInv(pg, m')
  {
    hide EvalNode, Traj, OriginOf, CursorAt, LogOk, RecordInv;
  }

  lemma CancelTaskInv(pg: Program, m: Machine, m': Machine)
    requires MachineInv(pg, m) && CancelTaskStep(m, m')
    ensures MachineInv(pg, m')
  {
    hide EvalNode, Traj, OriginOf, CursorAt, LogOk, RecordInv;
    StatusSave(pg, m, RunStatus.Cancelled, m.session.value, m');
  }

  // ----------------------------------------------------------- external calls

  lemma SubmitWrite(pg: Program, r: RunRecord, id: InvocationId, token: string, request: string, expected: nat,
                    decision: Decision, now: nat)
    requires RecordInv(pg, r)
    ensures var w := C.SubmitDecision(r, id, token, request, expected, decision, now).write;
            w.Some? ==> RecordInv(pg, w.value) && w.value.revision == r.revision + 1
                        && w.value.frames == r.frames && w.value.tasks == r.tasks
  {
    hide EvalNode, Traj, OriginOf, CursorAt, FrameOk, AtBarrier;
    var w := C.SubmitDecision(r, id, token, request, expected, decision, now).write;
    if w.Some? {
      assert ApprovalOk(pg, r, id, r.approvals[id]);
      if w.value.approvals == r.approvals {
        StatusInv(pg, r, w.value);
      } else {
        ReviseApproval(pg, r, w.value, id, w.value.approvals[id]);
      }
    }
  }

  lemma SubmitInv(pg: Program, m: Machine, id: InvocationId, token: string, request: string, expected: nat,
                  decision: Decision, now: nat, m': Machine)
    requires MachineInv(pg, m) && Callers(pg, m)
    requires Called(m, C.SubmitDecision(Last(m), id, token, request, expected, decision, now), m')
    ensures MachineInv(pg, m')
  {
    hide EvalNode, Traj, OriginOf, CursorAt, LogOk, RecordInv, C.SubmitDecision;
    SubmitWrite(pg, Last(m), id, token, request, expected, decision, now);
    CalledInv(pg, m, C.SubmitDecision(Last(m), id, token, request, expected, decision, now), m');
  }

  lemma CancelCallInv(pg: Program, m: Machine, expected: nat, m': Machine)
    requires MachineInv(pg, m) && Callers(pg, m) && Called(m, C.CancelRun(Last(m), expected), m')
    ensures MachineInv(pg, m')
  {
    hide EvalNode, Traj, OriginOf, CursorAt, LogOk, FramesOk, ApprovalsOk;
    var a := C.CancelRun(Last(m), expected);
    if a.write.Some? {
      StatusInv(pg, Last(m), a.write.value);
    }
    CalledInv(pg, m, a, m');
  }

  lemma ResolvedTask(r: RunRecord, id: TaskId, request: string, expected: nat, resolution: TaskResolution)
    requires TasksOk(r) && C.ResolveTask(r, id, request, expected, resolution).write.Some?
    ensures id in r.tasks && TaskOk(id, E.ResolveTask(r, id, request, resolution).tasks[id])
  {
    assert TaskOk(id, r.tasks[id]);
    RetriesGrow(r.tasks[id].resolutions, request, resolution);
  }

  lemma ResolveTaskInv(pg: Program, m: Machine, id: TaskId, request: string, expected: nat,
                       resolution: TaskResolution, m': Machine)
    requires MachineInv(pg, m) && Callers(pg, m)
    requires Called(m, C.ResolveTask(Last(m), id, request, expected, resolution), m')
    ensures MachineInv(pg, m')
  {
    hide EvalNode, Traj, OriginOf, CursorAt, LogOk, FramesOk, ApprovalsOk;
    var r := Last(m);
    var a := C.ResolveTask(r, id, request, expected, resolution);
    if a.write.Some? {
      ResolvedTask(r, id, request, expected, resolution);
      var r' := E.ResolveTask(r, id, request, resolution);
      TaskInv(pg, r, r', id);
      BumpInv(pg, r');
    }
    CalledInv(pg, m, a, m');
  }

  // ---------------------------------------------------------------- every run

  lemma LeaseInv(pg: Program, m: Machine, step: Step, m': Machine)
    requires ProgramOk(pg) && MachineInv(pg, m) && StepOf(pg, m, step, m')
    requires step.Resume? || step.Release? || step.CancelRoot?
    ensures MachineInv(pg, m')
  {
    hide EvalNode, Traj, OriginOf, CursorAt, LogOk, RecordInv;
  }

  lemma StepInv(pg: Program, m: Machine, step: Step, m': Machine)
    requires ProgramOk(pg) && MachineInv(pg, m) && RecordsAnswered(pg, m) && StepOf(pg, m, step, m')
    ensures MachineInv(pg, m')
  {
    hide MachineInv, ExecuteStep, EnterStep, BeginStep, FinishLeafStep, FinishBarrierStep, FinishNestedStep,
         AskApprovalStep, WaitApprovalStep, ExpireApprovalStep, ClearApprovalStep, RefuseApprovalStep, AbortStep,
         StopFrameStep, PlanTaskStep, StartTaskStep, LaunchTaskStep, FinishTaskStep, ParkTaskStep, DropTaskStep,
         CancelTaskStep, CompleteRunStep, CancelledRunStep, StartRunStep, Called, Callers, RecordsAnswered;
    match step
    case StartRun => StartRunInv(pg, m, m');
    case Resume => LeaseInv(pg, m, step, m');
    case Release => LeaseInv(pg, m, step, m');
    case CancelRoot => LeaseInv(pg, m, step, m');
    case Execute(now) => ExecuteInv(pg, m, now, m');
    case Enter(p) => EnterInv(pg, m, p, m');
    case BeginNode(p) => BeginStepInv(pg, m, p, m');
    case FinishLeaf(p) => FinishLeafInv(pg, m, p, m');
    case FinishBarrier(p) => FinishBarrierInv(pg, m, p, m');
    case FinishNested(p) => FinishNestedInv(pg, m, p, m');
    case AskApproval(p, token, deadline) => AskApprovalInv(pg, m, p, token, deadline, m');
    case WaitApproval(p) => WaitApprovalInv(pg, m, p, m');
    case ExpireApproval(p, now) => ExpireApprovalInv(pg, m, p, now, m');
    case ClearApproval(p) => ClearApprovalInv(pg, m, p, m');
    case RefuseApproval(p) => RefuseApprovalInv(pg, m, p, m');
    case Abort(p, e) => AbortInv(pg, m, p, e, m');
    case StopFrame(p) => StopFrameInv(pg, m, p, m');
    case PlanTask(id, version, input, policy) => PlanTaskInv(pg, m, id, version, input, policy, m');
    case StartTask(id) => StartTaskInv(pg, m, id, m');
    case LaunchTask(id) => LaunchTaskInv(pg, m, id, m');
    case FinishTask(id, result) => FinishTaskInv(pg, m, id, result, m');
    case ParkTask(id) => ParkTaskInv(pg, m, id, m');
    case DropTask(id) => DropTaskInv(pg, m, id, m');
    case CancelTask => CancelTaskInv(pg, m, m');
    case CompleteRun => CompleteRunInv(pg, m, m');
    case CancelledRun => CancelledRunInv(pg, m, m');
    case SubmitDecision(id, token, request, expected, decision, now) =>
      SubmitInv(pg, m, id, token, request, expected, decision, now, m');
    case CancelCall(expected) => CancelCallInv(pg, m, expected, m');
    case ResolveTask(id, request, expected, resolution) => ResolveTaskInv(pg, m, id, request, expected, resolution, m');
  }

  /** Every machine state of every run satisfies the invariant. */
  lemma {:induction false} RunInv(pg: Program, ms: seq<Machine>, steps: seq<Step>, i: nat)
    requires ProgramOk(pg) && IsRun(pg, ms, steps) && i < |ms|
    ensures MachineInv(pg, ms[i])
  {
    hide StepOf, MachineInv, RecordsAnswered;
    if i == 0 {
      InitialInv(pg);
    } else {
      RunInv(pg, ms, steps, i - 1);
      StepInv(pg, ms[i - 1], steps[i - 1], ms[i]);
    }
  }

  lemma InitialInv(pg: Program)
    ensures MachineInv(pg, INITIAL)
  {
  }
}
