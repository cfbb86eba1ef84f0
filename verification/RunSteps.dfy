/** What the protocol must allow: at each point where the code can do something, there is the step, with what
    it leaves behind spelled out. The safety theorems say that there are not too many steps, this that there
    are not too few. */
module RunSteps {
  import opened Wrappers
  import opened GraphCore
  import opened RunModel
  import opened RunInvariant
  import opened RunProtocol
  import E = ScopeEdits
  import C = RunCalls

  /** What becomes of a save: it is confirmed; it is not done; it is done and reported as failed. */
  datatype Fate = Confirmed | Lost | Unseen

  /** The machine after a save of `r` with this fate; the session goes on as `s` when it is confirmed. */
  function Saved(m: Machine, r: RunRecord, s: Session, log: seq<CommitEvent>, fate: Fate): Machine
    requires m.session.Some?
  {
    match fate
    case Confirmed =>
      Machine(m.saved + [r], Some(s.(record := r)), m.commits + log, m.launches)
    case Lost =>
      Machine(m.saved, Some(m.session.value.(poisoned := true)), m.commits, m.launches)
    case Unseen =>
      Machine(m.saved + [r], Some(m.session.value.(poisoned := true)), m.commits + log, m.launches)
  }

  /** Every save can have each fate, and no other. */
  lemma SaveFates(m: Machine, edited: RunRecord, s: Session, log: seq<CommitEvent>, m': Machine)
    requires m.session.Some? && !m.session.value.poisoned && edited.revision < 0xffff_ffff_ffff_ffff
    ensures var r := edited.(revision := edited.revision + 1);
      Persist(m, Ok(edited), s, log, m')
      <==> m' == Saved(m, r, s, log, Confirmed) || m' == Saved(m, r, s, log, Lost) || m' == Saved(m, r, s, log, Unseen)
  {
    var r := edited.(revision := edited.revision + 1);
    assert Saved(m, r, s, log, Confirmed) == m.(saved := m.saved + [r], session := Some(s.(record := r)),
                                                commits := m.commits + log);
    assert Saved(m, r, s, log, Lost) == m.(session := Some(m.session.value.(poisoned := true)));
    assert Saved(m, r, s, log, Unseen) == m.(saved := m.saved + [r], commits := m.commits + log,
                                             session := Some(m.session.value.(poisoned := true)));
  }

  /** Room for one more revision. */
  predicate Open(m: Machine) {
    m.session.Some? && !m.session.value.poisoned && m.session.value.record.revision < 0xffff_ffff_ffff_ffff
  }

  /** The session's record under another status, one revision on. */
  function Restatus(m: Machine, status: RunStatus): RunRecord
    requires m.session.Some?
  {
    m.session.value.record.(status := status, revision := m.session.value.record.revision + 1)
  }

  // ---------------------------------------------------------------- cancellation

  /** A lease can be cancelled at any time, and then knows it. */
  lemma CancelCanBe(pg: Program, m: Machine) returns (m': Machine)
    requires m.session.Some?
    ensures StepOf(pg, m, CancelRoot, m') && m'.session.Some? && m'.session.value.cancelled && m'.saved == m.saved
  {
    m' := m.(session := Some(m.session.value.(cancelled := true)));
  }

  /** A cancelled run ends as such once its root has returned or halted, or was never entered. */
  lemma CancelledCanEnd(pg: Program, m: Machine, fate: Fate) returns (m': Machine)
    requires Open(m) && m.session.value.phase == Driving && m.session.value.cancelled
    requires Root in m.session.value.threads ==>
               m.session.value.threads[Root].Returned? || m.session.value.threads[Root].Halted?
    ensures StepOf(pg, m, CancelledRun, m')
    ensures m' == Saved(m, Restatus(m, Cancelled), m.session.value.(phase := Finished, threads := map[]), [], fate)
  {
    var s := m.session.value.(phase := Finished, threads := map[]);
    m' := Saved(m, Restatus(m, Cancelled), s, [], fate);
    SaveFates(m, E.SetStatus(m.session.value.record, Cancelled), s, [], m');
  }

  // -------------------------------------------------------------------- the gate

  /** A running invocation of a barrier that has not been passed. */
  ghost predicate Waits(pg: Program, m: Machine, p: Path) {
    Open(m) && m.session.value.phase == Driving && AtGate(pg, m, p)
  }

  /** Without a request, one is recorded about the persisted state. */
  lemma GateCanAsk(pg: Program, m: Machine, p: Path, token: string, deadline: Option<nat>, fate: Fate)
    returns (m': Machine)
    requires Waits(pg, m, p) && p in m.session.value.record.frames
    requires Current(m.session.value, p) !in m.session.value.record.approvals
    ensures StepOf(pg, m, AskApproval(p, token, deadline), m')
    ensures var s := m.session.value; var id := Current(s, p);
      var a := ApprovalRequest(id, p, id.node, s.record.frames[p].state, token, deadline, None, false);
      m' == Saved(m, s.record.(approvals := s.record.approvals[id := a], revision := s.record.revision + 1), s, [],
                  fate)
  {
    var s := m.session.value;
    var edited := E.RequestApproval(s.record, Current(s, p), token, deadline);
    m' := Saved(m, edited.(revision := edited.revision + 1), s, [], fate);
    SaveFates(m, edited, s, [], m');
  }

  /** The request of the running invocation, if it is recorded. */
  ghost predicate Asked(pg: Program, m: Machine, p: Path) {
    Waits(pg, m, p) && Current(m.session.value, p) in m.session.value.record.approvals
  }

  ghost function Request(pg: Program, m: Machine, p: Path): ApprovalRequest
    requires Asked(pg, m, p)
  {
    m.session.value.record.approvals[Current(m.session.value, p)]
  }

  /** The session with the gate's thread halted. */
  function GateHalted(m: Machine, p: Path, e: DurableError): Session
    requires m.session.Some?
  {
    m.session.value.(threads := m.session.value.threads[p := Halted(e)])
  }

  /** An undecided request suspends the run. */
  lemma GateCanSuspend(pg: Program, m: Machine, p: Path, fate: Fate) returns (m': Machine)
    requires Asked(pg, m, p) && Request(pg, m, p).receipt == None
    ensures StepOf(pg, m, WaitApproval(p), m')
    ensures m' == Saved(m, Restatus(m, RunStatus.Suspended), GateHalted(m, p, DurableError.Suspended), [], fate)
  {
    m' := Saved(m, Restatus(m, RunStatus.Suspended), GateHalted(m, p, DurableError.Suspended), [], fate);
    SaveFates(m, E.SetStatus(m.session.value.record, RunStatus.Suspended), GateHalted(m, p, DurableError.Suspended),
              [], m');
  }

  /** An overdue one can expire it. */
  lemma GateCanExpire(pg: Program, m: Machine, p: Path, now: nat, fate: Fate) returns (m': Machine)
    requires Asked(pg, m, p) && Request(pg, m, p).receipt == None
    requires Request(pg, m, p).deadline.Some? && Request(pg, m, p).deadline.value <= now
    ensures StepOf(pg, m, ExpireApproval(p, now), m')
    ensures m' == Saved(m, Restatus(m, Expired), GateHalted(m, p, Stopped), [], fate)
  {
    m' := Saved(m, Restatus(m, Expired), GateHalted(m, p, Stopped), [], fate);
    SaveFates(m, E.SetStatus(m.session.value.record, Expired), GateHalted(m, p, Stopped), [], m');
  }

  /** An approval opens the gate; the barrier can then be committed. */
  lemma GateCanOpen(pg: Program, m: Machine, p: Path) returns (m': Machine)
    requires Asked(pg, m, p)
    requires Request(pg, m, p).receipt.Some? && Request(pg, m, p).receipt.value.decision == Approve
    ensures StepOf(pg, m, ClearApproval(p), m') && m'.saved == m.saved && m'.session.Some?
    ensures var t := m.session.value.threads[p];
      m'.session.value.threads == m.session.value.threads[p := InNode(t.current, t.invocation, t.state, true)]
  {
    var s := m.session.value;
    m' := m.(session := Some(s.(threads := s.threads[p := s.threads[p].(cleared := true)])));
  }

  /** A rejection is applied and ends the run. */
  lemma GateCanRefuse(pg: Program, m: Machine, p: Path, fate: Fate) returns (m': Machine)
    requires Asked(pg, m, p) && Request(pg, m, p).receipt.Some? && Request(pg, m, p).receipt.value.decision.Reject?
    ensures StepOf(pg, m, RefuseApproval(p), m')
    ensures var approvals := m.session.value.record.approvals;
      var id := Current(m.session.value, p);
      m' == Saved(m, Restatus(m, Rejected).(approvals := approvals[id := approvals[id].(applied := true)]),
                  GateHalted(m, p, Stopped), [], fate)
  {
    var s := m.session.value;
    var id := Current(s, p);
    var r := Restatus(m, Rejected).(approvals := s.record.approvals[id := s.record.approvals[id].(applied := true)]);
    m' := Saved(m, r, GateHalted(m, p, Stopped), [], fate);
    SaveFates(m, E.RejectApproval(s.record, id), GateHalted(m, p, Stopped), [], m');
  }

  // ----------------------------------------------------------------------- tasks

  /** A task call of a begun invocation, on a record that can be saved. */
  predicate Calls(m: Machine) {
    Open(m) && m.session.value.began
  }

  /** The record with this task in this state, one revision on. */
  function Retask(m: Machine, id: TaskId, t: TaskRecord): RunRecord
    requires m.session.Some?
  {
    var r := m.session.value.record;
    r.(tasks := r.tasks[id := t], revision := r.revision + 1)
  }

  /** A new task is recorded as planned. */
  lemma TaskCanBePlanned(pg: Program, m: Machine, id: TaskId, version: string, input: Json, policy: ReplayPolicy,
                         fate: Fate) returns (m': Machine)
    requires Calls(m) && id !in m.session.value.record.tasks
    ensures StepOf(pg, m, PlanTask(id, version, input, policy), m')
    ensures var t := TaskRecord(id, version, input, policy, TaskStatus.Planned, 0, None, map[]);
      m' == Saved(m, Retask(m, id, t), m.session.value, [], fate)
  {
    var s := m.session.value;
    m' := Saved(m, Retask(m, id, TaskRecord(id, version, input, policy, TaskStatus.Planned, 0, None, map[])), s, [],
                fate);
    SaveFates(m, E.PlanTask(s.record, id, version, input, policy), s, [], m');
  }

  /** A planned task can be started; one that was started, or whose outcome is unknown, under a policy that allows
      replay. */
  lemma TaskCanStart(pg: Program, m: Machine, id: TaskId, fate: Fate) returns (m': Machine)
    requires Calls(m) && id in m.session.value.record.tasks
    requires var t := m.session.value.record.tasks[id];
      && t.attempts < 0xffff_ffff && id !in m.session.value.starting && id !in m.session.value.acting
      && (t.status == TaskStatus.Planned
          || ((t.status == TaskStatus.Started || t.status == TaskStatus.Unknown)
              && (t.policy == ReplaySafe || t.policy == IdempotentWithKey)))
    ensures StepOf(pg, m, StartTask(id), m')
    ensures var s := m.session.value; var t := s.record.tasks[id];
      m' == Saved(m, Retask(m, id, t.(status := TaskStatus.Started, attempts := t.attempts + 1)),
                  s.(starting := s.starting + {id}), [], fate)
  {
    var s := m.session.value;
    var t := s.record.tasks[id];
    m' := Saved(m, Retask(m, id, t.(status := TaskStatus.Started, attempts := t.attempts + 1)),
                s.(starting := s.starting + {id}), [], fate);
    SaveFates(m, E.StartTask(s.record, id).value.0, s.(starting := s.starting + {id}), [], m');
  }

  /** What was started is launched, and is then acting. */
  lemma TaskCanBeLaunched(pg: Program, m: Machine, id: TaskId) returns (m': Machine)
    requires m.session.Some? && m.session.value.began && id in m.session.value.starting
    ensures StepOf(pg, m, LaunchTask(id), m') && m'.saved == m.saved && m'.launches == m.launches + [id]
    ensures m'.session.Some? && m'.session.value.record == m.session.value.record
    ensures id in m'.session.value.acting && id !in m'.session.value.starting
  {
    var s := m.session.value;
    m' := m.(session := Some(s.(starting := s.starting - {id}, acting := s.acting + {id})),
             launches := m.launches + [id]);
  }

  /** An action can yield any result, which is recorded. */
  lemma TaskCanFinish(pg: Program, m: Machine, id: TaskId, result: Json, fate: Fate) returns (m': Machine)
    requires Calls(m) && id in m.session.value.acting && id in m.session.value.record.tasks
    ensures StepOf(pg, m, FinishTask(id, result), m')
    ensures var s := m.session.value; var t := s.record.tasks[id];
      m' == Saved(m, Retask(m, id, t.(status := TaskStatus.Completed, result := Some(result))),
                  s.(acting := s.acting - {id}), [], fate)
  {
    var s := m.session.value;
    var t := s.record.tasks[id];
    m' := Saved(m, Retask(m, id, t.(status := TaskStatus.Completed, result := Some(result))),
                s.(acting := s.acting - {id}), [], fate);
    SaveFates(m, E.CompleteTask(s.record, id, result), s.(acting := s.acting - {id}), [], m');
  }

  /** A manual task that failed, or is found started or unknown, is parked, and the run suspended. */
  lemma TaskCanBeParked(pg: Program, m: Machine, id: TaskId, fate: Fate) returns (m': Machine)
    requires Calls(m) && id in m.session.value.record.tasks
    requires var s := m.session.value; var t := s.record.tasks[id];
      && t.policy == ManualRecovery
      && (id in s.acting
          || (id !in s.starting && (t.status == TaskStatus.Started || t.status == TaskStatus.Unknown)))
      && s.record.status != Rejected && s.record.status != Cancelled && s.record.status != Expired
    ensures StepOf(pg, m, ParkTask(id), m')
    ensures var s := m.session.value; var t := s.record.tasks[id];
      m' == Saved(m, Retask(m, id, t.(status := TaskStatus.Unknown)).(status := RunStatus.Suspended),
                  s.(acting := s.acting - {id}), [], fate)
  {
    var s := m.session.value;
    var t := s.record.tasks[id];
    m' := Saved(m, Retask(m, id, t.(status := TaskStatus.Unknown)).(status := RunStatus.Suspended),
                s.(acting := s.acting - {id}), [], fate);
    SaveFates(m, E.ParkTask(s.record, id).value, s.(acting := s.acting - {id}), [], m');
  }

  // ----------------------------------------------------------------------- calls

  /** Nobody holds the run, whose last record is this program's and can be read. */
  predicate AtRest(pg: Program, m: Machine) {
    && m.session.None? && m.saved != [] && Readable(Last(m))
    && Last(m).runId == pg.runId && Last(m).version == pg.version
  }

  /** A decision can come at any time, and leaves what the decision means. */
  lemma DecisionCanCome(pg: Program, m: Machine, id: InvocationId, token: string, request: string, expected: nat,
                        decision: Decision, now: nat) returns (m': Machine)
    requires AtRest(pg, m) && request != "" && C.MayDecide(Last(m), id, token, expected)
    ensures StepOf(pg, m, SubmitDecision(id, token, request, expected, decision, now), m')
    ensures m'.session.None? && m'.saved == m.saved + [Last(m')]
    ensures m'.saved != [] && exists r ::
              C.DecisionDone(Last(m), Last(m'), id, token, request, expected, decision, now, true, true, r)
  {
    hide C.SubmitDecision, C.DecisionDone, C.MayDecide, Readable, Validate;
    ValidateExactly(Last(m));
    C.DecisionWritten(Last(m), id, token, request, expected, decision, now);
    C.DecisionMeans(Last(m), id, token, request, expected, decision, now, true, true);
    var a := C.SubmitDecision(Last(m), id, token, request, expected, decision, now);
    m' := m.(saved := m.saved + [a.write.value]);
    assert C.DecisionDone(Last(m), Last(m'), id, token, request, expected, decision, now, true, true, a.reply);
  }

  /** So can a resolution. */
  lemma ResolutionCanCome(pg: Program, m: Machine, id: TaskId, request: string, expected: nat,
                          resolution: TaskResolution) returns (m': Machine)
    requires AtRest(pg, m) && request != "" && C.MayResolve(Last(m), id, request, expected)
    ensures StepOf(pg, m, Step.ResolveTask(id, request, expected, resolution), m')
    ensures m'.session.None? && m'.saved != [] && m'.saved == m.saved + [Last(m')]
    ensures C.ResolutionStored(Last(m), Last(m'), id, request, resolution)
  {
    ValidateExactly(Last(m));
    C.ResolutionMeans(Last(m), id, request, expected, resolution, true, true);
    var a := C.ResolveTask(Last(m), id, request, expected, resolution);
    m' := m.(saved := m.saved + [a.write.value]);
  }

  /** And a cancellation of an open run. */
  lemma CancellationCanCome(pg: Program, m: Machine) returns (m': Machine)
    requires AtRest(pg, m) && (Last(m).status == Running || Last(m).status == RunStatus.Suspended)
    requires Last(m).revision < 0xffff_ffff_ffff_ffff
    ensures StepOf(pg, m, CancelCall(Last(m).revision), m')
    ensures m' == m.(saved := m.saved + [Last(m).(status := Cancelled, revision := Last(m).revision + 1)])
  {
    ValidateExactly(Last(m));
    m' := m.(saved := m.saved + [Last(m).(status := Cancelled, revision := Last(m).revision + 1)]);
  }
}
