/** A crash between the two saves of `approve` leaves a record that is Running and has a pending request.
    Here is a run that does it, and what can and cannot be done about such a request. */
module RunPending {
  import opened Wrappers
  import opened GraphCore
  import opened RunModel
  import opened RunInvariant
  import opened RunProtocol
  import opened RunTheorems
  import H = RunHistory
  import E = ScopeEdits
  import C = RunCalls

  // ------------------------------------------------------------- such a record

  const GATE := Graph("gate", "gate", map["gate" := Barrier(None)], [], "", 0)
  const PROGRAM := Program("run", RunVersion("workflow", "schema"), GATE, Null, 1, NO_ANSWERS)
  const REQUEST := InvocationId(Root, "gate", 1)

  const CREATED := E.RootRecord("run", PROGRAM.version, GATE, Null, 1)
  const DRIVEN := CREATED.(revision := 1)
  const BEGUN := DRIVEN.(revision := 2, stepsUsed := 1,
                         frames := map[Root := FrameRecord("", Null, Some("gate"), 1, 1, true)])
  const PENDING := ApprovalRequest(REQUEST, Root, "gate", Null, "token", None, None, false)
  const ASKED := BEGUN.(revision := 3, approvals := map[REQUEST := PENDING])

  function Leased(r: RunRecord, phase: Phase, began: bool, threads: map<Path, Thread>): Option<Session> {
    Some(Session(r, false, false, phase, began, threads, {}, {}))
  }

  function Visited(): seq<Machine> {
    var head := map[Root := Head("gate", Null)];
    var node := map[Root := InNode("gate", 1, Null, false)];
    [ INITIAL,
      Machine([CREATED], Leased(CREATED, Loaded, false, map[]), [], []),
      Machine([CREATED, DRIVEN], Leased(DRIVEN, Driving, false, map[]), [], []),
      Machine([CREATED, DRIVEN], Leased(DRIVEN, Driving, false, head), [], []),
      Machine([CREATED, DRIVEN, BEGUN], Leased(BEGUN, Driving, true, node), [], []),
      Machine([CREATED, DRIVEN, BEGUN, ASKED], Leased(ASKED, Driving, true, node), [], []),
      Machine([CREATED, DRIVEN, BEGUN, ASKED], None, [], []) ]
  }

  function Taken(): seq<Step> {
    [StartRun, Execute(0), Enter(Root), BeginNode(Root), AskApproval(Root, "token", None), Release]
  }

  /** The lease ends after the request was saved and before the suspension was. */
  lemma LeftRunning()
    ensures ProgramOk(PROGRAM) && Reachable(PROGRAM, Visited()[6]) && Visited()[6].session.None?
    ensures var r := Last(Visited()[6]);
      r.status == RunStatus.Running && REQUEST in r.approvals && C.Undecided(r.approvals[REQUEST])
  {
    hide StepOf, Visited, Taken, RecordsAnswered;
    NoTasks();
    Started();
    Entered();
    Began();
    Asked();
    assert IsRun(PROGRAM, Visited(), Taken()) && Visited()[6] in Visited();
    Ended();
  }

  lemma NoTasks()
    ensures |Visited()| == 7 && forall i | 0 <= i < 7 :: RecordsAnswered(PROGRAM, Visited()[i])
  {
  }

  lemma Started()
    ensures Visited()[0] == INITIAL && |Visited()| == 7 && |Taken()| == 6
    ensures StepOf(PROGRAM, Visited()[0], Taken()[0], Visited()[1])
    ensures StepOf(PROGRAM, Visited()[1], Taken()[1], Visited()[2])
  {
  }

  lemma Entered()
    ensures StepOf(PROGRAM, Visited()[2], Taken()[2], Visited()[3])
  {
  }

  lemma Began()
    ensures StepOf(PROGRAM, Visited()[3], Taken()[3], Visited()[4])
  {
    var threads := map[Root := Head("gate", Null)];
    assert E.Begin(DRIVEN, Root, "gate") == Ok((BEGUN.(revision := 1), 1)) by {
      assert DRIVEN.frames[Root := BEGUN.frames[Root]] == BEGUN.frames;
    }
    assert threads[Root := InNode("gate", 1, Null, false)] == map[Root := InNode("gate", 1, Null, false)];
  }

  lemma Asked()
    ensures StepOf(PROGRAM, Visited()[4], Taken()[4], Visited()[5])
    ensures StepOf(PROGRAM, Visited()[5], Taken()[5], Visited()[6])
  {
    assert E.RequestApproval(BEGUN, REQUEST, "token", None) == ASKED.(revision := 2);
  }

  lemma Ended()
    ensures ProgramOk(PROGRAM) && Visited()[6].session.None?
    ensures var r := Last(Visited()[6]);
      r.status == RunStatus.Running && REQUEST in r.approvals && C.Undecided(r.approvals[REQUEST])
  {
  }

  // --------------------------------------------------- what becomes of a request

  /** Some call can give the request a receipt exactly while the run is Suspended, the request is not
      overdue, and the revision can still grow. */
  lemma DecidableExactly(r: RunRecord, id: InvocationId, now: nat)
    requires id in r.approvals && C.Undecided(r.approvals[id])
    ensures (exists token, request, expected, decision ::
               C.SubmitDecision(r, id, token, request, expected, decision, now).reply.Ok?)
       <==> r.status == RunStatus.Suspended && !E.Overdue(r.approvals[id], now) && r.revision < U64_MAX
  {
    var a := r.approvals[id];
    assert r.status == RunStatus.Suspended && !E.Overdue(a, now) && r.revision < U64_MAX ==>
      C.SubmitDecision(r, id, a.token, "request", r.revision, Approve, now).reply.Ok?;
  }

  /** A given call does so exactly when, besides, it has a request id and names token and revision. */
  lemma DecidesExactly(r: RunRecord, id: InvocationId, token: string, request: string, expected: nat,
                       decision: Decision, now: nat)
    requires id in r.approvals && C.Undecided(r.approvals[id])
    ensures C.SubmitDecision(r, id, token, request, expected, decision, now).reply.Ok?
       <==> && r.status == RunStatus.Suspended && !E.Overdue(r.approvals[id], now) && r.revision < U64_MAX
            && request != "" && token == r.approvals[id].token && expected == r.revision
  {
  }

  /** While the record is Running, no decision on any request is ever written. */
  lemma RunningTakesNoDecision(r: RunRecord, id: InvocationId, token: string, request: string, expected: nat,
                               decision: Decision, now: nat)
    requires r.status == RunStatus.Running
    ensures C.SubmitDecision(r, id, token, request, expected, decision, now).write.None?
  {
  }

  predicate Pending(a: ApprovalRequest) {
    a.receipt == None && !a.applied
  }

  /** An execution without cancellation starts no work exactly when no request is overdue and a request is
      undecided or a task unknown. */
  lemma StaysExactly(r: RunRecord, now: nat)
    ensures C.ExecutePrelude(r, false, now) == C.StaySuspended
       <==> && !(exists id | id in r.approvals :: Pending(r.approvals[id]) && !C.InTime(r.approvals[id], now))
            && ((exists id | id in r.approvals :: Pending(r.approvals[id]))
                || (exists id | id in r.tasks :: r.tasks[id].status == TaskStatus.Unknown))
    ensures forall cancelled ::
              (C.ExecutePrelude(r, cancelled, now) == C.ExpireRun
               <==> exists id | id in r.approvals :: Pending(r.approvals[id]) && !C.InTime(r.approvals[id], now))
    ensures C.ExecutePrelude(r, true, now) != C.StaySuspended
  {
  }

  /** So a lease that takes the record up again, uncancelled and in time, leaves it as it is and is done. */
  lemma ResumeWaits(pg: Program, m: Machine, now: nat, resumed: Machine, executed: Machine, id: InvocationId)
    requires StepOf(pg, m, Resume, resumed) && StepOf(pg, resumed, Execute(now), executed)
    requires id in Last(m).approvals && C.Undecided(Last(m).approvals[id])
    requires forall j | j in Last(m).approvals && C.Undecided(Last(m).approvals[j]) ::
               !E.Overdue(Last(m).approvals[j], now)
    ensures executed.saved == m.saved && executed.commits == m.commits && executed.launches == m.launches
    ensures executed.session.Some? && executed.session.value.phase == Finished
  {
    StaysExactly(Last(m), now);
  }

  /** Cancelling is the call that ends such a run, or a suspended one. */
  lemma CancelEnds(r: RunRecord)
    requires (r.status == RunStatus.Running || r.status == RunStatus.Suspended) && r.revision < U64_MAX
    ensures C.CancelRun(r, r.revision).write == Some(r.(status := RunStatus.Cancelled, revision := r.revision + 1))
  {
  }

  // ------------------------------------------------------------------ every later machine

  /** The request is undecided and the run is Running, or was cancelled or has expired without an answer.
      A lease that works on it has begun nothing and, if it drives the run at all, is cancelled. */
  predicate Stranded(m: Machine, id: InvocationId) {
    && m.saved != [] && id in Last(m).approvals && C.Undecided(Last(m).approvals[id])
    && (Last(m).status == RunStatus.Running || Last(m).status == RunStatus.Cancelled
        || Last(m).status == RunStatus.Expired)
    && (m.session.Some? ==> NothingBegun(m.session.value) && Follows(m.session.value, Last(m)))
  }

  predicate NothingBegun(s: Session) {
    && !s.began && (forall p | p in s.threads :: !s.threads[p].InNode?)
    && (s.phase == Driving ==> s.cancelled)
  }

  predicate Follows(s: Session, last: RunRecord) {
    !s.poisoned ==> s.record == last
  }

  lemma StrandedLoop(pg: Program, m: Machine, step: Step, m': Machine, id: InvocationId)
    requires Stranded(m, id) && StepOf(pg, m, step, m') && H.IsLoopStep(step)
    ensures Stranded(m', id)
  {
    hide C.ExecutePrelude, C.ValidateRecord, OriginOf, E.Commit, E.Begin, CallOrigin, Recall, GraphAt, Route,
         Callable, CalledOrigin, ReturnedStates, AllReturned, ChildrenDone;
  }

  lemma StrandedLease(pg: Program, m: Machine, step: Step, m': Machine, id: InvocationId)
    requires Stranded(m, id) && StepOf(pg, m, step, m') && !H.IsCall(step) && !step.Execute? && !H.IsLoopStep(step)
    ensures Stranded(m', id)
  {
    hide C.ExecutePrelude, C.ValidateRecord, OriginOf, E.Commit, E.Begin, GraphAt;
  }

  lemma StrandedExecute(pg: Program, m: Machine, now: nat, m': Machine, id: InvocationId)
    requires Stranded(m, id) && ExecuteStep(m, now, m')
    ensures Stranded(m', id)
  {
  }

  lemma StrandedCall(pg: Program, m: Machine, step: Step, m': Machine, id: InvocationId)
    requires Stranded(m, id) && StepOf(pg, m, step, m') && H.IsCall(step)
    ensures Stranded(m', id)
  {
    hide C.ValidateRecord;
  }

  lemma StrandedStep(pg: Program, m: Machine, step: Step, m': Machine, id: InvocationId)
    requires Stranded(m, id) && StepOf(pg, m, step, m')
    ensures Stranded(m', id)
  {
    hide Stranded;
    if H.IsCall(step) {
      StrandedCall(pg, m, step, m', id);
    } else if step.Execute? {
      StrandedExecute(pg, m, step.now, m', id);
    } else if H.IsLoopStep(step) {
      StrandedLoop(pg, m, step, m', id);
    } else {
      StrandedLease(pg, m, step, m', id);
    }
  }

  lemma StrandedFirst(m: Machine, id: InvocationId)
    requires m.session.None? && m.saved != [] && Last(m).status == RunStatus.Running
    requires id in Last(m).approvals && C.Undecided(Last(m).approvals[id])
    ensures Stranded(m, id)
  {
  }

  /** From a record at rest that is Running with an undecided request, no later machine of the run has a
      receipt for it: the run can only be cancelled or expire. */
  lemma {:induction false} NeverDecided(pg: Program, ms: seq<Machine>, steps: seq<Step>, i: nat, j: nat,
                                        id: InvocationId)
    requires IsCourse(pg, ms, steps) && i <= j < |ms| && ms[i].session.None? && ms[i].saved != []
    requires Last(ms[i]).status == RunStatus.Running
    requires id in Last(ms[i]).approvals && C.Undecided(Last(ms[i]).approvals[id])
    ensures Stranded(ms[j], id)
    decreases j - i
  {
    hide StepOf, Stranded;
    if i < j {
      NeverDecided(pg, ms, steps, i, j - 1, id);
      StrandedStep(pg, ms[j - 1], steps[j - 1], ms[j], id);
    } else {
      StrandedFirst(ms[i], id);
    }
  }
}
