/** External work inside a node: planned, started and recorded, so that it is not repeated blindly. */
module TaskRuntime {
  import opened Wrappers
  import opened GraphCore
  import opened RunModel
  import opened RunInvariant
  import opened RunStore
  import opened FrameScope
  import E = ScopeEdits

  /** The call describes another task than the record. */
  predicate Refused(tasks: map<TaskId, TaskRecord>, id: TaskId, version: string, input: Json, policy: ReplayPolicy,
                    e: DurableError) {
    e == Incompatible && id in tasks && !SameTask(tasks[id], version, input, policy)
  }

  /** The task may be launched: it is new, planned, or replay is allowed. */
  predicate Launchable(tasks: map<TaskId, TaskRecord>, id: TaskId, policy: ReplayPolicy) {
    id in tasks ==>
      && tasks[id].status != TaskStatus.Completed
      && (policy == ManualRecovery ==> tasks[id].status == TaskStatus.Planned)
  }

  /** The outcome of the task is unknown, and the run waits for somebody to say. */
  predicate Parked(r: RunRecord, id: TaskId) {
    id in r.tasks && r.tasks[id].status == TaskStatus.Unknown && r.status == RunStatus.Suspended
  }

  /** A save was refused or failed. */
  predicate Unsaved(e: DurableError) {
    e == Conflict || e == Storage
  }

  /** The task is recorded as described, with this result. */
  predicate Recorded(tasks: map<TaskId, TaskRecord>, id: TaskId, version: string, input: Json, policy: ReplayPolicy,
                     result: Json) {
    && id in tasks && SameTask(tasks[id], version, input, policy)
    && tasks[id].status == TaskStatus.Completed && tasks[id].result == Some(result)
  }

  // -------------------------------------------------------------------- one task

  /** Nothing was touched but one task, and perhaps the status. */
  predicate Touched(was: View, now: View, id: TaskId) {
    && was.time <= now.time && (was.poisoned ==> now.poisoned) && was.launches <= now.launches
    && now.record.frames == was.record.frames && now.record.approvals == was.record.approvals
    && now.record.stepsUsed == was.record.stepsUsed && now.record.maxSteps == was.record.maxSteps
    && was.record.revision <= now.record.revision
    && now.record.tasks - {id} == was.record.tasks - {id}
    && (id in was.record.tasks ==> id in now.record.tasks && TaskKept(was.record.tasks[id], now.record.tasks[id]))
  }

  lemma TouchedOn(a: View, b: View, c: View, id: TaskId)
    requires Touched(a, b, id) && Touched(b, c, id)
    ensures Touched(a, c, id)
  {
  }

  lemma TouchedRisen(was: View, now: View, id: TaskId)
    requires Touched(was, now, id)
    ensures Risen(was, now)
  {
    SameRequests(was.record.approvals);
    forall other | other in was.record.tasks
      ensures other in now.record.tasks && TaskKept(was.record.tasks[other], now.record.tasks[other])
    {
      if other != id {
        assert other in was.record.tasks - {id};
        assert (now.record.tasks - {id})[other] == (was.record.tasks - {id})[other];
      }
    }
  }

  lemma OneTask(tasks: map<TaskId, TaskRecord>, id: TaskId, t: TaskRecord)
    ensures tasks[id := t] - {id} == tasks - {id}
  {
  }

  /** A new state of one task that is no other task, and tells nothing but its answer. */
  lemma AnsweredPut(pg: Program, tasks: map<TaskId, TaskRecord>, id: TaskId, t: TaskRecord)
    requires Answered(pg, tasks)
    requires t.status == TaskStatus.Completed ==> t.result.Some? && t.result == pg.answers(id)
    ensures Answered(pg, tasks[id := t])
  {
  }

  method Plan(ghost pg: Program, s: Session, id: TaskId, version: string, input: Json, policy: ReplayPolicy)
    returns (r: Result<(), DurableError>)
    requires s.Good(pg) && id !in s.record.tasks
    modifies s`record, s`poisoned, s.store`records, s.store.world`time
    ensures s.Good(pg) && Touched(old(s.Here()), s.Here(), id)
    ensures r.Ok? ==>
              && s.record.status == old(s.record.status)
              && var t := TaskRecord(id, version, input, policy, TaskStatus.Planned, 0, None, map[]);
                 s.record.tasks == old(s.record.tasks)[id := t]
    ensures r.Err? ==> s.record == old(s.record) && Unsaved(r.error) && s.Disturbed()
  {
    hide EvalNode, OriginOf, CursorAt, FramesOk, ApprovalsOk, Answered, Truthful;
    ghost var was, stored := s.record, s.Stored();
    RetriesBound(map[]);
    TaskInv(pg, was, E.PlanTask(was, id, version, input, policy), id);
    AnsweredPut(pg, was.tasks, id, E.PlannedTask(id, version, input, policy));
    OneTask(was.tasks, id, E.PlannedTask(id, version, input, policy));
    r := s.Update((x: RunRecord) => Ok((E.PlanTask(x, id, version, input, policy), ())));
    s.SavedGood(pg, Ok(E.PlanTask(was, id, version, input, policy)), was, stored, r.Ok?);
  }

  /** Record the start of one more attempt. */
  method Start(ghost pg: Program, s: Session, id: TaskId) returns (r: Result<nat, DurableError>)
    requires s.Good(pg) && id in s.record.tasks && Launchable(s.record.tasks, id, s.record.tasks[id].policy)
    modifies s`record, s`poisoned, s.store`records, s.store.world`time
    ensures s.Good(pg) && Touched(old(s.Here()), s.Here(), id)
    ensures r.Ok? ==>
              && s.Stored() == s.record && s.record.status == old(s.record.status)
              && s.record.tasks[id] == old(s.record.tasks[id]).(status := TaskStatus.Started, attempts := r.value)
              && r.value == old(s.record.tasks[id].attempts) + 1 <= 0xffff_ffff
    ensures r.Err? ==>
              && s.record == old(s.record) && Unsaved(r.error)
              && (s.Disturbed() || (r.error == Conflict && s.record.tasks[id].attempts >= U32_MAX))
  {
    hide EvalNode, OriginOf, CursorAt, FramesOk, ApprovalsOk, Answered, Truthful;
    ghost var was, stored := s.record, s.Stored();
    assert TaskOk(id, was.tasks[id]);
    ghost var edited: Result<RunRecord, DurableError> := Err(Conflict);
    if E.StartTask(was, id).Ok? {
      edited := Ok(E.StartTask(was, id).value.0);
      TaskInv(pg, was, edited.value, id);
      AnsweredPut(pg, was.tasks, id, edited.value.tasks[id]);
      OneTask(was.tasks, id, edited.value.tasks[id]);
    }
    r := s.Update((x: RunRecord) => if id in x.tasks then E.StartTask(x, id) else Err(NotFound));
    s.SavedGood(pg, edited, was, stored, r.Ok?);
  }

  method Complete(ghost pg: Program, s: Session, id: TaskId, result: Json) returns (r: Result<(), DurableError>)
    requires s.Good(pg) && id in s.record.tasks && s.record.tasks[id].status == TaskStatus.Started
    requires pg.answers(id) == Some(result)
    modifies s`record, s`poisoned, s.store`records, s.store.world`time
    ensures s.Good(pg) && Touched(old(s.Here()), s.Here(), id) && s.record.status == old(s.record.status)
    ensures r.Ok? ==>
              s.record.tasks[id] == old(s.record.tasks[id]).(result := Some(result), status := TaskStatus.Completed)
    ensures r.Err? ==> s.record == old(s.record) && Unsaved(r.error) && s.Disturbed()
  {
    hide EvalNode, OriginOf, CursorAt, FramesOk, ApprovalsOk, Answered, Truthful;
    ghost var was, stored := s.record, s.Stored();
    ghost var edited := E.CompleteTask(was, id, result);
    assert TaskOk(id, was.tasks[id]);
    TaskInv(pg, was, edited, id);
    AnsweredPut(pg, was.tasks, id, edited.tasks[id]);
    OneTask(was.tasks, id, edited.tasks[id]);
    r := s.Update((x: RunRecord) => if id in x.tasks then Ok((E.CompleteTask(x, id, result), ())) else Err(NotFound));
    s.SavedGood(pg, Ok(edited), was, stored, r.Ok?);
  }

  lemma ParkedSane(pg: Program, r: RunRecord, id: TaskId)
    requires Sane(pg, r) && id in r.tasks
    requires r.tasks[id].status == TaskStatus.Started || r.tasks[id].status == TaskStatus.Unknown
    ensures E.ParkTask(r, id).Ok? ==>
              Sane(pg, E.ParkTask(r, id).value) && E.ParkTask(r, id).value.tasks - {id} == r.tasks - {id}
  {
    hide EvalNode, OriginOf, CursorAt, FramesOk, ApprovalsOk, Answered;
    assert TaskOk(id, r.tasks[id]);
    if E.ParkTask(r, id).Ok? {
      var t := E.ParkTask(r, id).value.tasks[id];
      TaskInv(pg, r, E.ParkTask(r, id).value, id);
      AnsweredPut(pg, r.tasks, id, t);
      OneTask(r.tasks, id, t);
    }
  }

  lemma ParkTouches(was: View, now: View, id: TaskId)
    requires id in was.record.tasks && was.record.tasks[id].status != TaskStatus.Completed
    requires was.time <= now.time && (was.poisoned ==> now.poisoned) && was.launches == now.launches
    requires || now.record == was.record
             || (E.ParkTask(was.record, id).Ok?
                 && E.Bumped(E.ParkTask(was.record, id).value) == Ok(now.record))
    ensures Touched(was, now, id)
    ensures now.record.tasks[id] == was.record.tasks[id].(status := now.record.tasks[id].status)
  {
    if now.record != was.record {
      OneTask(was.record.tasks, id, now.record.tasks[id]);
    }
  }

  /** Park a task whose outcome is unknown and suspend the run for manual recovery. */
  method Park(ghost pg: Program, s: Session, id: TaskId) returns (r: Result<Json, DurableError>)
    requires s.Good(pg) && id in s.record.tasks
    requires s.record.tasks[id].status == TaskStatus.Started || s.record.tasks[id].status == TaskStatus.Unknown
    modifies s`record, s`poisoned, s.store`records, s.store.world`time
    ensures s.Good(pg) && r.Err? && Touched(old(s.Here()), s.Here(), id)
    ensures s.record.tasks[id] == old(s.record.tasks[id]).(status := s.record.tasks[id].status)
    ensures if r.error == DurableError.Suspended then Parked(s.record, id)
            else && s.record == old(s.record) && r.error != NodeFailed
                 && ((s.Disturbed() && r.error != Stopped) || (r.error == Stopped && Halting(s.record.status)))
  {
    hide RecordInv, Answered, Truthful, Touched, Faulty;
    ghost var start, was, stored := s.Here(), s.record, s.Stored();
    ParkedSane(pg, was, id);
    var saved := s.Update((x: RunRecord) => E.Unit(E.ParkTask(x, id)));
    s.SavedGood(pg, E.ParkTask(was, id), was, stored, saved.Ok?);
    ParkTouches(start, s.Here(), id);
    r := if saved.Err? then Err(saved.error) else Err(DurableError.Suspended);
  }

  // ------------------------------------------------------------------- one attempt

  /** Perform the external action, whose start is in the store by then: it may succeed with any result,
      fail, or panic. */
  method Act(ghost pg: Program, s: Session, id: TaskId) returns (outcome: Option<Json>)
    requires s.Good(pg) && s.Stored() == s.record
    requires id in s.record.tasks && s.record.tasks[id].status == TaskStatus.Started
    modifies s`launches, s.store.world`time
    ensures s.Good(pg) && s.record == old(s.record) && s.launches == old(s.launches) + [id]
    ensures s.store.world.time == old(s.store.world.time) + 1
    ensures outcome == s.store.world.at(old(s.store.world.time)).outcome(id)
    ensures outcome.Some? ==> pg.answers(id) == outcome
  {
    hide RecordInv, Answered;
    s.launches := s.launches + [id];
    var moment := s.store.world.Look();
    outcome := moment.outcome(id);
  }

  /** Some action launched in the span did not succeed at a moment of it. */
  predicate Fruitless(at: nat -> Moment, was: View, now: View) {
    exists id, k | id in now.launches[if |was.launches| <= |now.launches| then |was.launches| else 0..]
                   && was.time <= k < now.time :: at(k).outcome(id).None?
  }

  /** Why a task call may fail although its record agrees: nothing can be saved any more, the run is over,
      the attempts are used up, the action did not succeed, or its outcome is unknown. */
  predicate Failed(at: nat -> Moment, was: View, now: View, id: TaskId, policy: ReplayPolicy, e: DurableError) {
    if e == NodeFailed then policy != ManualRecovery && Fruitless(at, was, now)
    else
      || now.poisoned || now.record.revision >= U64_MAX
      || match e
         case Stopped => Halting(now.record.status) || was.record.status == RunStatus.Completed
         case Conflict => id in now.record.tasks && now.record.tasks[id].attempts >= U32_MAX
         case Suspended => policy == ManualRecovery && Parked(now.record, id)
         case _ => false
  }

  /** An attempt charges the task once and launches it, and otherwise does nothing. */
  predicate Attempted(at: nat -> Moment, was: View, now: View, id: TaskId, r: Result<Json, DurableError>)
    requires id in was.record.tasks
  {
    var t := was.record.tasks[id];
    && Touched(was, now, id)
    && (r.Err? ==> Failed(at, was, now, id, t.policy, r.error))
    && (now.record.status == was.record.status || r == Err(DurableError.Suspended))
    && (r == Err(DurableError.Suspended) ==> t.policy == ManualRecovery && Parked(now.record, id))
    && (r == Err(Stopped) ==> Halting(now.record.status))
    && if now.launches == was.launches then now.record == was.record && r.Err?
       else
         && now.launches == was.launches + [id]
         && now.record.tasks[id].attempts == t.attempts + 1 <= 0xffff_ffff
         && (r.Ok? ==> Recorded(now.record.tasks, id, t.version, t.input, t.policy, r.value))
  }

  /** One attempt of a recorded task: start it, act, and record or park the outcome. */
  method Attempt(ghost pg: Program, s: Session, id: TaskId, policy: ReplayPolicy)
    returns (r: Result<Json, DurableError>)
    requires s.Good(pg) && id in s.record.tasks && s.record.tasks[id].policy == policy
    requires Launchable(s.record.tasks, id, policy)
    modifies s`record, s`poisoned, s`launches, s.store`records, s.store.world`time
    ensures s.Good(pg) && Attempted(s.store.world.at, old(s.Here()), s.Here(), id, r)
  {
    hide RecordInv, Answered, Truthful, Attempted, Touched;
    ghost var at, start := s.store.world.at, s.Here();
    var attempt := Start(pg, s, id);
    ghost var started := s.Here();
    if attempt.Err? {
      NotStarted(at, start, started, id, attempt.error);
      return Err(attempt.error);
    }
    StillThere(start, started, id);
    var outcome := Act(pg, s, id);
    ghost var acted := s.Here();
    r := Settle(pg, s, id, policy, outcome);
    AttemptSettled(at, start, started, acted, s.Here(), id, outcome, r);
  }

  lemma StillThere(was: View, now: View, id: TaskId)
    requires Touched(was, now, id) && id in was.record.tasks
    ensures id in now.record.tasks && now.record.tasks[id].policy == was.record.tasks[id].policy
  {
  }

  lemma NotStarted(at: nat -> Moment, was: View, now: View, id: TaskId, e: DurableError)
    requires id in was.record.tasks && Touched(was, now, id) && now.record == was.record
    requires now.launches == was.launches && Unsaved(e)
    requires now.poisoned || now.record.revision >= U64_MAX
             || (e == Conflict && now.record.tasks[id].attempts >= U32_MAX)
    ensures Attempted(at, was, now, id, Err(e))
  {
  }

  /** How an attempt ends whose action has this outcome. */
  predicate SettledBy(acted: View, now: View, id: TaskId, policy: ReplayPolicy, outcome: Option<Json>,
                      r: Result<Json, DurableError>)
    requires id in acted.record.tasks
  {
    && Touched(acted, now, id) && now.launches == acted.launches
    && now.record.tasks[id].attempts == acted.record.tasks[id].attempts
    && (now.record.status == acted.record.status || (r == Err(DurableError.Suspended) && Parked(now.record, id)))
    && match r
       case Ok(result) =>
         now.record.tasks[id].status == TaskStatus.Completed && now.record.tasks[id].result == Some(result)
       case Err(e) =>
         match e
         case Suspended => policy == ManualRecovery && Parked(now.record, id)
         case NodeFailed => outcome.None? && policy != ManualRecovery
         case Stopped => Halting(now.record.status)
         case _ => now.poisoned || now.record.revision >= U64_MAX
  }

  /** Record the outcome of the action, or park the task. */
  method Settle(ghost pg: Program, s: Session, id: TaskId, policy: ReplayPolicy, outcome: Option<Json>)
    returns (r: Result<Json, DurableError>)
    requires s.Good(pg) && id in s.record.tasks && s.record.tasks[id].policy == policy
    requires s.record.tasks[id].status == TaskStatus.Started && (outcome.Some? ==> pg.answers(id) == outcome)
    modifies s`record, s`poisoned, s.store`records, s.store.world`time
    ensures s.Good(pg) && SettledBy(old(s.Here()), s.Here(), id, policy, outcome, r)
  {
    hide RecordInv, Answered, Truthful, Session.Valid;
    match outcome {
      case Some(result) =>
        var saved := Complete(pg, s, id, result);
        r := if saved.Ok? then Ok(result) else Err(saved.error);
      case None =>
        if policy == ManualRecovery {
          r := Park(pg, s, id);
        } else {
          r := Err(NodeFailed);
        }
    }
  }

  lemma AttemptSettled(at: nat -> Moment, was: View, started: View, acted: View, now: View, id: TaskId,
                       outcome: Option<Json>, r: Result<Json, DurableError>)
    requires id in was.record.tasks && Touched(was, started, id) && started.record.status == was.record.status
    requires started.launches == was.launches && was.record.tasks[id].attempts < 0xffff_ffff
    requires started.record.tasks[id] == was.record.tasks[id].(status := TaskStatus.Started,
                                                               attempts := was.record.tasks[id].attempts + 1)
    requires acted == started.(time := started.time + 1, launches := started.launches + [id])
    requires outcome == at(started.time).outcome(id)
    requires SettledBy(acted, now, id, was.record.tasks[id].policy, outcome, r)
    ensures Attempted(at, was, now, id, r)
  {
    TouchedOn(was, acted, now, id);
    assert now.launches[|was.launches|..] == [id];
  }

  // -------------------------------------------------------------------- one call

  /** What one task call may do: launch the action once, and only a task that may be launched, after its
      attempt was recorded; or return the recorded result and change nothing. It changes the status only
      to say that it waits or that the run is cancelled, and fails only for a cause. */
  predicate Called(at: nat -> Moment, was: View, now: View, id: TaskId, version: string, input: Json,
                   policy: ReplayPolicy, r: Result<Json, DurableError>) {
    && Touched(was, now, id)
    && (r.Ok? ==>
          && now.record.status == was.record.status
          && Recorded(now.record.tasks, id, version, input, policy, r.value)
          && (now.launches == was.launches ==> now.record == was.record))
    && (r == Err(DurableError.Suspended) ==> Parked(now.record, id))
    && (r == Err(Stopped) ==> Halting(now.record.status) || was.record.status == RunStatus.Completed)
    && (r.Err? ==>
          || Failed(at, was, now, id, policy, r.error)
          || Refused(was.record.tasks, id, version, input, policy, r.error))
    && (|| now.record.status == was.record.status
        || (r == Err(DurableError.Suspended) && Parked(now.record, id) && policy == ManualRecovery
            && SameTask(now.record.tasks[id], version, input, policy))
        || (r == Err(Stopped) && now.record.status == Cancelled && RunCancelled(at, was.time, now.time)))
    && var attempts := if id in was.record.tasks then was.record.tasks[id].attempts else 0;
       if now.launches == was.launches
       then id in now.record.tasks ==> now.record.tasks[id].attempts == attempts
       else && now.launches == was.launches + [id] && Launchable(was.record.tasks, id, policy)
            && id in now.record.tasks && now.record.tasks[id].attempts == attempts + 1 <= 0xffff_ffff
  }

  /** A call keeps the session going. */
  lemma CalledOnward(at: nat -> Moment, was: View, now: View, id: TaskId, version: string, input: Json,
                     policy: ReplayPolicy, r: Result<Json, DurableError>)
    requires Called(at, was, now, id, version, input, policy, r)
    ensures WentOn(at, was, now)
  {
    hide TasksKept, RequestsKept;
    TouchedRisen(was, now, id);
    if now.record.status == RunStatus.Suspended && was.record.status != RunStatus.Suspended {
      assert Unresolved(now.record.tasks[id]);
    }
  }

  /** Looking at the outside world first makes no difference. */
  lemma CalledLater(at: nat -> Moment, was: View, looked: View, now: View, id: TaskId, version: string,
                    input: Json, policy: ReplayPolicy, r: Result<Json, DurableError>)
    requires Called(at, looked, now, id, version, input, policy, r)
    requires was.time <= looked.time && looked == was.(time := looked.time)
    ensures Called(at, was, now, id, version, input, policy, r)
  {
    if r == Err(NodeFailed) && Fruitless(at, looked, now) {
      var other, k :| other in now.launches[|looked.launches|..] && looked.time <= k < now.time
                      && at(k).outcome(other).None?;
      assert Fruitless(at, was, now);
    }
  }

  /** An attempt of a recorded task, as a call. */
  lemma CalledByAttempt(at: nat -> Moment, was: View, now: View, id: TaskId, policy: ReplayPolicy,
                        r: Result<Json, DurableError>)
    requires id in was.record.tasks && was.record.tasks[id].policy == policy
    requires Launchable(was.record.tasks, id, policy) && Attempted(at, was, now, id, r)
    ensures var t := was.record.tasks[id];
      Called(at, was, now, id, t.version, t.input, policy, r)
  {
    hide Fruitless;
  }

  /** Planning a new task and attempting it, as one call. */
  lemma CalledByPlan(at: nat -> Moment, was: View, planned: View, now: View, id: TaskId, version: string,
                     input: Json, policy: ReplayPolicy, r: Result<Json, DurableError>)
    requires id !in was.record.tasks && Touched(was, planned, id) && planned.launches == was.launches
    requires planned.record.status == was.record.status && id in planned.record.tasks
    requires planned.record.tasks[id] == E.PlannedTask(id, version, input, policy)
    requires Attempted(at, planned, now, id, r)
    ensures Called(at, was, now, id, version, input, policy, r)
  {
    TouchedOn(was, planned, now, id);
    if r == Err(NodeFailed) && Fruitless(at, planned, now) {
      var other, k :| other in now.launches[|planned.launches|..] && planned.time <= k < now.time
                      && at(k).outcome(other).None?;
      assert Fruitless(at, was, now);
    }
  }

  lemma NotPlanned(at: nat -> Moment, was: View, now: View, id: TaskId, version: string, input: Json,
                   policy: ReplayPolicy, e: DurableError)
    requires id !in was.record.tasks && Touched(was, now, id) && now.record == was.record
    requires now.launches == was.launches && Unsaved(e)
    requires now.poisoned || now.record.revision >= U64_MAX
    ensures Called(at, was, now, id, version, input, policy, Err(e))
  {
  }

  /** A call that launches nothing: it returns what is recorded, is refused, or parks the task. */
  lemma CalledIdle(at: nat -> Moment, was: View, now: View, id: TaskId, version: string, input: Json,
                   policy: ReplayPolicy, r: Result<Json, DurableError>)
    requires id in was.record.tasks && Touched(was, now, id) && now.launches == was.launches
    requires now.record.tasks[id].attempts == was.record.tasks[id].attempts
    requires || (r.Ok? && now.record == was.record && Recorded(now.record.tasks, id, version, input, policy, r.value))
             || (r.Err? && now.record == was.record && Refused(was.record.tasks, id, version, input, policy, r.error))
             || (r == Err(DurableError.Suspended) && Parked(now.record, id) && policy == ManualRecovery
                 && SameTask(now.record.tasks[id], version, input, policy))
             || (r.Err? && now.record == was.record && r.error != DurableError.Suspended && r.error != NodeFailed
                 && if r.error == Stopped then Halting(now.record.status)
                    else now.poisoned || now.record.revision >= U64_MAX)
    ensures Called(at, was, now, id, version, input, policy, r)
  {
  }

  /** A run that is over, or becomes cancelled, has its tasks stopped. */
  lemma Over(at: nat -> Moment, was: View, now: View, id: TaskId, version: string, input: Json,
             policy: ReplayPolicy, e: DurableError)
    requires was.time < now.time && (was.poisoned ==> now.poisoned) && now.launches == was.launches
    requires now.record == was.record.(status := now.record.status, revision := now.record.revision)
    requires was.record.revision <= now.record.revision && (e == Stopped || Unsaved(e))
    requires if e == Stopped then
               || (now.record == was.record && Terminal(now.record.status))
               || (now.record.status == Cancelled && at(was.time).runCancelled)
             else now.record == was.record && (now.poisoned || now.record.revision >= U64_MAX)
    ensures Called(at, was, now, id, version, input, policy, Err(e))
  {
    hide Fruitless, Launchable;
  }

  lemma CompletedResult(pg: Program, r: RunRecord, id: TaskId)
    requires RecordInv(pg, r) && id in r.tasks && r.tasks[id].status == TaskStatus.Completed
    ensures r.tasks[id].result.Some?
  {
    assert TaskOk(id, r.tasks[id]);
  }

  /** Execute a task; a second call with the same identity, while the first is running, is refused. */
  method Execute(ghost pg: Program, s: Session, id: TaskId, version: string, input: Json, policy: ReplayPolicy)
    returns (r: Result<Json, DurableError>)
    requires s.Good(pg)
    modifies s`record, s`poisoned, s`inFlight, s`launches, s.store`records, s.store.world`time
    ensures s.Good(pg) && s.inFlight == old(s.inFlight)
    ensures if id in old(s.inFlight) then r == Err(Conflict) && s.Here() == old(s.Here())
            else Called(s.store.world.at, old(s.Here()), s.Here(), id, version, input, policy, r)
  {
    hide RecordInv, Answered, Truthful, Called;
    if id in s.inFlight {
      return Err(Conflict);
    }
    s.inFlight := s.inFlight + {id};
    r := ExecuteGuarded(pg, s, id, version, input, policy);
    s.inFlight := s.inFlight - {id};
  }

  /** The body of `Execute`, while its identity is guarded. */
  method ExecuteGuarded(ghost pg: Program, s: Session, id: TaskId, version: string, input: Json, policy: ReplayPolicy)
    returns (r: Result<Json, DurableError>)
    requires s.Good(pg) && id in s.inFlight
    modifies s`record, s`poisoned, s`launches, s.store`records, s.store.world`time
    ensures s.Good(pg) && Called(s.store.world.at, old(s.Here()), s.Here(), id, version, input, policy, r)
  {
    hide RecordInv, Answered, Truthful, RequestsKept, TasksKept, Session.Valid, Called;
    ghost var at, start := s.store.world.at, s.Here();
    var moment := s.Look(pg);
    ghost var looked := s.Here();
    if moment.runCancelled {
      var stopped := s.Halt(pg, RunStatus.Cancelled, Stopped);
      Over(at, start, s.Here(), id, version, input, policy, stopped.error);
      return Err(stopped.error);
    }
    if Terminal(s.record.status) {
      Over(at, start, s.Here(), id, version, input, policy, Stopped);
      return Err(Stopped);
    }
    if id in s.record.tasks {
      r := ExecuteKnown(pg, s, id, version, input, policy);
    } else {
      r := ExecuteNew(pg, s, id, version, input, policy);
    }
    CalledLater(at, start, looked, s.Here(), id, version, input, policy, r);
  }

  /** A task that is recorded already: its result, or its recovery. */
  method ExecuteKnown(ghost pg: Program, s: Session, id: TaskId, version: string, input: Json, policy: ReplayPolicy)
    returns (r: Result<Json, DurableError>)
    requires s.Good(pg) && id in s.record.tasks
    modifies s`record, s`poisoned, s`launches, s.store`records, s.store.world`time
    ensures s.Good(pg) && Called(s.store.world.at, old(s.Here()), s.Here(), id, version, input, policy, r)
  {
    hide RecordInv, Answered, Truthful, Session.Valid, Called, Attempted;
    ghost var at, start := s.store.world.at, s.Here();
    var t := s.record.tasks[id];
    if !SameTask(t, version, input, policy) {
      r := Err(Incompatible);
      CalledIdle(at, start, s.Here(), id, version, input, policy, r);
    } else if t.status == TaskStatus.Completed {
      CompletedResult(pg, s.record, id);
      r := if t.result.Some? then Ok(t.result.value) else Err(Conflict);
      CalledIdle(at, start, s.Here(), id, version, input, policy, r);
    } else if (t.status == TaskStatus.Started || t.status == TaskStatus.Unknown) && policy == ManualRecovery {
      r := Park(pg, s, id);
      CalledIdle(at, start, s.Here(), id, version, input, policy, r);
    } else {
      r := Attempt(pg, s, id, policy);
      CalledByAttempt(at, start, s.Here(), id, policy, r);
    }
  }

  /** A task that is not recorded yet. */
  method ExecuteNew(ghost pg: Program, s: Session, id: TaskId, version: string, input: Json, policy: ReplayPolicy)
    returns (r: Result<Json, DurableError>)
    requires s.Good(pg) && id !in s.record.tasks
    modifies s`record, s`poisoned, s`launches, s.store`records, s.store.world`time
    ensures s.Good(pg) && Called(s.store.world.at, old(s.Here()), s.Here(), id, version, input, policy, r)
  {
    hide Session.Good, Session.Valid, Called, Attempted, Touched;
    ghost var at, start := s.store.world.at, s.Here();
    var planned := Plan(pg, s, id, version, input, policy);
    ghost var plan := s.Here();
    if planned.Err? {
      NotPlanned(at, start, plan, id, version, input, policy, planned.error);
      return Err(planned.error);
    }
    r := Attempt(pg, s, id, policy);
    CalledByPlan(at, start, plan, s.Here(), id, version, input, policy, r);
  }
}
