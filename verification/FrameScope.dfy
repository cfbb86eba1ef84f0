/** The session of one lease holder and the operations frames perform on it. */
module FrameScope {
  import opened Wrappers
  import opened GraphCore
  import opened RunModel
  import opened RunStore
  import opened RunInvariant
  import E = ScopeEdits

  /** A deadline saturates at the largest timestamp. */
  function Deadline(now: nat, timeout: Option<nat>): Option<nat> {
    match timeout
    case None => None
    case Some(t) => Some(if now + t > U64_MAX then U64_MAX else now + t)
  }

  /** A pending request of the active invocation shows the persisted state. */
  lemma RequestedContent(pg: Program, r: RunRecord, id: InvocationId)
    requires RecordInv(pg, r) && id in r.approvals && id.frame in r.frames && r.frames[id.frame].active
    requires r.frames[id.frame].nextNode == Some(id.node) && r.frames[id.frame].stepsUsed == id.invocation
    ensures r.approvals[id].content == r.frames[id.frame].state
  {
    hide EvalNode, Traj, OriginOf, CursorAt;
    assert ApprovalOk(pg, r, id, r.approvals[id]);
    GateReached(pg, r.frames[id.frame], id);
  }

  /** A session, and the moment it is seen at. */
  datatype View = View(record: RunRecord, poisoned: bool, time: nat, launches: seq<TaskId>)

  /** Tasks are never forgotten, and keep what they are; a result is final for a session, and so is an
      unknown outcome that somebody must resolve. */
  predicate TasksKept(was: map<TaskId, TaskRecord>, now: map<TaskId, TaskRecord>) {
    forall id | id in was :: id in now && TaskKept(was[id], now[id])
  }

  predicate TaskKept(t: TaskRecord, t': TaskRecord) {
    && SameTask(t', t.version, t.input, t.policy) && t.attempts <= t'.attempts
    && (t.status == TaskStatus.Completed ==> t'.status == TaskStatus.Completed && t'.result == t.result)
    && (Unresolved(t) ==> Unresolved(t'))
  }

  predicate Unresolved(t: TaskRecord) {
    t.status == TaskStatus.Unknown && t.policy == ManualRecovery
  }

  predicate SomeUnresolved(tasks: map<TaskId, TaskRecord>) {
    exists id | id in tasks :: Unresolved(tasks[id])
  }

  predicate SomeUndecided(requests: map<InvocationId, ApprovalRequest>) {
    exists id | id in requests :: requests[id].receipt.None?
  }

  /** Requests are never withdrawn, and keep what they say; one may become applied. */
  predicate RequestsKept(was: map<InvocationId, ApprovalRequest>, now: map<InvocationId, ApprovalRequest>) {
    forall id | id in was :: id in now && now[id] == was[id].(applied := now[id].applied)
  }

  predicate Denied(a: ApprovalRequest) {
    a.receipt.Some? && a.receipt.value.decision.Reject?
  }

  /** Some undecided request was overdue at a moment of the span. */
  predicate RanOut(r: RunRecord, at: nat -> Moment, from: nat, to: nat) {
    exists id, k | id in r.approvals && from <= k < to :: LateAt(r.approvals[id], at(k))
  }

  predicate LateAt(a: ApprovalRequest, moment: Moment) {
    a.receipt.None? && E.Overdue(a, moment.now)
  }

  /** What gives a run a new status while its graph is driven. */
  predicate Caused(at: nat -> Moment, was: View, now: View) {
    || now.record.status == was.record.status
    || match now.record.status
       case Suspended => SomeUndecided(now.record.approvals) || SomeUnresolved(now.record.tasks)
       case Rejected => exists id | id in now.record.approvals :: Denied(now.record.approvals[id])
       case Expired => RanOut(now.record, at, was.time, now.time)
       case Cancelled => RunCancelled(at, was.time, now.time)
       case _ => false
  }

  /** Marks only rise, a failed save is never forgotten, and requests and tasks are kept. */
  predicate Risen(was: View, now: View) {
    && was.time <= now.time && (was.poisoned ==> now.poisoned) && was.launches <= now.launches
    && was.record.revision <= now.record.revision && was.record.stepsUsed <= now.record.stepsUsed
    && was.record.maxSteps == now.record.maxSteps
    && RequestsKept(was.record.approvals, now.record.approvals) && TasksKept(was.record.tasks, now.record.tasks)
  }

  lemma SameRequests(requests: map<InvocationId, ApprovalRequest>)
    ensures RequestsKept(requests, requests)
  {
  }

  lemma SameTasks(tasks: map<TaskId, TaskRecord>)
    ensures TasksKept(tasks, tasks)
  {
  }

  /** A request that is new, or becomes applied. */
  lemma RequestPut(requests: map<InvocationId, ApprovalRequest>, id: InvocationId, a: ApprovalRequest)
    requires id in requests ==> a == requests[id].(applied := a.applied)
    ensures RequestsKept(requests, requests[id := a])
  {
  }

  /** From one view to a later one marks have only risen, and a new status has a cause. */
  predicate WentOn(at: nat -> Moment, was: View, now: View) {
    Risen(was, now) && Caused(at, was, now)
  }

  lemma NothingDone(at: nat -> Moment, was: View, now: View)
    requires was.record == now.record && was.time <= now.time && (was.poisoned ==> now.poisoned)
    requires was.launches == now.launches
    ensures WentOn(at, was, now)
  {
  }

  /** Work on frames alone, under the same status. */
  lemma FramesMoved(at: nat -> Moment, was: View, now: View)
    requires was.time <= now.time && (was.poisoned ==> now.poisoned) && was.launches == now.launches
    requires was.record.revision <= now.record.revision && was.record.stepsUsed <= now.record.stepsUsed
    requires was.record.maxSteps == now.record.maxSteps && was.record.status == now.record.status
    requires RequestsKept(was.record.approvals, now.record.approvals) && was.record.tasks == now.record.tasks
    ensures WentOn(at, was, now)
  {
  }

  /** A cause stays one, and causes add up. */
  lemma WentFurther(at: nat -> Moment, a: View, b: View, c: View)
    requires WentOn(at, a, b) && WentOn(at, b, c)
    ensures WentOn(at, a, c) && a.time <= b.time <= c.time
  {
    if c.record.status == b.record.status && b.record.status != a.record.status && b.record.status == Expired {
      var id, k :| id in b.record.approvals && a.time <= k < b.time && LateAt(b.record.approvals[id], at(k));
      assert LateAt(c.record.approvals[id], at(k));
    }
  }

  lemma CausedByLateness(at: nat -> Moment, was: View, now: View, id: InvocationId)
    requires id in now.record.approvals && was.time < now.time && LateAt(now.record.approvals[id], at(was.time))
    requires now.record.status == Expired
    ensures Caused(at, was, now)
  {
  }

  /** The action of a task, whenever it succeeds, yields the task's answer. */
  ghost predicate Truthful(pg: Program, at: nat -> Moment) {
    forall k: nat, id: TaskId :: at(k).outcome(id).Some? ==> at(k).outcome(id) == pg.answers(id)
  }

  /** The frame is active in front of the node, and its invocation has this number: the next one, charged to
      frame and run, or the one that was active already. */
  predicate Begun(was: RunRecord, now: RunRecord, p: Path, node: string, invocation: nat) {
    && p in was.frames && p in now.frames && was.frames[p].nextNode == Some(node)
    && !(was.status == RunStatus.Rejected || was.status == RunStatus.Cancelled || was.status == RunStatus.Expired)
    && var f, f' := was.frames[p], now.frames[p];
       var charge := if f.active then 0 else 1;
       && f' == f.(active := true, stepsUsed := f.stepsUsed + charge) && invocation == f'.stepsUsed
       && (charge == 1 ==> f.stepsUsed < f.maxSteps && was.stepsUsed < was.maxSteps)
       && now == was.(frames := was.frames[p := f'], stepsUsed := was.stepsUsed + charge, revision := was.revision + 1)
  }

  /** The frame stands where the commit says, and the request of the invocation, if there is one, is applied. */
  predicate Committed(was: RunRecord, now: RunRecord, p: Path, state: Json, next: Option<string>) {
    && p in was.frames && p in now.frames
    && var f := was.frames[p];
       && now.frames == was.frames[p := FrameRecord(f.signature, state, next, f.stepsUsed, f.maxSteps, false)]
       && now == was.(frames := now.frames, approvals := now.approvals, revision := was.revision + 1)
       && now.approvals.Keys == was.approvals.Keys
       && forall id | id in was.approvals ::
            now.approvals[id]
            == if id.frame == p && Some(id.node) == f.nextNode && id.invocation == f.stepsUsed
               then was.approvals[id].(applied := true) else was.approvals[id]
  }

  lemma CommitMeans(was: RunRecord, now: RunRecord, p: Path, state: Json, next: Option<string>)
    requires E.Commit(was, p, state, next).Ok? && E.Bumped(E.Commit(was, p, state, next).value) == Ok(now)
    ensures Committed(was, now, p, state, next)
  {
    var f := was.frames[p];
    assert now.frames[p] == FrameRecord(f.signature, state, next, f.stepsUsed, f.maxSteps, false);
  }

  class Session {
    const store: Store
    const runId: string
    var record: RunRecord
    var poisoned: bool
    var inFlight: set<TaskId>
    ghost var launches: seq<TaskId>
    ghost const since: nat

    /** While no save failed, memory and store agree. */
    ghost predicate Valid()
      reads this, store, store.world
    {
      && since <= store.world.time
      && (poisoned ==> Faulty(store.world.at, since, store.world.time))
      && record.runId == runId
      && runId in store.records
      && store.records[runId].runId == runId
      && (!poisoned ==> store.records[runId] == record)
    }

    /** The record of this run in the store, whether or not the last save was confirmed. */
    ghost function Stored(): RunRecord
      reads this, store, store.world
      requires Valid()
    {
      store.records[runId]
    }

    constructor (store: Store, record: RunRecord)
      requires record.runId in store.records && store.records[record.runId] == record
      ensures Valid() && this.store == store && this.record == record && !poisoned
      ensures inFlight == {} && launches == [] && runId == record.runId && since == store.world.time
    {
      this.store, this.runId, this.record, this.since := store, record.runId, record, store.world.time;
      poisoned, inFlight, launches := false, {}, [];
    }

    ghost function Here(): View
      reads this, store.world
    {
      View(record, poisoned, store.world.time, launches)
    }

    /** Since that view marks have only risen, and a new status has a cause. */
    ghost predicate Onward(was: View)
      reads this, store.world
    {
      WentOn(store.world.at, was, Here())
    }

    /** Clone, edit, bump the revision, save, and only then replace the record in memory. After a
        failed save nothing is ever saved again. */
    method Update<T>(edit: RunRecord -> Result<(RunRecord, T), DurableError>) returns (r: Result<T, DurableError>)
      requires Valid()
      requires edit(record).Ok? ==> edit(record).value.0.runId == record.runId
      modifies this`record, this`poisoned, store`records, store.world`time
      ensures Valid()
      ensures store.records - {runId} == old(store.records) - {runId}
      ensures old(poisoned) ==> r == Err(Conflict) && poisoned && record == old(record) && Stored() == old(Stored())
      ensures !old(poisoned) && edit(old(record)).Err? ==>
                r == Err(edit(old(record)).error) && !poisoned && record == old(record)
      ensures r.Ok? ==>
                && !poisoned && edit(old(record)).Ok?
                && r.value == edit(old(record)).value.1
                && E.Bumped(edit(old(record)).value.0) == Ok(record)
      ensures r.Err? ==>
                && record == old(record)
                && (r.error == Conflict || r.error == Storage || edit(old(record)) == Err(r.error))
      ensures r.Err? ==>
              || poisoned || edit(old(record)) == Err(r.error)
              || (edit(old(record)).Ok? && edit(old(record)).value.0.revision >= U64_MAX && r.error == Conflict)
      ensures old(store.world.time) <= store.world.time
      ensures Stored() == old(Stored())
              || (edit(old(record)).Ok? && E.Bumped(edit(old(record)).value.0) == Ok(Stored()) && (r.Ok? || poisoned))
    {
      if poisoned {
        return Err(Conflict);
      }
      var edited :- edit(record);
      var bumped :- E.Bumped(edited.0);
      var saved := store.Save(runId, bumped);
      if saved.Err? {
        poisoned := true;
        return Err(saved.error);
      }
      record := bumped;
      r := Ok(edited.1);
    }

    /** Start or re-enter the invocation of `node`; returns its number. */
    method Begin(p: Path, node: string) returns (r: Result<nat, DurableError>)
      requires Valid()
      modifies this`record, this`poisoned, store`records, store.world`time
      ensures Valid() && After(E.BeginRecord(old(record), p, node), old(record), old(Stored()), r.Ok?)
      ensures old(poisoned) ==> poisoned
      ensures old(store.world.time) <= store.world.time
      ensures r.Ok? ==> r.value == E.Begin(old(record), p, node).value.1
      ensures r.Err? ==> r.error != NodeFailed
      ensures r.Err? ==> Disturbed() || E.Begin(old(record), p, node) == Err(r.error)
      ensures r == Err(Stopped) ==> E.Begin(old(record), p, node) == Err(Stopped)
      ensures r != Err(DurableError.Suspended)
      ensures r.Ok? ==> Begun(old(record), record, p, node, r.value)
      ensures r == Err(Stopped) ==>
                old(record).status == RunStatus.Rejected || old(record).status == RunStatus.Cancelled
                || old(record).status == RunStatus.Expired
      ensures r.Err? ==>
                || Disturbed() || r.error == Stopped || p !in record.frames || record.frames[p].nextNode != Some(node)
                || (!record.frames[p].active
                    && (record.frames[p].stepsUsed >= record.frames[p].maxSteps || record.stepsUsed >= record.maxSteps))
    {
      r := Update((x: RunRecord) => E.Begin(x, p, node));
    }

    method Commit(p: Path, state: Json, next: Option<string>) returns (r: Result<(), DurableError>)
      requires Valid()
      modifies this`record, this`poisoned, store`records, store.world`time
      ensures Valid() && After(E.Commit(old(record), p, state, next), old(record), old(Stored()), r.Ok?)
      ensures old(poisoned) ==> poisoned
      ensures old(store.world.time) <= store.world.time
      ensures r.Err? ==> r.error != NodeFailed && r.error != Stopped && r.error != DurableError.Suspended
      ensures r.Ok? ==> Committed(old(record), record, p, state, next)
    {
      hide Committed;
      ghost var was := record;
      r := Update((x: RunRecord) => E.Unit(E.Commit(x, p, state, next)));
      if r.Ok? {
        CommitMeans(was, record, p, state, next);
      }
    }

    /** Set the status of the run. */
    method SetStatus(status: RunStatus) returns (r: Result<(), DurableError>)
      requires Valid()
      modifies this`record, this`poisoned, store`records, store.world`time
      ensures Valid() && After(Ok(E.SetStatus(old(record), status)), old(record), old(Stored()), r.Ok?)
      ensures old(poisoned) ==> poisoned
      ensures old(store.world.time) <= store.world.time
      ensures r.Err? ==> r.error == Conflict || r.error == Storage
    {
      r := Update((x: RunRecord) => Ok((E.SetStatus(x, status), ())));
    }

    /** Nothing can be saved any more. */
    predicate Disturbed()
      reads this
    {
      poisoned || record.revision >= U64_MAX
    }

    /** What an operation that saves `edited` leaves behind. */
    ghost predicate After(edited: Result<RunRecord, DurableError>, was: RunRecord, stored: RunRecord, ok: bool)
      reads this, store, store.world
      requires Valid()
    {
      && (ok ==> !poisoned && edited.Ok? && E.Bumped(edited.value) == Ok(record))
      && (!ok ==> record == was && (poisoned || edited.Err? || edited.value.revision >= U64_MAX))
      && (Stored() == stored || (edited.Ok? && E.Bumped(edited.value) == Ok(Stored()) && (ok || poisoned)))
    }

    /** The invariant of saved records, in memory and in the store. */
    ghost predicate Good(pg: Program)
      reads this, store, store.world
    {
      Valid() && Sane(pg, record) && Sane(pg, Stored()) && Truthful(pg, store.world.at)
    }

    /** A save whose edited record keeps the invariant. */
    lemma SavedGood(pg: Program, edited: Result<RunRecord, DurableError>, was: RunRecord, stored: RunRecord, ok: bool)
      requires Valid() && After(edited, was, stored, ok)
      requires Sane(pg, was) && Sane(pg, stored) && (edited.Ok? ==> Sane(pg, edited.value))
      requires Truthful(pg, store.world.at)
      ensures Good(pg)
    {
      hide RecordInv, Answered, Truthful;
      if edited.Ok? && E.Bumped(edited.value).Ok? {
        BumpInv(pg, edited.value);
      }
    }

    /** One look at the outside world. */
    method Look(ghost pg: Program) returns (moment: Moment)
      requires Good(pg)
      modifies store.world`time
      ensures Good(pg) && Stored() == old(Stored())
      ensures moment == store.world.at(old(store.world.time)) && store.world.time == old(store.world.time) + 1
    {
      hide RecordInv, Answered, Truthful;
      moment := store.world.Look();
    }

    /** The cursor names a node the graph does not have. */
    predicate Stray(f: FrameRecord, g: Graph) {
      f.nextNode.Some? && f.nextNode.value !in g.nodes
    }

    /** Restore the frame of a graph run, if graph and budget are the recorded ones, or record a new one that starts
        from the caller's state. */
    method Enter(ghost pg: Program, p: Path, g: Graph, state: Json, maxSteps: nat)
      returns (r: Result<FrameRecord, DurableError>)
      requires Good(pg) && (p !in record.frames ==> OriginOf(pg, p) == Some(Origin(g, state, maxSteps)))
      requires p.Child? ==> && p.parent in record.frames && record.frames[p.parent].active
                            && record.frames[p.parent].stepsUsed == p.invocation
      modifies this`record, this`poisoned, store`records, store.world`time
      ensures Good(pg)
      ensures r.Ok? ==> p in record.frames && record.frames[p] == r.value
      ensures r.Err? ==> r.error != NodeFailed
      ensures Onward(old(Here())) && record.status == old(record.status)
      ensures r.Err? ==> r.error != Stopped && r.error != DurableError.Suspended
      ensures p in old(record.frames) ==>
                var f := old(record.frames)[p];
                r == if f.signature == g.signature && f.maxSteps == maxSteps
                        && (f.nextNode.Some? ==> f.nextNode.value in g.nodes)
                     then Ok(f) else Err(Incompatible)
      ensures p !in old(record.frames) && r.Err? ==>
                Disturbed() || (r.error == Incompatible && p in record.frames && Stray(record.frames[p], g))
      ensures forall q | q in old(record.frames) :: q in record.frames && record.frames[q] == old(record.frames)[q]
      ensures p in old(record.frames) ==> record == old(record)
      ensures r.Ok? && p !in old(record.frames) ==> r.value == E.NewFrame(g, state, maxSteps)
    {
      hide RecordInv, Answered, Truthful, OriginOf, EvalNode, RequestsKept, WentOn, Faulty;
      ghost var start := Here();
      SameRequests(record.approvals);
      FramesMoved(store.world.at, start, start);
      var f: FrameRecord;
      if p in record.frames {
        f := record.frames[p];
      } else {
        assert RecordInv(pg, E.OpenFrame(record, p, E.NewFrame(g, state, maxSteps))) by {
          RootRecorded(pg, record);
          OpenFrameInv(pg, record, p);
        }
        f := E.NewFrame(g, state, maxSteps);
        ghost var was, stored := record, Stored();
        var saved := Update((x: RunRecord) => Ok((E.OpenFrame(x, p, f), ())));
        SavedGood(pg, Ok(E.OpenFrame(was, p, f)), was, stored, saved.Ok?);
        FramesMoved(store.world.at, start, Here());
        if saved.Err? {
          return Err(saved.error);
        }
      }
      if f.signature != g.signature || f.maxSteps != maxSteps {
        return Err(Incompatible);
      }
      if Stray(f, g) {
        return Err(Incompatible);
      }
      r := Ok(f);
    }

    /** Save a status and report why the frame stops. */
    method Halt(ghost pg: Program, status: RunStatus, e: DurableError) returns (r: Result<(), DurableError>)
      requires Good(pg) && status != RunStatus.Completed && (e == DurableError.Suspended || e == Stopped)
      modifies this`record, this`poisoned, store`records, store.world`time
      ensures Good(pg) && r.Err?
      ensures record == old(record).(status := record.status, revision := record.revision)
      ensures r.error == e <==> !poisoned && record.status == status && record.revision == old(record).revision + 1
      ensures r.error == e || r.error == Conflict || r.error == Storage
      ensures Risen(old(Here()), Here()) && (r.error == e || (record == old(record) && Disturbed()))
    {
      hide RecordInv, Answered, Truthful, RequestsKept, TasksKept;
      ghost var was, stored := record, Stored();
      var saved := SetStatus(status);
      assert RecordInv(pg, E.SetStatus(was, status)) by {
        StatusInv(pg, was, E.SetStatus(was, status));
      }
      SameRequests(was.approvals);
      SameTasks(was.tasks);
      SavedGood(pg, Ok(E.SetStatus(was, status)), was, stored, saved.Ok?);
      r := if saved.Err? then saved else Err(e);
    }

    /** Record a request for a decision about the persisted state. */
    method Ask(ghost pg: Program, id: InvocationId, token: string, deadline: Option<nat>)
      returns (r: Result<(), DurableError>)
      requires Good(pg) && id !in record.approvals
      requires id.frame in record.frames && record.frames[id.frame].active
      requires record.frames[id.frame].nextNode == Some(id.node) && record.frames[id.frame].stepsUsed == id.invocation
      requires OriginOf(pg, id.frame).Some? && IsBarrier(OriginOf(pg, id.frame).value.graph, id.node)
      modifies this`record, this`poisoned, store`records, store.world`time
      ensures Good(pg)
      ensures r.Ok? ==> !poisoned && E.Bumped(E.RequestApproval(old(record), id, token, deadline)) == Ok(record)
      ensures r.Err? ==> record == old(record) && (r.error == Conflict || r.error == Storage) && Disturbed()
      ensures Onward(old(Here()))
    {
      hide RecordInv, Answered, Truthful, OriginOf, RequestsKept, TasksKept;
      ghost var was, stored := record, Stored();
      RequestInv(pg, was, id, token, deadline);
      r := Update((x: RunRecord) =>
        if id.frame in x.frames then Ok((E.RequestApproval(x, id, token, deadline), ())) else Err(Conflict));
      RequestPut(was.approvals, id, E.RequestApproval(was, id, token, deadline).approvals[id]);
      SameRequests(was.approvals);
      SameTasks(was.tasks);
      SavedGood(pg, Ok(E.RequestApproval(was, id, token, deadline)), was, stored, r.Ok?);
    }

    /** Apply a rejection. */
    method Refuse(ghost pg: Program, id: InvocationId) returns (r: Result<(), DurableError>)
      requires Good(pg) && id in record.approvals && record.approvals[id].receipt.Some?
      requires record.approvals[id].receipt.value.decision.Reject?
      modifies this`record, this`poisoned, store`records, store.world`time
      ensures Good(pg) && r.Err?
      ensures record == old(record)
              || record == old(record).(status := RunStatus.Rejected, revision := old(record).revision + 1,
                                        approvals := old(record).approvals[id :=
                                          old(record).approvals[id].(applied := true)])
      ensures r.error == Stopped <==> record != old(record)
      ensures r.error == Stopped || r.error == Conflict || r.error == Storage
      ensures Onward(old(Here())) && (r.error == Stopped || Disturbed())
    {
      hide RecordInv, Answered, Truthful, RequestsKept, TasksKept, RanOut, RunCancelled;
      ghost var was, stored := record, Stored();
      RefusedInv(pg, was, id);
      r := Update((x: RunRecord) => if id in x.approvals then Ok((E.RejectApproval(x, id), ())) else Err(Conflict));
      RequestPut(was.approvals, id, was.approvals[id].(applied := true));
      SameRequests(was.approvals);
      SameTasks(was.tasks);
      SavedGood(pg, Ok(E.RejectApproval(was, id)), was, stored, r.Ok?);
      r := if r.Err? then r else Err(Stopped);
    }

    /** Suspend until the recorded request of the active invocation is decided. */
    method Await(ghost pg: Program, id: InvocationId) returns (r: Result<(), DurableError>)
      requires Good(pg)
      requires id.frame in record.frames && record.frames[id.frame].active
      requires record.frames[id.frame].nextNode == Some(id.node) && record.frames[id.frame].stepsUsed == id.invocation
      requires id in record.approvals && record.approvals[id].receipt.None?
      modifies this`record, this`poisoned, store`records, store.world`time
      ensures Good(pg) && r.Err?
      ensures record == old(record).(status := record.status, revision := record.revision)
      ensures if r == Err(DurableError.Suspended) then
                && record.status == RunStatus.Suspended
                && id in record.approvals && record.approvals[id].receipt.None?
                && record.approvals[id].content == record.frames[id.frame].state
              else record == old(record) && Disturbed() && (r.error == Conflict || r.error == Storage)
      ensures Onward(old(Here()))
    {
      hide RecordInv, Answered, Truthful, RequestsKept, TasksKept, RanOut, RunCancelled;
      RequestedContent(pg, record, id);
      r := Halt(pg, RunStatus.Suspended, DurableError.Suspended);
    }

    /** Pass a barrier, or ask for its approval and suspend, or stop on a rejection or expiry. */
    method Approve(ghost pg: Program, id: InvocationId, timeout: Option<nat>) returns (r: Result<(), DurableError>)
      requires Good(pg)
      requires id.frame in record.frames && record.frames[id.frame].active
      requires record.frames[id.frame].nextNode == Some(id.node) && record.frames[id.frame].stepsUsed == id.invocation
      requires OriginOf(pg, id.frame).Some? && IsBarrier(OriginOf(pg, id.frame).value.graph, id.node)
      modifies this`record, this`poisoned, store`records, store.world`time
      ensures Good(pg) && record.frames == old(record.frames) && record.tasks == old(record.tasks)
      ensures r.Ok? <==> id in old(record.approvals) && Approved(old(record.approvals)[id])
      ensures r.Ok? ==> record == old(record) && poisoned == old(poisoned)
      ensures r.Err? ==> r.error != NodeFailed
      ensures r == Err(DurableError.Suspended) ==>
                && record.status == RunStatus.Suspended
                && id in record.approvals && record.approvals[id].receipt.None?
                && record.approvals[id].content == record.frames[id.frame].state
      ensures r == Err(Stopped) ==>
                && id in old(record.approvals)
                && if old(record.approvals)[id].receipt.Some? then record.status == RunStatus.Rejected
                   else record.status == RunStatus.Expired
                        && LateAt(old(record.approvals)[id], store.world.at(old(store.world.time)))
      ensures id !in old(record.approvals) && id in record.approvals ==>
                var moment := store.world.at(old(store.world.time)); var a := record.approvals[id];
                && a.frame == id.frame && a.node == id.node && a.content == record.frames[id.frame].state
                && a.token == moment.token && a.receipt == None && !a.applied
                && match timeout
                   case None => a.deadline == None
                   case Some(t) =>
                     a.deadline == Some(if moment.now + t <= 0xffff_ffff_ffff_ffff then moment.now + t
                                        else 0xffff_ffff_ffff_ffff)
      ensures Onward(old(Here()))
      ensures r.Err? ==> Disturbed() || r.error == Stopped || r.error == DurableError.Suspended
      ensures r.Err? && r.error != Stopped && r.error != DurableError.Suspended ==> record.status == old(record.status)
    {
      hide RecordInv, Answered, Truthful, OriginOf, EvalNode, ApprovalOk, RequestsKept, TasksKept, Caused;
      ghost var before := Here();
      ghost var looked := before;
      if id in record.approvals {
        var request := record.approvals[id];
        if request.receipt.Some? {
          if request.receipt.value.decision.Approve? {
            NothingDone(store.world.at, before, Here());
            return Ok(());
          }
          r := Refuse(pg, id);
          return;
        }
        var moment := Look(pg);
        looked := Here();
        NothingDone(store.world.at, before, looked);
        if E.Overdue(request, moment.now) {
          r := Halt(pg, RunStatus.Expired, Stopped);
          if r.error == Stopped {
            CausedByLateness(store.world.at, before, Here(), id);
          } else {
            NothingDone(store.world.at, before, Here());
          }
          return;
        }
      } else {
        var moment := Look(pg);
        looked := Here();
        NothingDone(store.world.at, before, looked);
        r := Ask(pg, id, moment.token, Deadline(moment.now, timeout));
        if r.Err? {
          NothingDone(store.world.at, before, Here());
          return;
        }
      }
      ghost var asked := Here();
      WentFurther(store.world.at, before, looked, asked);
      r := Await(pg, id);
      WentFurther(store.world.at, before, asked, Here());
    }
  }
}
