/** The entry points of durable execution. Each takes the lease of the run, works on the record it
    loads, and releases the lease however it ends. */
module DurableRuntime {
  import opened Wrappers
  import opened GraphCore
  import opened RunModel
  import opened RunInvariant
  import opened RunStore
  import opened FrameScope
  import C = RunCalls
  import E = ScopeEdits
  import T = TaskRuntime
  import Loop = DurableLoop

  datatype Outcome = Completed(state: Json) | Waiting(record: RunRecord) | Halted(status: RunStatus)

  /** An approval is undecided or a task unknown. */
  predicate Pending(r: RunRecord) {
    || (exists id | id in r.approvals :: C.Undecided(r.approvals[id]))
    || (exists id | id in r.tasks :: r.tasks[id].status == TaskStatus.Unknown)
  }

  /** Why a run has halted with the status its record has. */
  predicate HaltedFor(at: nat -> Moment, from: nat, to: nat, r: RunRecord) {
    match r.status
    case Rejected => exists id | id in r.approvals :: Denied(r.approvals[id])
    case Expired => RanOut(r, at, from, to)
    case Cancelled => RunCancelled(at, from, to)
    case _ => false
  }

  /** At some moment of the span the action of some task would have failed. */
  ghost predicate SomeFailed(at: nat -> Moment, from: nat, to: nat) {
    exists id, k | from <= k < to :: at(k).outcome(id).None?
  }

  /** Why an execution may fail: saves failed, the revision cannot grow, the steps or the attempts of a task
      are spent, a branch group was cancelled, a task failed, a script asks for another task than the
      recorded one, or the crash-free run has no result. */
  ghost predicate FailedFor(pg: Program, at: nat -> Moment, from: nat, to: nat, r: RunRecord, e: DurableError) {
    var hasResult := RunResult(pg.answers, Root, pg.graph, pg.input, pg.maxSteps).Some?;
    if e == NodeFailed then !hasResult || SomeFailed(at, from, to)
    else
      || Faulty(at, from, to) || r.revision >= U64_MAX
      || match e
         case Incompatible => !hasResult || Loop.SomeClash(pg, r.tasks)
         case Conflict => !hasResult || r.stepsUsed >= r.maxSteps || Loop.SomeSpent(r.tasks)
         case BranchCancelled => GroupCancelled(at, from, to)
         case _ => false
  }

  /** What an execution that leaves `r` in the store may report. As long as saves do not fail, it reports
      what is stored. */
  ghost predicate Reported(pg: Program, at: nat -> Moment, from: nat, to: nat, r: RunRecord,
                           result: Result<Outcome, DurableError>) {
    match result
    case Ok(Completed(state)) =>
      RunResult(pg.answers, Root, pg.graph, pg.input, pg.maxSteps) == Some(state) && r.status == RunStatus.Completed
    case Ok(Waiting(waits)) => Pending(waits) && (Faulty(at, from, to) || r == waits)
    case Ok(Halted(status)) =>
      Halting(status) && (Faulty(at, from, to) || (r.status == status && HaltedFor(at, from, to, r)))
    case Err(e) => FailedFor(pg, at, from, to, r, e)
  }

  /** A call that answers as `a` and saves what `a` says, on a medium with this fate. */
  ghost predicate Follows<T>(a: C.Answer<T>, id: string, before: map<string, RunRecord>,
                             after: map<string, RunRecord>, fate: Fate, r: Result<T, DurableError>) {
    match a.write
    case None => after == before && r == a.reply
    case Some(w) =>
      && after == (if fate.Lost? then before else before[id := w])
      && r == (if fate.Confirmed? then a.reply else Err(Storage))
  }

  class Runtime {
    const store: Store
    const version: RunVersion

    constructor (store: Store, version: RunVersion)
      ensures this.store == store && this.version == version
    {
      this.store, this.version := store, version;
    }

    /** Every record of this program in the store satisfies the invariant and tells what its tasks answer. */
    ghost predicate Sound(pg: Program)
      reads store, store.world
    {
      && pg.version == version && Truthful(pg, store.world.at)
      && (pg.runId in store.records ==> Sane(pg, store.records[pg.runId]))
    }

    /** Why the record of a run cannot be used by this workflow. */
    function Unusable(id: string): Option<DurableError>
      reads store
    {
      match store.Load(id)
      case Err(e) => Some(e)
      case Ok(None) => Some(NotFound)
      case Ok(Some(record)) =>
        match C.ValidateRecord(id, version, record) case Err(e) => Some(e) case Ok(_) => None
    }

    /** Why a call on a run is refused at once. */
    function Refusal(id: string): Option<DurableError>
      reads store
    {
      if store.Refusal(id).Some? then store.Refusal(id) else Unusable(id)
    }

    /** Why a run cannot be created. */
    function StartRefusal(id: string): Option<DurableError>
      reads store
    {
      if version.workflow == "" || version.stateSchema == "" then Some(Incompatible)
      else if store.Refusal(id).Some? then store.Refusal(id)
      else match store.Load(id)
        case Err(e) => Some(e)
        case Ok(Some(_)) => Some(AlreadyExists)
        case Ok(None) => None
    }

    /** Load the record of a leased run and check that it is this workflow's. */
    method Open(id: string) returns (r: Result<RunRecord, DurableError>)
      ensures r.Ok? <==> Unusable(id).None?
      ensures r.Ok? <==>
                && id in store.records && Readable(store.records[id])
                && store.records[id].runId == id && store.records[id].version == version
      ensures r.Err? ==>
                r.error == if id !in store.records then NotFound
                           else if store.records[id].formatVersion == 2 then Incompatible else UnsupportedFormat
      ensures r.Ok? ==> id in store.records && r.value == store.records[id]
                        && C.ValidateRecord(id, version, r.value).Ok?
      ensures r.Err? ==> Unusable(id) == Some(r.error)
    {
      var loaded :- store.Load(id);
      if loaded.None? {
        return Err(NotFound);
      }
      var _ :- C.ValidateRecord(id, version, loaded.value);
      r := Ok(loaded.value);
    }

    /** Save what a call decided to write, then answer. */
    method Finish<T>(id: string, a: C.Answer<T>) returns (r: Result<T, DurableError>)
      requires id in store.records && (a.write.Some? ==> a.write.value.runId == id)
      modifies store`records, store.world`time
      ensures Follows(a, id, old(store.records), store.records, store.world.at(old(store.world.time)).medium, r)
    {
      if a.write.Some? {
        var saved := store.Save(id, a.write.value);
        if saved.Err? {
          return Err(saved.error);
        }
      }
      r := a.reply;
    }

    /** Decide about a request, at the first moment of the call. */
    method SubmitDecision(id: string, approval: InvocationId, token: string, request: string,
                          expected: nat, decision: Decision)
      returns (r: Result<Receipt, DurableError>)
      modifies store, store.world
      ensures store.held == old(store.held)
      ensures store.records != old(store.records) ==>
                && id in old(store.records) && C.Open(old(store.records)[id].status)
                && old(store.records)[id].revision == expected
                && id in store.records && store.records[id].revision == expected + 1
                && store.records == old(store.records)[id := store.records[id]]
                && store.records[id].frames == old(store.records)[id].frames
      ensures request == "" || old(Refusal(id)).Some? ==>
                && store.records == old(store.records)
                && r == Err(if request == "" then Conflict else old(Refusal(id)).value)
      ensures request != "" && old(Refusal(id)).None? ==>
                && id in old(store.records)
                && var at, time := store.world.at, old(store.world.time);
                   && id in store.records && store.records == old(store.records)[id := store.records[id]]
                   && C.DecisionDone(old(store.records)[id], store.records[id], approval, token, request, expected,
                                     decision, at(time).now, !at(time + 1).medium.Lost?,
                                     at(time + 1).medium.Confirmed?, r)
      ensures r.Ok? ==> id in store.records && approval in store.records[id].approvals
                        && store.records[id].approvals[approval].receipt == Some(r.value)
                        && r.value.request == request && r.value.decision == decision
    {
      hide C.SubmitDecision;
      if request == "" {
        return Err(Conflict);
      }
      var lease := store.Acquire(id);
      if lease.Err? {
        return Err(lease.error);
      }
      var found := Open(id);
      if found.Ok? {
        var moment := store.world.Look();
        ghost var fate := store.world.at(store.world.time).medium;
        C.DecisionMeans(found.value, approval, token, request, expected, decision, moment.now, true, true);
        C.DecisionMeans(found.value, approval, token, request, expected, decision, moment.now, !fate.Lost?,
                        fate.Confirmed?);
        r := Finish(id, C.SubmitDecision(found.value, approval, token, request, expected, decision, moment.now));
      } else {
        r := Err(found.error);
      }
      store.Release(id);
    }

    method Cancel(id: string, expected: nat) returns (r: Result<(), DurableError>)
      modifies store, store.world
      ensures store.held == old(store.held)
      ensures store.records != old(store.records) ==>
                && id in old(store.records) && C.Open(old(store.records)[id].status)
                && E.Bumped(E.SetStatus(old(store.records)[id], RunStatus.Cancelled)).Ok?
                && store.records
                   == old(store.records)[id := E.Bumped(E.SetStatus(old(store.records)[id], RunStatus.Cancelled)).value]
                && old(store.records)[id].revision == expected
      ensures old(Refusal(id)).Some? ==> store.records == old(store.records) && r == Err(old(Refusal(id)).value)
      ensures old(Refusal(id)).None? ==>
                && id in old(store.records)
                && id in store.records && store.records == old(store.records)[id := store.records[id]]
                && var fate := store.world.at(old(store.world.time)).medium;
                   C.CancelDone(old(store.records)[id], store.records[id], expected, !fate.Lost?, fate.Confirmed?, r)
      ensures r.Ok? ==> id in store.records && store.records[id].status == RunStatus.Cancelled
    {
      var lease := store.Acquire(id);
      if lease.Err? {
        return lease;
      }
      var found := Open(id);
      if found.Ok? {
        ghost var fate := store.world.at(store.world.time).medium;
        C.CancelMeans(found.value, expected, !fate.Lost?, fate.Confirmed?);
        r := Finish(id, C.CancelRun(found.value, expected));
      } else {
        r := Err(found.error);
      }
      store.Release(id);
    }

    method ResolveTask(id: string, task: TaskId, request: string, expected: nat, resolution: TaskResolution)
      returns (r: Result<(), DurableError>)
      modifies store, store.world
      ensures store.held == old(store.held)
      ensures store.records != old(store.records) ==>
                && id in old(store.records) && C.Open(old(store.records)[id].status)
                && old(store.records)[id].revision == expected
                && id in store.records && store.records[id].revision == expected + 1
                && store.records == old(store.records)[id := store.records[id]]
      ensures request == "" || old(Refusal(id)).Some? ==>
                && store.records == old(store.records)
                && r == Err(if request == "" then Conflict else old(Refusal(id)).value)
      ensures request != "" && old(Refusal(id)).None? ==>
                && id in old(store.records)
                && id in store.records && store.records == old(store.records)[id := store.records[id]]
                && var fate := store.world.at(old(store.world.time)).medium;
                   C.ResolutionDone(old(store.records)[id], store.records[id], task, request, expected, resolution,
                                    !fate.Lost?, fate.Confirmed?, r)
      ensures r.Ok? ==> id in store.records && task in store.records[id].tasks
                        && request in store.records[id].tasks[task].resolutions
                        && store.records[id].tasks[task].resolutions[request] == resolution
    {
      if request == "" {
        return Err(Conflict);
      }
      var lease := store.Acquire(id);
      if lease.Err? {
        return lease;
      }
      var found := Open(id);
      if found.Ok? {
        ghost var fate := store.world.at(store.world.time).medium;
        C.ResolutionMeans(found.value, task, request, expected, resolution, !fate.Lost?, fate.Confirmed?);
        r := Finish(id, C.ResolveTask(found.value, task, request, expected, resolution));
      } else {
        r := Err(found.error);
      }
      store.Release(id);
    }

    /** What an execution since that moment may report. */
    ghost predicate ReportedSince(pg: Program, from: nat, r: Result<Outcome, DurableError>)
      reads store, store.world
    {
      if pg.runId in store.records
      then Reported(pg, store.world.at, from, store.world.time, store.records[pg.runId], r)
      else r == Err(Storage) && Faulty(store.world.at, from, store.world.time)
    }

    /** Create a run and execute it. */
    method Start(ghost pg: Program, id: string, g: Graph, input: Json, maxSteps: nat)
      returns (r: Result<Outcome, DurableError>)
      requires Sound(pg) && pg == Program(id, version, g, input, maxSteps, pg.answers) && WellFormed(g)
      modifies store, store.world
      ensures Sound(pg) && store.held == old(store.held)
      ensures old(StartRefusal(id)).Some? ==>
                r == Err(old(StartRefusal(id)).value) && store.records == old(store.records)
      ensures old(StartRefusal(id)).None? ==> ReportedSince(pg, old(store.world.time), r)
    {
      hide RecordInv, EvalNode, Final, WellFormed;
      if version.workflow == "" || version.stateSchema == "" {
        return Err(Incompatible);
      }
      var lease := store.Acquire(id);
      if lease.Err? {
        return Err(lease.error);
      }
      var loaded := store.Load(id);
      if loaded.Err? || loaded.value.Some? {
        r := Err(if loaded.Err? then loaded.error else AlreadyExists);
      } else {
        var record := E.RootRecord(id, version, g, input, maxSteps);
        RootRecordInv(pg);
        var saved := store.Save(id, record);
        if saved.Err? {
          r := Err(saved.error);
        } else {
          r := Execute(pg, record, g);
        }
      }
      store.Release(id);
    }

    /** Take a run up again from its last saved record, if the graph has the signature it was started with. */
    method Resume(ghost pg: Program, id: string, g: Graph) returns (r: Result<Outcome, DurableError>)
      requires Sound(pg) && pg.runId == id && ProgramOk(pg) && (g.signature == pg.graph.signature ==> g == pg.graph)
      modifies store, store.world
      ensures Sound(pg) && store.held == old(store.held)
      ensures old(Refusal(id)).Some? ==> r == Err(old(Refusal(id)).value) && store.records == old(store.records)
      ensures old(Refusal(id)).None? ==> id in old(store.records)
      ensures old(Refusal(id)).None? && g != pg.graph ==> r == Err(Incompatible) && store.records == old(store.records)
      ensures old(Refusal(id)).None? && g == pg.graph && Terminal(old(store.records)[id].status) ==>
                && store.records == old(store.records)
                && if Halting(old(store.records)[id].status) then r == Ok(Outcome.Halted(store.records[id].status))
                   else Root in store.records[id].frames
                        && r == Ok(Outcome.Completed(store.records[id].frames[Root].state))
                        && RunResult(pg.answers, Root, g, pg.input, pg.maxSteps) == Some(r.value.state)
      ensures old(Refusal(id)).None? && g == pg.graph && !Terminal(old(store.records)[id].status) ==>
                ReportedSince(pg, old(store.world.time), r)
    {
      hide RecordInv, EvalNode, Final, WellFormed;
      var lease := store.Acquire(id);
      if lease.Err? {
        return Err(lease.error);
      }
      var found := Open(id);
      if found.Err? {
        r := Err(found.error);
      } else {
        var record := found.value;
        RootOrigin(pg, record);
        if record.frames[Root].signature != g.signature {
          r := Err(Incompatible);
        } else if record.status == RunStatus.Completed {
          CompletedRoot(pg, record);
          Loop.EndedResult(pg, record, Root, Origin(g, pg.input, pg.maxSteps));
          r := Ok(Outcome.Completed(record.frames[Root].state));
        } else if Halting(record.status) {
          r := Ok(Outcome.Halted(record.status));
        } else {
          r := Execute(pg, record, g);
        }
      }
      store.Release(id);
    }

    lemma CompletedRoot(pg: Program, r: RunRecord)
      requires RecordInv(pg, r) && r.status == RunStatus.Completed
      ensures Root in r.frames && r.frames[Root].nextNode.None?
      ensures OriginOf(pg, Root) == Some(Origin(pg.graph, pg.input, pg.maxSteps))
    {
    }

    lemma RootOrigin(pg: Program, r: RunRecord)
      requires RecordInv(pg, r)
      ensures Root in r.frames && r.maxSteps == pg.maxSteps && r.frames[Root].signature == pg.graph.signature
      ensures OriginOf(pg, Root) == Some(Origin(pg.graph, pg.input, pg.maxSteps))
    {
    }

    /** End a session with a status of its own. */
    method EndWith(ghost pg: Program, s: Session, status: RunStatus) returns (r: Result<Outcome, DurableError>)
      requires s.store == store && s.runId == pg.runId && s.Good(pg) && Sound(pg) && status != RunStatus.Completed
      modifies s`record, s`poisoned, store`records, store.world`time
      ensures Sound(pg) && s.Good(pg) && Risen(old(s.Here()), s.Here())
      ensures s.record == old(s.record).(status := s.record.status, revision := s.record.revision)
      ensures if r.Ok? then r.value == Outcome.Halted(status) && s.Stored().status == status
              else s.Disturbed() && (r.error == Conflict || r.error == Storage)
    {
      var ended := s.Halt(pg, status, Stopped);
      r := if ended.error == Stopped then Ok(Outcome.Halted(status)) else Err(ended.error);
    }

    /** Turn the result of the loop into an outcome, recording completion or cancellation. */
    method Conclude(ghost pg: Program, s: Session, result: Result<Json, DurableError>)
      returns (r: Result<Outcome, DurableError>)
      requires s.store == store && s.runId == pg.runId && s.Good(pg) && Sound(pg)
      requires result.Ok? ==> Loop.Ended(s.record.frames, Root, result.value)
      modifies s`record, s`poisoned, store`records, store.world`time
      ensures Sound(pg) && s.Good(pg)
      ensures Concluded(store.world.at, old(s.Here()), s.Here(), s.Stored(), result, r)
    {
      hide RecordInv, EvalNode;
      ghost var driven := s.Here();
      var moment := s.Look(pg);
      if moment.runCancelled {
        r := EndWith(pg, s, RunStatus.Cancelled);
      } else if result.Ok? {
        ghost var was, stored := s.record, s.Stored();
        StatusInv(pg, was, E.SetStatus(was, RunStatus.Completed));
        var saved := s.SetStatus(RunStatus.Completed);
        s.SavedGood(pg, Ok(E.SetStatus(was, RunStatus.Completed)), was, stored, saved.Ok?);
        r := if saved.Ok? then Ok(Outcome.Completed(result.value)) else Err(saved.error);
      } else if result.error == DurableError.Suspended {
        r := Ok(Waiting(s.record));
      } else if result.error == Stopped {
        r := Ok(Outcome.Halted(s.record.status));
      } else {
        r := Err(result.error);
      }
    }

    /** What has been decided about a pending run before its graph is driven. */
    method Prepare(ghost pg: Program, s: Session) returns (r: Option<Result<Outcome, DurableError>>)
      requires s.store == store && s.runId == pg.runId && s.Good(pg) && Sound(pg) && !s.poisoned
      requires s.since == store.world.time
      modifies s`record, s`poisoned, store`records, store.world`time
      ensures Sound(pg) && s.Good(pg) && old(store.world.time) < store.world.time
      ensures r.Some? ==>
                Reported(pg, store.world.at, old(store.world.time), store.world.time, s.Stored(), r.value)
      ensures r.None? ==> s.record.status == RunStatus.Running && s.record.frames == old(s.record.frames)
    {
      hide RecordInv, EvalNode, C.ExecutePrelude, RunResult;
      ghost var start := s.Here();
      var record := s.record;
      var moment := s.Look(pg);
      Judged(record, moment.runCancelled, moment.now);
      match C.ExecutePrelude(record, moment.runCancelled, moment.now) {
        case ExpireRun =>
          var expired := EndWith(pg, s, RunStatus.Expired);
          ReportedLate(pg, store.world.at, start, s.Here(), s.Stored(), expired, moment.runCancelled);
          return Some(expired);
        case StaySuspended =>
          return Some(Ok(Waiting(record)));
        case Drive =>
      }
      StatusInv(pg, record, E.SetStatus(record, RunStatus.Running));
      ghost var stored := s.Stored();
      var running := s.SetStatus(RunStatus.Running);
      s.SavedGood(pg, Ok(E.SetStatus(record, RunStatus.Running)), record, stored, running.Ok?);
      r := if running.Err? then Some(Err(running.error)) else None;
    }

    /** Drive a leased run: expire or keep waiting for pending approvals, or run the graph. */
    method Execute(ghost pg: Program, record: RunRecord, g: Graph) returns (r: Result<Outcome, DurableError>)
      requires ProgramOk(pg) && Sound(pg) && pg.graph == g && record.runId == pg.runId
      requires pg.runId in store.records && store.records[pg.runId] == record
      modifies store`records, store.world`time
      ensures Sound(pg) && pg.runId in store.records && ReportedSince(pg, old(store.world.time), r)
    {
      hide RecordInv, EvalNode, Final, WellFormed, C.ExecutePrelude, OriginOf, RunResult, Reported, Answered, Truthful,
           WentOn, Loop.ExcusedBy;
      var s := new Session(store, record);
      var settled := Prepare(pg, s);
      if settled.Some? {
        return settled.value;
      }
      ghost var ready := s.Here();
      RootOrigin(pg, s.record);
      var result := Loop.RunGraphLoop(pg, s, Root, g, s.record.frames[Root].state, s.record.maxSteps);
      ghost var driven := s.Here();
      r := Conclude(pg, s, result);
      ReportedLoop(pg, store.world.at, old(store.world.time), ready, driven, s.Here(), s.Stored(), result, r);
    }
  }

  /** What the end of an execution makes of the loop's result: a cancelled run is stored as Cancelled, one
      that ended as Completed, and anything else is passed on. */
  predicate Concluded(at: nat -> Moment, was: View, now: View, stored: RunRecord, result: Result<Json, DurableError>,
                      r: Result<Outcome, DurableError>) {
    && was.time < now.time && (was.poisoned ==> now.poisoned)
    && if at(was.time).runCancelled || result.Ok? then
         if r.Ok? then
           if at(was.time).runCancelled
           then r.value == Outcome.Halted(RunStatus.Cancelled) && stored.status == RunStatus.Cancelled
           else r.value == Outcome.Completed(result.value) && stored.status == RunStatus.Completed
         else (now.poisoned || now.record.revision >= U64_MAX) && r.error != NodeFailed
       else
         && now.record == was.record
         && match result.error
            case Suspended => r == Ok(Waiting(was.record))
            case Stopped => r == Ok(Outcome.Halted(was.record.status))
            case e => r == Err(e)
  }

  lemma Judged(r: RunRecord, cancelled: bool, now: nat)
    ensures C.ExecutePrelude(r, cancelled, now) == C.StaySuspended ==> Pending(r) && !cancelled
    ensures C.ExecutePrelude(r, cancelled, now) == C.ExpireRun ==>
              exists id | id in r.approvals :: C.Undecided(r.approvals[id]) && E.Overdue(r.approvals[id], now)
  {
  }

  lemma UndecidedRequest(pg: Program, r: RunRecord, id: InvocationId)
    requires RecordInv(pg, r) && id in r.approvals && r.approvals[id].receipt.None?
    ensures C.Undecided(r.approvals[id])
  {
    assert ApprovalOk(pg, r, id, r.approvals[id]);
  }

  /** A session that ends a run for an overdue request. */
  lemma ReportedLate(pg: Program, at: nat -> Moment, was: View, now: View, stored: RunRecord,
                     r: Result<Outcome, DurableError>, cancelled: bool)
    requires C.ExecutePrelude(was.record, cancelled, at(was.time).now) == C.ExpireRun
    requires now.record == was.record.(status := now.record.status, revision := now.record.revision)
    requires was.time < now.time && (now.poisoned ==> Faulty(at, was.time, now.time))
    requires !now.poisoned ==> stored == now.record
    requires if r.Ok? then r.value == Outcome.Halted(RunStatus.Expired) && stored.status == RunStatus.Expired
             else (now.poisoned || now.record.revision >= U64_MAX) && r.error != NodeFailed
    ensures Reported(pg, at, was.time, now.time, stored, r)
  {
    hide RunResult;
    Judged(was.record, cancelled, at(was.time).now);
    if !now.poisoned {
      var id :| id in stored.approvals && C.Undecided(stored.approvals[id])
                && E.Overdue(stored.approvals[id], at(was.time).now);
      assert LateAt(stored.approvals[id], at(was.time));
    }
  }

  /** A session that drove the graph. */
  lemma ReportedLoop(pg: Program, at: nat -> Moment, from: nat, ready: View, driven: View, now: View,
                     stored: RunRecord, result: Result<Json, DurableError>, r: Result<Outcome, DurableError>)
    requires from <= ready.time && ready.record.status == RunStatus.Running && WentOn(at, ready, driven)
    requires RecordInv(pg, driven.record) && Loop.StatusKept(RunStatus.Running, result, driven.record.status)
    requires var meaning := RunResult(pg.answers, Root, pg.graph, pg.input, pg.maxSteps);
      && (result.Ok? ==> meaning == Some(result.value))
      && (result.Err? ==> Loop.ExcusedBy(pg, at, ready, driven, result.error, meaning.Some?))
    requires Concluded(at, driven, now, stored, result, r)
    requires (now.poisoned ==> Faulty(at, from, now.time)) && (!now.poisoned ==> stored == now.record)
    ensures Reported(pg, at, from, now.time, stored, r)
  {
    hide RunResult, RecordInv, RequestsKept, TasksKept, Loop.SomeClash, Loop.SomeSpent;
    if result == Err(DurableError.Suspended) && SomeUndecided(driven.record.approvals) {
      var id :| id in driven.record.approvals && driven.record.approvals[id].receipt.None?;
      UndecidedRequest(pg, driven.record, id);
    }
    if result == Err(NodeFailed) && T.Fruitless(at, ready, driven) {
      assert SomeFailed(at, from, now.time);
    }
    if result == Err(Stopped) && driven.record.status == Expired {
      var id, k :| id in driven.record.approvals && ready.time <= k < driven.time
                   && LateAt(driven.record.approvals[id], at(k));
    }
  }
}
