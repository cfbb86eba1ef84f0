/** The calls of `DurableRuntime` that come from outside an execution, as functions of the record
    their lease loaded: what the caller is told, and the record that is saved, if any. */
module RunCalls {
  import opened Wrappers
  import opened GraphCore
  import opened RunModel
  import E = ScopeEdits

  datatype Answer<T> = Answer(reply: Result<T, DurableError>, write: Option<RunRecord>)

  function Reply<T>(e: DurableError): Answer<T> {
    Answer(Err(e), None)
  }

  /** Save an edited record, then reply. */
  function Write<T>(r: RunRecord, reply: Result<T, DurableError>): Answer<T> {
    match E.Bumped(r)
    case Err(e) => Reply(e)
    case Ok(r') => Answer(reply, Some(r'))
  }

  function ValidateRecord(runId: string, version: RunVersion, r: RunRecord): Result<(), DurableError> {
    if r.runId != runId || r.version != version then Err(Incompatible) else Validate(r)
  }

  function SubmitDecision(r: RunRecord, id: InvocationId, token: string, request: string,
                          expected: nat, decision: Decision, now: nat): Answer<Receipt> {
    if request == "" then Reply(Conflict)
    else if id !in r.approvals then Reply(NotFound)
    else
      var a := r.approvals[id];
      if a.token != token then Reply(Conflict)
      else if a.receipt.Some? then
        if a.receipt.value.request == request && a.receipt.value.decision == decision
        then Answer(Ok(a.receipt.value), None)
        else Reply(Conflict)
      else if r.status != RunStatus.Suspended || r.revision != expected then Reply(Conflict)
      else if E.Overdue(a, now) then Write(E.SetStatus(r, RunStatus.Expired), Err(Conflict))
      else if r.revision >= U64_MAX then Reply(Conflict)
      else
        var receipt := Receipt(request, decision, r.revision + 1);
        Write(E.Decide(r, id, receipt), Ok(receipt))
  }

  predicate Open(s: RunStatus) {
    s == RunStatus.Running || s == RunStatus.Suspended
  }

  function CancelRun(r: RunRecord, expected: nat): Answer<()> {
    if r.status == RunStatus.Cancelled then Answer(Ok(()), None)
    else if r.revision != expected || !Open(r.status) then Reply(Conflict)
    else Write(E.SetStatus(r, RunStatus.Cancelled), Ok(()))
  }

  function ResolveTask(r: RunRecord, id: TaskId, request: string, expected: nat,
                       resolution: TaskResolution): Answer<()> {
    if request == "" then Reply(Conflict)
    else if id !in r.tasks then Reply(NotFound)
    else
      var t := r.tasks[id];
      if request in t.resolutions then
        if t.resolutions[request] == resolution then Answer(Ok(()), None) else Reply(Conflict)
      else if || r.revision != expected
              || !Open(r.status)
              || !(t.status == TaskStatus.Unknown || t.status == TaskStatus.Started) then Reply(Conflict)
      else Write(E.ResolveTask(r, id, request, resolution), Ok(()))
  }

  predicate Undecided(a: ApprovalRequest) {
    !a.applied && a.receipt.None?
  }

  /** What `execute` does with a loaded record before it drives the graph. */
  datatype Prelude = ExpireRun | StaySuspended | Drive

  function ExecutePrelude(r: RunRecord, cancelled: bool, now: nat): Prelude {
    if exists id | id in r.approvals :: Undecided(r.approvals[id]) && E.Overdue(r.approvals[id], now) then ExpireRun
    else if !cancelled && ((exists id | id in r.approvals :: Undecided(r.approvals[id]))
                           || (exists id | id in r.tasks :: r.tasks[id].status == TaskStatus.Unknown))
    then StaySuspended
    else Drive
  }

  // ------------------------------------------------------------ what the calls leave behind

  /** A first decision about a request of a suspended run, by somebody who has seen both. */
  predicate MayDecide(r: RunRecord, id: InvocationId, token: string, expected: nat) {
    && id in r.approvals && r.approvals[id].token == token && r.approvals[id].receipt.None?
    && r.status == RunStatus.Suspended && r.revision == expected < 0xffff_ffff_ffff_ffff
  }

  predicate InTime(a: ApprovalRequest, clock: nat) {
    a.deadline.Some? ==> clock < a.deadline.value
  }

  /** The request has this decision, of this request id, already. */
  predicate DecidedSo(r: RunRecord, id: InvocationId, token: string, request: string, decision: Decision) {
    && id in r.approvals && r.approvals[id].token == token && r.approvals[id].receipt.Some?
    && r.approvals[id].receipt.value.request == request && r.approvals[id].receipt.value.decision == decision
  }

  /** What a decision makes of the record, whose save may be `visible` without being `confirmed`: in time it is
      stored as the receipt, too late it expires the run; a repetition is answered with the first receipt,
      and anything else is refused. */
  predicate DecisionDone(was: RunRecord, now: RunRecord, id: InvocationId, token: string, request: string,
                         expected: nat, decision: Decision, clock: nat, visible: bool, confirmed: bool,
                         r: Result<Receipt, DurableError>) {
    if MayDecide(was, id, token, expected) then
      var a := was.approvals[id];
      var receipt := Receipt(request, decision, expected + 1);
      && now == (if !visible then was
                 else if InTime(a, clock)
                 then was.(approvals := was.approvals[id := a.(receipt := Some(receipt))], revision := expected + 1)
                 else was.(status := Expired, revision := expected + 1))
      && r == if !confirmed then Err(Storage) else if InTime(a, clock) then Ok(receipt) else Err(Conflict)
    else
      && now == was
      && r == if DecidedSo(was, id, token, request, decision) then Ok(was.approvals[id].receipt.value)
              else Err(if id in was.approvals then Conflict else NotFound)
  }

  lemma DecisionMeans(was: RunRecord, id: InvocationId, token: string, request: string, expected: nat,
                      decision: Decision, clock: nat, visible: bool, confirmed: bool)
    requires request != "" && (confirmed ==> visible)
    ensures var a := SubmitDecision(was, id, token, request, expected, decision, clock);
      DecisionDone(was, if a.write.Some? && visible then a.write.value else was, id, token, request, expected,
                   decision, clock, visible, confirmed,
                   if a.write.Some? && !confirmed then Err(Storage) else a.reply)
  {
  }

  lemma DecisionWritten(r: RunRecord, id: InvocationId, token: string, request: string, expected: nat,
                        decision: Decision, clock: nat)
    requires request != "" && MayDecide(r, id, token, expected)
    ensures SubmitDecision(r, id, token, request, expected, decision, clock).write.Some?
  {
  }

  /** What a cancellation makes of the record: an open run of the expected revision is cancelled, a cancelled
      one stays so, and any other is left alone. */
  predicate CancelDone(was: RunRecord, now: RunRecord, expected: nat, visible: bool, confirmed: bool,
                       r: Result<(), DurableError>) {
    if (was.status == Running || was.status == RunStatus.Suspended)
       && was.revision == expected < 0xffff_ffff_ffff_ffff then
      && now == (if visible then was.(status := Cancelled, revision := expected + 1) else was)
      && r == if confirmed then Ok(()) else Err(Storage)
    else
      now == was && r == if was.status == Cancelled then Ok(()) else Err(Conflict)
  }

  lemma CancelMeans(was: RunRecord, expected: nat, visible: bool, confirmed: bool)
    requires confirmed ==> visible
    ensures var a := CancelRun(was, expected);
      CancelDone(was, if a.write.Some? && visible then a.write.value else was, expected, visible, confirmed,
                 if a.write.Some? && !confirmed then Err(Storage) else a.reply)
  {
  }

  /** A first resolution, under this request id, of a task of an open run whose outcome is not known. */
  predicate MayResolve(r: RunRecord, id: TaskId, request: string, expected: nat) {
    && id in r.tasks && request !in r.tasks[id].resolutions
    && (r.tasks[id].status == TaskStatus.Unknown || r.tasks[id].status == TaskStatus.Started)
    && (r.status == Running || r.status == RunStatus.Suspended)
    && r.revision == expected < 0xffff_ffff_ffff_ffff
  }

  /** The task has the result the operator gave, or is planned again; all else is as it was. */
  predicate TaskResolved(t: TaskRecord, t': TaskRecord, request: string, resolution: TaskResolution) {
    && t'.id == t.id && t'.version == t.version && t'.input == t.input && t'.policy == t.policy
    && t'.attempts == t.attempts && t'.resolutions == t.resolutions[request := resolution]
    && match resolution
       case Resolved(result) => t'.status == TaskStatus.Completed && t'.result == Some(result)
       case Retry => t'.status == TaskStatus.Planned && t'.result == None
  }

  predicate ResolutionStored(was: RunRecord, now: RunRecord, id: TaskId, request: string, resolution: TaskResolution)
  {
    && id in was.tasks && id in now.tasks && TaskResolved(was.tasks[id], now.tasks[id], request, resolution)
    && now.tasks.Keys == was.tasks.Keys && (forall k | k in was.tasks && k != id :: now.tasks[k] == was.tasks[k])
    && now.revision == was.revision + 1 && now == was.(tasks := now.tasks, revision := now.revision)
  }

  /** What a resolution makes of the record. */
  predicate ResolutionDone(was: RunRecord, now: RunRecord, id: TaskId, request: string, expected: nat,
                           resolution: TaskResolution, visible: bool, confirmed: bool, r: Result<(), DurableError>) {
    if MayResolve(was, id, request, expected) then
      && (if visible then ResolutionStored(was, now, id, request, resolution) else now == was)
      && r == if confirmed then Ok(()) else Err(Storage)
    else
      && now == was
      && r == if id !in was.tasks then Err(NotFound)
              else if request in was.tasks[id].resolutions && was.tasks[id].resolutions[request] == resolution
              then Ok(()) else Err(Conflict)
  }

  lemma ResolutionMeans(was: RunRecord, id: TaskId, request: string, expected: nat, resolution: TaskResolution,
                        visible: bool, confirmed: bool)
    requires request != "" && (confirmed ==> visible)
    ensures var a := ResolveTask(was, id, request, expected, resolution);
      ResolutionDone(was, if a.write.Some? && visible then a.write.value else was, id, request, expected,
                     resolution, visible, confirmed, if a.write.Some? && !confirmed then Err(Storage) else a.reply)
  {
  }
}
