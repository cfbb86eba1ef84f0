/** Runs of a serial graph that save a checkpoint after every node, and runs restored from one. */
module CheckpointRun {
  import opened Wrappers
  import opened GraphCore
  import opened CheckpointStores

  const FORMAT_VERSION: nat := 1

  datatype Checkpoint = Checkpoint(version: nat, next: Option<string>, state: Json, hash: nat, stepsUsed: nat)

  /** Where a check finds one of several offending nodes, the model leaves open which one is named. */
  datatype Failure =
    | StepsExceeded
    | NodeNotFound(node: string)
    | NodeFailed(node: string)
    | HandlerMissing(at: Option<string>)
    | NoRoute(node: string)
    | RestoreUnsupported
    | UnsupportedFormat
    | GraphMismatch
    | NotLatest
    | NoCheckpoints
    | MissingContext
    | TraceNotFresh
    | LoadFailed
    | SaveFailed

  /** No barrier at any depth: nobody is there to decide. */
  predicate Handled(g: Graph)
    decreases g
  {
    forall n | n in g.nodes ::
      match g.nodes[n]
      case Leaf(_) => true
      case Barrier(_) => false
      case Nested(calls, _) => forall i | 0 <= i < |calls| :: Handled(calls[i].graph)
  }

  /** Graphs a run can be restored on: no barriers, subgraphs or parallel nodes. */
  predicate Persistable(g: Graph) {
    forall n | n in g.nodes :: g.nodes[n].Leaf?
  }

  /** The checkpoint after a node that left `state`. */
  function Routed(g: Graph, node: string, state: Json, action: Action, used: nat): (r: Result<Checkpoint, Failure>)
    ensures r.Ok? ==> r.value.stepsUsed == used + 1
  {
    match Route(g, node, state, action)
    case None => Err(NoRoute(node))
    case Some(c) => Ok(Checkpoint(FORMAT_VERSION, c.node, c.state, g.hash, used + 1))
  }

  /** One node: the checkpoint after it, or why there is none. Nested graphs save nothing, and a leaf that
      needs a task performed fails. */
  function StepOf(g: Graph, node: string, state: Json, used: nat): (r: Result<Checkpoint, Failure>)
    ensures r.Ok? ==> r.value.stepsUsed == used + 1
  {
    if node !in g.nodes then Err(NodeNotFound(node))
    else
      match g.nodes[node]
      case Barrier(_) => Err(HandlerMissing(Some(node)))
      case Leaf(run) =>
        (match Replay(NO_ANSWERS, InvocationId(Root, node, used + 1), run(state))
         case Some(Paused) => Err(HandlerMissing(Some(node)))
         case Some(Done(s, action)) => Routed(g, node, s, action, used)
         case _ => Err(NodeFailed(node)))
      case Nested(calls, combine) =>
        match ChildStates(NO_ANSWERS, InvocationId(Root, node, used + 1), g, state, |calls|)
        case None => Err(NodeFailed(node))
        case Some(finals) =>
          match combine(state, finals)
          case None => Err(NodeFailed(node))
          case Some(s) => Routed(g, node, s, Next, used)
  }

  /** An uninterrupted run: the checkpoints it saves and how it ends. `max` is the budget of the whole run,
      of which `used` steps are spent. */
  datatype Course = Course(saves: seq<Checkpoint>, end: Result<Json, Failure>)

  function Run(g: Graph, node: string, state: Json, used: nat, max: nat): Course
    decreases max - used, 0
  {
    if !Handled(g) then Course([], Err(HandlerMissing(None)))
    else if used >= max then Course([], Err(StepsExceeded))
    else
      match StepOf(g, node, state, used)
      case Err(e) => Course([], Err(e))
      case Ok(cp) => After(g, cp, max)
  }

  /** The run from its first checkpoint `cp` on. */
  function After(g: Graph, cp: Checkpoint, max: nat): Course
    requires cp.stepsUsed <= max
    decreases max - cp.stepsUsed, 1
  {
    if cp.next.None? then Course([cp], Ok(cp.state))
    else
      var rest := Run(g, cp.next.value, cp.state, cp.stepsUsed, max);
      Course([cp] + rest.saves, rest.end)
  }

  lemma RunStep(g: Graph, node: string, state: Json, used: nat, max: nat)
    requires Handled(g)
    ensures var c := Run(g, node, state, used, max); var s := StepOf(g, node, state, used);
      if used >= max then c == Course([], Err(StepsExceeded))
      else if s.Err? then c == Course([], Err(s.error))
      else
        && c.saves != [] && c.saves[0] == s.value
        && if s.value.next.None? then c == Course([s.value], Ok(s.value.state))
           else Run(g, s.value.next.value, s.value.state, used + 1, max) == Course(c.saves[1..], c.end)
  {
  }

  /** The checks at the restore entry. */
  function ValidateRestore(g: Graph, cp: Checkpoint, max: nat): Option<Failure> {
    if !Persistable(g) then Some(RestoreUnsupported)
    else if cp.version != FORMAT_VERSION then Some(UnsupportedFormat)
    else if cp.hash != g.hash then Some(GraphMismatch)
    else if cp.next.Some? && cp.next.value !in g.nodes then Some(NodeNotFound(cp.next.value))
    else if cp.next.Some? && cp.stepsUsed >= max then Some(StepsExceeded)
    else None
  }

  /** A restored run: a finished checkpoint runs nothing, another continues at its next node. */
  function Restored(g: Graph, cp: Checkpoint, max: nat): Course {
    match ValidateRestore(g, cp, max)
    case Some(e) => Course([], Err(e))
    case None =>
      if cp.next.None? then Course([], Ok(cp.state))
      else Run(g, cp.next.value, cp.state, cp.stepsUsed, max)
  }

  /** What a restore does, check by check: the graph has leaves only, the format is the current one, the graph
      is the one that saved the checkpoint, the next node exists, and there is budget for it. */
  lemma RestoredMeans(g: Graph, cp: Checkpoint, max: nat)
    ensures Restored(g, cp, max)
         == if exists n | n in g.nodes :: !g.nodes[n].Leaf? then Course([], Err(RestoreUnsupported))
            else if cp.version != 1 then Course([], Err(UnsupportedFormat))
            else if cp.hash != g.hash then Course([], Err(GraphMismatch))
            else if cp.next.None? then Course([], Ok(cp.state))
            else if cp.next.value !in g.nodes then Course([], Err(NodeNotFound(cp.next.value)))
            else if cp.stepsUsed >= max then Course([], Err(StepsExceeded))
            else Run(g, cp.next.value, cp.state, cp.stepsUsed, max)
  {
    hide Run;
  }

  /** A step leaves the cursor that the meaning of its node is, and fails exactly when there is none. */
  lemma StepMeans(g: Graph, node: string, state: Json, used: nat)
    ensures var meaning := EvalNode(NO_ANSWERS, InvocationId(Root, node, used + 1), g, state);
      match StepOf(g, node, state, used)
      case Ok(cp) =>
        && meaning == Some(Cursor(cp.next, cp.state))
        && cp.version == 1 && cp.hash == g.hash && cp.stepsUsed == used + 1
      case Err(_) => meaning.None? || IsBarrier(g, node)
  {
    hide Route, Replay, ChildStates;
  }

  /** A run of the graph, on some input and with some budget, saves this checkpoint. */
  ghost predicate SavedBy(g: Graph, cp: Checkpoint) {
    exists input, max, k :: IsSave(g, input, max, k, cp)
  }

  ghost predicate IsSave(g: Graph, input: Json, max: nat, k: nat, cp: Checkpoint) {
    k < |Run(g, g.start, input, 0, max).saves| && Run(g, g.start, input, 0, max).saves[k] == cp
  }

  /** A checkpoint is of the current format, and carries the hash of the graph whose run saved it. */
  lemma SavedHash(g: Graph, cp: Checkpoint)
    requires SavedBy(g, cp)
    ensures cp.version == 1 && cp.hash == g.hash
  {
    hide Run;
    var input, max, k :| IsSave(g, input, max, k, cp);
    SuffixOfRun(g, g.start, input, 0, max, k);
  }

  // ------------------------------------------------------------ restart equivalence

  /** The k-th checkpoint of a run counts k + 1 steps, and from it on the run is the run from its cursor. */
  lemma {:induction false} SuffixOfRun(g: Graph, node: string, state: Json, used: nat, max: nat, k: nat)
    requires k < |Run(g, node, state, used, max).saves|
    ensures var r := Run(g, node, state, used, max); var cp := r.saves[k];
      && cp.version == FORMAT_VERSION && cp.hash == g.hash
      && cp.stepsUsed == used + k + 1 <= max
      && After(g, cp, max) == Course(r.saves[k..], r.end)
    decreases k
  {
    var cp := StepOf(g, node, state, used).value;
    if k > 0 {
      SuffixOfRun(g, cp.next.value, cp.state, cp.stepsUsed, max, k - 1);
      var rest := Run(g, cp.next.value, cp.state, cp.stepsUsed, max);
      assert Run(g, node, state, used, max).saves[k..] == rest.saves[k - 1..];
    } else {
      assert Run(g, node, state, used, max).saves[0..] == Run(g, node, state, used, max).saves;
    }
  }

  /** What a run can end with, when it does not finish. */
  predicate RunError(e: Failure) {
    e.StepsExceeded? || e.NodeNotFound? || e.NodeFailed? || e.HandlerMissing? || e.NoRoute?
  }

  lemma {:induction false} RunEnds(g: Graph, node: string, state: Json, used: nat, max: nat)
    ensures var end := Run(g, node, state, used, max).end; end.Err? ==> RunError(end.error)
    decreases max - used
  {
    if Handled(g) && used < max && StepOf(g, node, state, used).Ok? {
      var cp := StepOf(g, node, state, used).value;
      if cp.next.Some? {
        RunEnds(g, cp.next.value, cp.state, cp.stepsUsed, max);
      }
    }
  }

  /** The restore checks look for the next node before the budget; the loop asks for the budget first. */
  predicate MissingAndSpent(g: Graph, cp: Checkpoint, max: nat) {
    cp.next.Some? && cp.next.value !in g.nodes && cp.stepsUsed >= max
  }

  /** Restoring the k-th checkpoint with the same budget ends as the run ended exactly when the graph can be
      restored at all and it is not the case that the next node is missing while the budget is spent. Then
      it also saves what the run still had to save. */
  lemma RestoreIsSuffix(g: Graph, input: Json, max: nat, k: nat)
    requires k < |Run(g, g.start, input, 0, max).saves|
    ensures var r := Run(g, g.start, input, 0, max); var cp := r.saves[k]; var again := Restored(g, cp, max);
      && (again.end == r.end <==> Persistable(g) && !MissingAndSpent(g, cp, max))
      && (Persistable(g) ==> again.saves == r.saves[k + 1..])
      && (Persistable(g) && MissingAndSpent(g, cp, max)
          ==> again.end == Err(NodeNotFound(cp.next.value)) && r.end == Err(StepsExceeded))
  {
    SuffixOfRun(g, g.start, input, 0, max, k);
    RunEnds(g, g.start, input, 0, max);
    var r := Run(g, g.start, input, 0, max);
    assert After(g, r.saves[k], max).saves[1..] == r.saves[k + 1..];
  }

  /** A graph on which the two ends differ: its only step jumps to a node it does not have. */
  lemma RestoreDiffers() returns (g: Graph, input: Json, max: nat)
    ensures Persistable(g) && |Run(g, g.start, input, 0, max).saves| == 1
    ensures var r := Run(g, g.start, input, 0, max);
      r.end == Err(StepsExceeded) && Restored(g, r.saves[0], max).end == Err(NodeNotFound("gone"))
  {
    var run := (s: Json) => Return(NodeResult.Done(s, Goto("gone")));
    g, input, max := Graph("a", "a", map["a" := Leaf(run)], [], "", 0), Null, 1;
    assert StepOf(g, "a", input, 0) == Ok(Checkpoint(FORMAT_VERSION, Some("gone"), input, 0, 1));
    assert Run(g, "gone", input, 1, max) == Course([], Err(StepsExceeded));
  }

  /** A finished run finishes with its last checkpoint, and only there. */
  lemma FinishedAtLast(g: Graph, input: Json, max: nat, k: nat)
    requires k < |Run(g, g.start, input, 0, max).saves|
    ensures var r := Run(g, g.start, input, 0, max);
      && (r.saves[k].next.None? <==> k == |r.saves| - 1 && r.end.Ok?)
      && (r.saves[k].next.None? ==> r.end == Ok(r.saves[k].state))
  {
    SuffixOfRun(g, g.start, input, 0, max, k);
    var r := Run(g, g.start, input, 0, max);
    var cp := r.saves[k];
    if cp.next.None? {
      assert |r.saves[k..]| == 1;
    } else if k == |r.saves| - 1 {
      assert r.saves[k..] == [cp];
      NothingSaved(g, cp.next.value, cp.state, cp.stepsUsed, max);
    }
  }

  /** A run that saves nothing does not finish. */
  lemma NothingSaved(g: Graph, node: string, state: Json, used: nat, max: nat)
    ensures var c := Run(g, node, state, used, max); c.saves == [] ==> c.end.Err?
  {
  }

  /** The checkpointed run of a serial graph and the meaning of the graph, without tasks, give the same result. */
  lemma {:induction false} RunMeansFinal(g: Graph, node: string, state: Json, used: nat, max: nat)
    requires Handled(g) && used <= max
    ensures var end := Run(g, node, state, used, max).end;
      Final(NO_ANSWERS, Root, g, used, Cursor(Some(node), state), max - used)
      == if end.Ok? then Some(end.value) else None
    decreases max - used
  {
    if used < max {
      match StepOf(g, node, state, used) {
        case Err(_) =>
        case Ok(cp) =>
          if cp.next.Some? {
            RunMeansFinal(g, cp.next.value, cp.state, cp.stepsUsed, max);
          }
      }
    }
  }
}
