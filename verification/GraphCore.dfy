/** Graphs, edge routing and the meaning of a graph: what an execution with no crash,
    no restart and no store would compute, given what the external tasks of its nodes answer.
    The durable and the checkpointed loops are proved against this meaning. */
module GraphCore {
  import opened Wrappers

  /** A state as it is persisted. Runtime states and their snapshots are identified:
      `snapshot` and `restore` are taken to be mutual inverses. */
  datatype Json =
    | Null
    | Bool(b: bool)
    | Number(n: int)
    | Text(s: string)
    | Array(items: seq<Json>)
    | Object(fields: map<string, Json>)

  /** What a node asked the executor to do next. */
  datatype Action = Next | Goto(target: string) | End

  /** Outcome of one node after its mutations were applied. `Paused` is a dynamic pause signal. */
  datatype NodeResult = Done(state: Json, action: Action) | Paused | Failed

  // ------------------------------------------------------------- identities

  /** Identity of a frame: the root run, or a graph run by one invocation of a node of another frame.
      Identity.dfy shows that the textual form of these identities is injective. */
  datatype Path = Root | Child(parent: Path, node: string, invocation: nat, name: string)

  /** Identity of one invocation of a node, also the identity of its approval request. */
  datatype InvocationId = InvocationId(frame: Path, node: string, invocation: nat)

  datatype TaskId = TaskId(at: InvocationId, slot: string)

  /** The frame of a nested run of an invocation. */
  function NestedPath(id: InvocationId, name: string): Path {
    Child(id.frame, id.node, id.invocation, name)
  }

  datatype ReplayPolicy = ManualRecovery | ReplaySafe | IdempotentWithKey

  /** What a leaf does: return, or have a task performed and go on with its result. A result that
      `resume` does not know is one the node cannot decode. */
  datatype Script =
    | Return(result: NodeResult)
    | Ask(slot: string, version: string, input: Json, policy: ReplayPolicy, resume: imap<Json, Script>)

  /** What tasks answer, as far as they do. */
  type Answers = TaskId -> Option<Json>

  /** Nobody performs tasks outside a durable run. */
  const NO_ANSWERS: Answers := _ => None

  /** What a leaf returns when its tasks answer as `w` says; None when it does not come to an end. */
  function Replay(w: Answers, id: InvocationId, script: Script): Option<NodeResult> {
    match script
    case Return(result) => Some(result)
    case Ask(slot, _, _, _, resume) =>
      match w(TaskId(id, slot))
      case None => None
      case Some(answer) => if answer in resume then Replay(w, id, resume[answer]) else None
  }

  // ------------------------------------------------------------------ graphs

  /** Node kinds. A node that runs other graphs (subgraph, graph branch, parallel) projects its
      state into each of them and combines the final states in declaration order. */
  datatype Kind =
    | Leaf(run: Json -> Script)
    | Barrier(timeout: Option<nat>)
    | Nested(calls: seq<Call>, combine: (Json, seq<Json>) -> Option<Json>)

  datatype Call = Call(name: string, graph: Graph, maxSteps: nat, project: Json -> Json)

  datatype Edge = Edge(from: string, to: string, condition: Option<Json -> bool>, fallback: bool)

  datatype Graph = Graph(
    start: string,
    end: string,
    nodes: map<string, Kind>,
    edges: seq<Edge>,
    signature: string,
    hash: nat)

  // ------------------------------------------------------------------ routing

  predicate IsConditional(e: Edge) {
    e.condition.Some? && !e.fallback
  }

  predicate IsNormal(e: Edge) {
    e.condition.None? && !e.fallback
  }

  /** How an edge ranks at a node: a conditional one that holds, a normal one, a fallback, or none of it. */
  function Rank(e: Edge, current: string, state: Json): (rank: nat)
    ensures rank <= 3
  {
    if e.from != current then 3
    else if IsConditional(e) && e.condition.value(state) then 0
    else if IsNormal(e) then 1
    else if e.fallback then 2
    else 3
  }

  /** Index of the first edge of a rank from the i-th on, or |g.edges|. */
  function FirstRanked(g: Graph, rank: nat, current: string, state: Json, i: nat := 0): (k: nat)
    requires i <= |g.edges|
    ensures i <= k <= |g.edges|
    ensures k < |g.edges| ==> Rank(g.edges[k], current, state) == rank
    ensures forall j | i <= j < k :: Rank(g.edges[j], current, state) != rank
    decreases |g.edges| - i
  {
    if i == |g.edges| || Rank(g.edges[i], current, state) == rank then i
    else FirstRanked(g, rank, current, state, i + 1)
  }

  /** Conditional edges first, then normal ones, then fallbacks; registration order in each class. */
  function ResolveNext(g: Graph, current: string, state: Json): Option<string> {
    var hit := FirstRanked(g, 0, current, state);
    if hit < |g.edges| then Some(g.edges[hit].to) else
    var normal := FirstRanked(g, 1, current, state);
    if normal < |g.edges| then Some(g.edges[normal].to) else
    var fall := FirstRanked(g, 2, current, state);
    if fall < |g.edges| then Some(g.edges[fall].to) else None
  }

  /** The edge leaves the node, and is a fallback, unconditional, or conditional on what holds. */
  ghost predicate Qualifies(e: Edge, node: string, state: Json) {
    e.from == node && (e.fallback || e.condition.None? || e.condition.value(state))
  }

  /** Edge `i` is the one to take: the first conditional one that holds; where none holds, the first
      unconditional one; where there is none either, the first fallback. */
  ghost predicate Chosen(g: Graph, node: string, state: Json, i: nat)
    requires i < |g.edges|
  {
    && g.edges[i].from == node
    && if g.edges[i].fallback then
         forall n | 0 <= n < |g.edges| && g.edges[n].from == node ::
           if g.edges[n].fallback then i <= n else g.edges[n].condition.Some? && !g.edges[n].condition.value(state)
       else if g.edges[i].condition.None? then
         forall n | 0 <= n < |g.edges| && g.edges[n].from == node && !g.edges[n].fallback ::
           if g.edges[n].condition.None? then i <= n else !g.edges[n].condition.value(state)
       else
         && g.edges[i].condition.value(state)
         && forall n | 0 <= n < i && g.edges[n].from == node && !g.edges[n].fallback && g.edges[n].condition.Some? ::
              !g.edges[n].condition.value(state)
  }

  lemma RankMeans(e: Edge, node: string, state: Json)
    ensures Rank(e, node, state) == 0 <==>
              e.from == node && !e.fallback && e.condition.Some? && e.condition.value(state)
    ensures Rank(e, node, state) == 1 <==> e.from == node && !e.fallback && e.condition.None?
    ensures Rank(e, node, state) == 2 <==> e.from == node && e.fallback
    ensures Rank(e, node, state) < 3 <==> Qualifies(e, node, state)
  {
  }

  /** The first edge of the best rank is the chosen one. */
  lemma RankedChosen(g: Graph, node: string, state: Json, i: nat)
    requires i < |g.edges| && Rank(g.edges[i], node, state) < 3
    requires forall n | 0 <= n < |g.edges| ::
               Rank(g.edges[i], node, state) < Rank(g.edges[n], node, state)
               || (i <= n && Rank(g.edges[i], node, state) == Rank(g.edges[n], node, state))
    ensures Chosen(g, node, state, i)
  {
    hide Rank, Qualifies;
    RankMeans(g.edges[i], node, state);
    forall n | 0 <= n < |g.edges|
      ensures Rank(g.edges[n], node, state) == 0 <==>
                g.edges[n].from == node && !g.edges[n].fallback && g.edges[n].condition.Some?
                && g.edges[n].condition.value(state)
      ensures Rank(g.edges[n], node, state) == 1 <==>
                g.edges[n].from == node && !g.edges[n].fallback && g.edges[n].condition.None?
      ensures Rank(g.edges[n], node, state) == 2 <==> g.edges[n].from == node && g.edges[n].fallback
    {
      RankMeans(g.edges[n], node, state);
    }
  }

  /** Routing takes that edge, and fails exactly when no edge qualifies. */
  lemma RouteChoice(g: Graph, current: string, state: Json)
    ensures match ResolveNext(g, current, state)
      case None => forall i | 0 <= i < |g.edges| :: !Qualifies(g.edges[i], current, state)
      case Some(target) => exists i | 0 <= i < |g.edges| :: Chosen(g, current, state, i) && g.edges[i].to == target
  {
    hide Rank, FirstRanked, Chosen, Qualifies;
    var i, j := FirstRanked(g, 0, current, state), FirstRanked(g, 1, current, state);
    var k := FirstRanked(g, 2, current, state);
    var hit := if i < |g.edges| then i else if j < |g.edges| then j else k;
    if hit < |g.edges| {
      RankedChosen(g, current, state, hit);
    } else {
      forall n | 0 <= n < |g.edges|
        ensures !Qualifies(g.edges[n], current, state)
      {
        RankMeans(g.edges[n], current, state);
      }
    }
  }

  /** Where an execution stands: the node to run next (None: finished) and the state. */
  datatype Cursor = Cursor(node: Option<string>, state: Json)

  /** The cursor after `node` finished with `state` and `action`; None when no edge matches. */
  function Route(g: Graph, node: string, state: Json, action: Action): Option<Cursor> {
    match action
    case End => Some(Cursor(None, state))
    case Goto(target) => Some(Cursor(Some(target), state))
    case Next =>
      if node == g.end then Some(Cursor(None, state))
      else match ResolveNext(g, node, state)
           case None => None
           case Some(n) => Some(Cursor(Some(n), state))
  }

  // ------------------------------------------------------------------ meaning

  predicate HasCall(calls: seq<Call>, name: string) {
    exists i :: 0 <= i < |calls| && calls[i].name == name
  }

  /** Position of the call with a given name. */
  function CallIndex(calls: seq<Call>, name: string): (i: nat)
    requires HasCall(calls, name)
    ensures i < |calls| && calls[i].name == name
  {
    if calls[0].name == name then 0 else 1 + CallIndex(calls[1..], name)
  }

  predicate DistinctCalls(calls: seq<Call>) {
    forall i, j :: 0 <= i < j < |calls| ==> calls[i].name != calls[j].name
  }

  /** Sibling calls of one node have distinct names, at every depth. */
  ghost predicate WellFormed(g: Graph)
    decreases g
  {
    forall n | n in g.nodes && g.nodes[n].Nested? ::
      && DistinctCalls(g.nodes[n].calls)
      && forall i :: 0 <= i < |g.nodes[n].calls| ==> WellFormed(g.nodes[n].calls[i].graph)
  }

  predicate IsNested(g: Graph, node: string) {
    node in g.nodes && g.nodes[node].Nested?
  }

  predicate IsBarrier(g: Graph, node: string) {
    node in g.nodes && g.nodes[node].Barrier?
  }

  /** One node and the routing after it. A barrier that is passed leaves the state alone. */
  function EvalNode(w: Answers, id: InvocationId, g: Graph, state: Json): Option<Cursor>
    decreases g, 1, 0
  {
    var node := id.node;
    if node !in g.nodes then None
    else match g.nodes[node]
      case Leaf(run) =>
        (match Replay(w, id, run(state))
         case Some(Done(s, action)) => Route(g, node, s, action)
         case _ => None)
      case Barrier(_) => Route(g, node, state, Next)
      case Nested(calls, combine) =>
        match ChildStates(w, id, g, state, |calls|)
        case None => None
        case Some(finals) =>
          match combine(state, finals)
          case None => None
          case Some(s) => Route(g, node, s, Next)
  }

  /** Final states of the first `n` nested runs of a composite node; None when one does not finish. */
  function ChildStates(w: Answers, id: InvocationId, g: Graph, state: Json, n: nat): (r: Option<seq<Json>>)
    requires IsNested(g, id.node) && n <= |g.nodes[id.node].calls|
    ensures r.Some? ==> |r.value| == n
    decreases g, 0, n
  {
    if n == 0 then Some([])
    else
      var call := g.nodes[id.node].calls[n - 1];
      match ChildStates(w, id, g, state, n - 1)
      case None => None
      case Some(before) =>
        match Final(w, NestedPath(id, call.name), call.graph, 0,
                    Cursor(Some(call.graph.start), call.project(state)), call.maxSteps)
        case None => None
        case Some(s) => Some(before + [s])
  }

  /** Final state of the run of frame `p`, from a cursor it reached by `k` commits and with `fuel` steps
      left; None on failure or exhaustion. */
  function Final(w: Answers, p: Path, g: Graph, k: nat, c: Cursor, fuel: nat): Option<Json>
    decreases g, 2, fuel
  {
    match c.node
    case None => Some(c.state)
    case Some(n) =>
      if fuel == 0 then None
      else match EvalNode(w, InvocationId(p, n, k + 1), g, c.state)
           case None => None
           case Some(c') => Final(w, p, g, k + 1, c', fuel - 1)
  }

  /** The cursor after `k` committed nodes of the run of `g` on `input` that frame `p` is. */
  function Traj(w: Answers, p: Path, g: Graph, input: Json, k: nat): Option<Cursor> {
    if k == 0 then Some(Cursor(Some(g.start), input))
    else match Traj(w, p, g, input, k - 1)
         case Some(Cursor(Some(n), s)) => EvalNode(w, InvocationId(p, n, k), g, s)
         case _ => None
  }

  /** Final result of a whole run. */
  function RunResult(w: Answers, p: Path, g: Graph, input: Json, maxSteps: nat): Option<Json> {
    Final(w, p, g, 0, Cursor(Some(g.start), input), maxSteps)
  }

  // ------------------------------------------------------- what an action does

  /** `c` is where an execution goes on after `node` left `state` and asked for what comes next. */
  ghost predicate Continues(g: Graph, node: string, state: Json, c: Option<Cursor>) {
    if node == g.end then c == Some(Cursor(None, state))
    else match c
      case None => forall i | 0 <= i < |g.edges| :: !Qualifies(g.edges[i], node, state)
      case Some(Cursor(next, kept)) =>
        && kept == state && next.Some?
        && exists i | 0 <= i < |g.edges| :: Chosen(g, node, state, i) && g.edges[i].to == next.value
  }

  /** A leaf that says End ends the run whatever the edges are; one that jumps goes where it says; another
      goes where the edges lead, and one that does not come to its end has no meaning. */
  lemma LeafMoves(w: Answers, id: InvocationId, g: Graph, state: Json)
    requires id.node in g.nodes && g.nodes[id.node].Leaf?
    ensures match Replay(w, id, g.nodes[id.node].run(state))
      case Some(Done(s, End)) => EvalNode(w, id, g, state) == Some(Cursor(None, s))
      case Some(Done(s, Goto(target))) => EvalNode(w, id, g, state) == Some(Cursor(Some(target), s))
      case Some(Done(s, Next)) => Continues(g, id.node, s, EvalNode(w, id, g, state))
      case _ => EvalNode(w, id, g, state).None?
  {
    hide Replay, Chosen, Qualifies, ResolveNext;
    match Replay(w, id, g.nodes[id.node].run(state))
    case Some(Done(s, Next)) => RouteChoice(g, id.node, s);
    case _ =>
  }

  /** A barrier that is passed leaves the state alone and goes where the edges lead. */
  lemma BarrierMoves(w: Answers, id: InvocationId, g: Graph, state: Json)
    requires IsBarrier(g, id.node)
    ensures Continues(g, id.node, state, EvalNode(w, id, g, state))
  {
    hide Chosen, Qualifies, ResolveNext;
    RouteChoice(g, id.node, state);
  }

  /** The result of a nested run of an invocation. */
  ghost function CallResult(w: Answers, id: InvocationId, call: Call, state: Json): Option<Json> {
    RunResult(w, NestedPath(id, call.name), call.graph, call.project(state), call.maxSteps)
  }

  /** A composite node combines the results of its nested runs, in declaration order, and goes where the
      edges lead; it has no meaning when they do not combine. */
  lemma NestedMoves(w: Answers, id: InvocationId, g: Graph, state: Json, finals: seq<Json>)
    requires IsNested(g, id.node) && |finals| == |g.nodes[id.node].calls|
    requires forall i | 0 <= i < |finals| :: CallResult(w, id, g.nodes[id.node].calls[i], state) == Some(finals[i])
    ensures match g.nodes[id.node].combine(state, finals)
      case None => EvalNode(w, id, g, state).None?
      case Some(s) => Continues(g, id.node, s, EvalNode(w, id, g, state))
  {
    hide ChildStates, CallResult, Chosen, Qualifies, ResolveNext;
    AllCalls(w, id, g, state, finals, |finals|);
    assert finals[..|finals|] == finals;
    var made := g.nodes[id.node].combine(state, finals);
    if made.Some? {
      RouteChoice(g, id.node, made.value);
    }
  }

  lemma {:induction false} AllCalls(w: Answers, id: InvocationId, g: Graph, state: Json, finals: seq<Json>, n: nat)
    requires IsNested(g, id.node) && n <= |finals| == |g.nodes[id.node].calls|
    requires forall i | 0 <= i < n :: CallResult(w, id, g.nodes[id.node].calls[i], state) == Some(finals[i])
    ensures ChildStates(w, id, g, state, n) == Some(finals[..n])
  {
    if n == 0 {
      ChildStatesNil(w, id, g, state);
    } else {
      hide EvalNode, ChildStates, RunResult;
      AllCalls(w, id, g, state, finals, n - 1);
      ChildStatesStep(w, id, g, state, n - 1, finals[..n - 1], finals[n - 1]);
      assert finals[..n] == finals[..n - 1] + [finals[n - 1]];
    }
  }

  /** A run in which a leaf says End is over after it, with the state it left, if it was affordable. */
  lemma EndEndsRun(w: Answers, p: Path, g: Graph, input: Json, k: nat, node: string, state: Json, s: Json,
                   maxSteps: nat)
    requires Traj(w, p, g, input, k) == Some(Cursor(Some(node), state))
    requires node in g.nodes && g.nodes[node].Leaf?
    requires Replay(w, InvocationId(p, node, k + 1), g.nodes[node].run(state)) == Some(Done(s, End))
    ensures Traj(w, p, g, input, k + 1) == Some(Cursor(None, s))
    ensures forall j | j > k + 1 :: Traj(w, p, g, input, j).None?
    ensures RunResult(w, p, g, input, maxSteps) == if k < maxSteps then Some(s) else None
  {
    hide EvalNode, Replay, Final;
    LeafMoves(w, InvocationId(p, node, k + 1), g, state);
    forall j | j > k + 1
      ensures Traj(w, p, g, input, j).None?
    {
      if Traj(w, p, g, input, j).Some? {
        TrajPrefix(w, p, g, input, k + 1, j);
      }
    }
    if k < maxSteps {
      FinalFromTraj(w, p, g, input, 0, k + 1, maxSteps);
    } else if RunResult(w, p, g, input, maxSteps).Some? {
      var end := TrajFromFinal(w, p, g, input, 0, maxSteps);
      TrajPrefix(w, p, g, input, end, k);
    }
  }

  lemma {:induction false} TrajPrefix(w: Answers, p: Path, g: Graph, input: Json, j: nat, k: nat)
    requires j <= k && Traj(w, p, g, input, k).Some?
    ensures Traj(w, p, g, input, j).Some?
    ensures j < k ==> Traj(w, p, g, input, j).value.node.Some?
  {
    if j < k {
      TrajPrefix(w, p, g, input, j, k - 1);
    }
  }

  /** A trajectory that ends within the budget is the result of the run. */
  lemma {:induction false} FinalFromTraj(w: Answers, p: Path, g: Graph, input: Json, j: nat, k: nat, maxSteps: nat)
    requires j <= k <= maxSteps
    requires Traj(w, p, g, input, k).Some? && Traj(w, p, g, input, k).value.node.None?
    ensures Traj(w, p, g, input, j).Some?
    ensures Final(w, p, g, j, Traj(w, p, g, input, j).value, maxSteps - j) == Some(Traj(w, p, g, input, k).value.state)
    decreases k - j
  {
    hide EvalNode, Final, Traj;
    TrajPrefix(w, p, g, input, j, k);
    if j < k {
      FinalFromTraj(w, p, g, input, j + 1, k, maxSteps);
      OneStep(w, p, g, input, j, maxSteps);
    } else {
      FinalAtEnd(w, p, g, j, Traj(w, p, g, input, j).value, maxSteps - j);
    }
  }

  lemma OneStep(w: Answers, p: Path, g: Graph, input: Json, j: nat, maxSteps: nat)
    requires j < maxSteps && Traj(w, p, g, input, j + 1).Some?
    ensures Traj(w, p, g, input, j).Some?
    ensures Final(w, p, g, j, Traj(w, p, g, input, j).value, maxSteps - j)
         == Final(w, p, g, j + 1, Traj(w, p, g, input, j + 1).value, maxSteps - (j + 1))
  {
  }

  lemma FinalAtEnd(w: Answers, p: Path, g: Graph, k: nat, c: Cursor, fuel: nat)
    requires c.node.None?
    ensures Final(w, p, g, k, c, fuel) == Some(c.state)
  {
  }

  /** A run has at most one end. */
  lemma TrajEndUnique(w: Answers, p: Path, g: Graph, input: Json, j: nat, k: nat)
    requires Traj(w, p, g, input, j).Some? && Traj(w, p, g, input, j).value.node.None?
    requires Traj(w, p, g, input, k).Some? && Traj(w, p, g, input, k).value.node.None?
    ensures j == k
  {
    if j < k {
      TrajPrefix(w, p, g, input, j, k);
    } else if k < j {
      TrajPrefix(w, p, g, input, k, j);
    }
  }

  /** And conversely: a run that yields a result has a trajectory ending in it within the budget. */
  lemma {:induction false} TrajFromFinal(w: Answers, p: Path, g: Graph, input: Json, j: nat, fuel: nat) returns (k: nat)
    requires Traj(w, p, g, input, j).Some?
    requires Final(w, p, g, j, Traj(w, p, g, input, j).value, fuel).Some?
    ensures j <= k <= j + fuel
    ensures Traj(w, p, g, input, k) == Some(Cursor(None, Final(w, p, g, j, Traj(w, p, g, input, j).value, fuel).value))
    decreases fuel
  {
    k := j;
    if Traj(w, p, g, input, j).value.node.Some? {
      k := TrajFromFinal(w, p, g, input, j + 1, fuel - 1);
    }
  }

  lemma {:induction false} DistinctIndex(calls: seq<Call>, i: nat)
    requires DistinctCalls(calls) && i < |calls|
    ensures HasCall(calls, calls[i].name) && CallIndex(calls, calls[i].name) == i
  {
  }

  lemma ChildStatesStep(w: Answers, id: InvocationId, g: Graph, state: Json, n: nat, before: seq<Json>, last: Json)
    requires IsNested(g, id.node) && n < |g.nodes[id.node].calls|
    requires ChildStates(w, id, g, state, n) == Some(before)
    requires var call := g.nodes[id.node].calls[n];
             RunResult(w, NestedPath(id, call.name), call.graph, call.project(state), call.maxSteps) == Some(last)
    ensures ChildStates(w, id, g, state, n + 1) == Some(before + [last])
  {
  }

  lemma ChildStatesNil(w: Answers, id: InvocationId, g: Graph, state: Json)
    requires IsNested(g, id.node)
    ensures ChildStates(w, id, g, state, 0) == Some([])
  {
  }

  /** A nested run without a result leaves its caller without one. */
  lemma {:induction false} ChildStatesNone(w: Answers, id: InvocationId, g: Graph, state: Json, i: nat, n: nat)
    requires IsNested(g, id.node) && i < n <= |g.nodes[id.node].calls|
    requires var call := g.nodes[id.node].calls[i];
             RunResult(w, NestedPath(id, call.name), call.graph, call.project(state), call.maxSteps).None?
    ensures ChildStates(w, id, g, state, n).None?
    decreases n
  {
    hide EvalNode;
    if i < n - 1 {
      ChildStatesNone(w, id, g, state, i, n - 1);
    }
  }

  /** A run that reaches a node without a meaning has no result. */
  lemma StuckRun(w: Answers, p: Path, g: Graph, input: Json, k: nat, maxSteps: nat)
    requires Traj(w, p, g, input, k).Some? && Traj(w, p, g, input, k).value.node.Some?
    requires var c := Traj(w, p, g, input, k).value; EvalNode(w, InvocationId(p, c.node.value, k + 1), g, c.state).None?
    ensures RunResult(w, p, g, input, maxSteps).None?
  {
    hide EvalNode;
    if RunResult(w, p, g, input, maxSteps).Some? {
      var end := TrajFromFinal(w, p, g, input, 0, maxSteps);
      if end <= k {
        TrajPrefix(w, p, g, input, end, k);
      } else {
        TrajPrefix(w, p, g, input, k + 1, end);
      }
    }
  }
}
