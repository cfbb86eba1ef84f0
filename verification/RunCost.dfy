/** What a run costs: the steps its crash-free meaning takes, those of nested runs included. */
module RunCost {
  import opened Wrappers
  import opened GraphCore
  import opened RunModel
  import opened RunInvariant
  import opened RunTheorems
  import opened RunProtocol
  import opened RunSafety

  // ------------------------------------------------------------------ the cost

  /** Steps of the run of frame `p` and of the runs nested in it, from a cursor reached by `k` commits and
      with `fuel` steps left. */
  function Cost(w: Answers, p: Path, g: Graph, k: nat, c: Cursor, fuel: nat): nat
    decreases g, 2, fuel
  {
    match c.node
    case None => 0
    case Some(n) =>
      if fuel == 0 then 0
      else
        var id := InvocationId(p, n, k + 1);
        match EvalNode(w, id, g, c.state)
        case None => 0
        case Some(c') => 1 + NodeCost(w, id, g, c.state) + Cost(w, p, g, k + 1, c', fuel - 1)
  }

  /** Steps of the runs nested in one invocation. */
  function NodeCost(w: Answers, id: InvocationId, g: Graph, state: Json): nat
    decreases g, 1
  {
    if IsNested(g, id.node) then CallsCost(w, id, g, state, |g.nodes[id.node].calls|) else 0
  }

  function CallsCost(w: Answers, id: InvocationId, g: Graph, state: Json, n: nat): nat
    requires IsNested(g, id.node) && n <= |g.nodes[id.node].calls|
    decreases g, 0, n
  {
    if n == 0 then 0
    else
      var call := g.nodes[id.node].calls[n - 1];
      CallsCost(w, id, g, state, n - 1)
      + Cost(w, NestedPath(id, call.name), call.graph, 0, Cursor(Some(call.graph.start), call.project(state)),
             call.maxSteps)
  }

  /** Steps of the whole run of a frame. */
  function CostOfRun(w: Answers, p: Path, g: Graph, input: Json, maxSteps: nat): nat {
    Cost(w, p, g, 0, Cursor(Some(g.start), input), maxSteps)
  }

  // ------------------------------------------------------------- sums over frames

  lemma {:induction false} SumDisjoint(a: map<Path, FrameRecord>, b: map<Path, FrameRecord>)
    requires a.Keys !! b.Keys
    ensures SumSteps(a + b) == SumSteps(a) + SumSteps(b)
    decreases |a|
  {
    hide SumSteps;
    if a == map[] {
      NothingAdded(b);
    } else {
      var p :| p in a;
      SumStepsRemove(a, p);
      SumStepsRemove(a + b, p);
      AddedWithout(a, b, p);
      SumDisjoint(a - {p}, b);
    }
  }

  lemma NothingAdded(b: map<Path, FrameRecord>)
    ensures map[] + b == b && SumSteps(map[]) == 0
  {
  }

  lemma AddedWithout(a: map<Path, FrameRecord>, b: map<Path, FrameRecord>, p: Path)
    requires a.Keys !! b.Keys && p in a
    ensures p in a + b && (a + b)[p] == a[p] && (a + b) - {p} == (a - {p}) + b && (a - {p}).Keys !! b.Keys
  {
    assert (a + b) - {p} == (a - {p}) + b;
  }

  /** The ancestor of `q`, or `q` itself, that is a child of `p`. */
  function Entry(q: Path, p: Path): (c: Path)
    requires Under(q, p) && q != p
    ensures c.Child? && c.parent == p && Under(q, c)
  {
    if q.parent == p then q else Entry(q.parent, p)
  }

  lemma {:induction false} EntryUnique(q: Path, c: Path, p: Path)
    requires c.Child? && c.parent == p && Under(q, c)
    ensures Under(q, p) && q != p && Entry(q, p) == c
  {
    UnderDepth(q, c);
    if q != c {
      EntryUnique(q.parent, c, p);
    }
  }

  lemma {:induction false} EntryRecorded(frames: map<Path, FrameRecord>, q: Path, p: Path)
    requires ParentsOk(frames) && q in frames && Under(q, p) && q != p
    ensures Entry(q, p) in frames
  {
    if q.parent != p {
      assert ParentOk(frames, q, frames[q]);
      EntryRecorded(frames, q.parent, p);
    }
  }

  /** A frame and those nested in it. */
  function Below(frames: map<Path, FrameRecord>, p: Path): map<Path, FrameRecord> {
    map q | q in frames && Under(q, p) :: frames[q]
  }

  /** The frames nested in a frame by later invocations than the k-th. */
  function Later(frames: map<Path, FrameRecord>, p: Path, k: nat): map<Path, FrameRecord> {
    map q | q in frames && Under(q, p) && q != p && Entry(q, p).invocation > k :: frames[q]
  }

  /** The frames of the first n nested runs of an invocation. */
  function Within(frames: map<Path, FrameRecord>, id: InvocationId, calls: seq<Call>, n: nat): map<Path, FrameRecord>
    requires n <= |calls|
  {
    map q | q in frames && exists i | 0 <= i < n :: Under(q, NestedPath(id, calls[i].name)) :: frames[q]
  }

  lemma BelowSplits(frames: map<Path, FrameRecord>, p: Path)
    requires p in frames && ParentsOk(frames)
    ensures SumSteps(Below(frames, p)) == frames[p].stepsUsed + SumSteps(Later(frames, p, 0))
  {
    var below := Below(frames, p);
    SumStepsRemove(below, p);
    forall q | q in below && q != p ensures Entry(q, p).invocation > 0 {
      EntryRecorded(frames, q, p);
      assert ParentOk(frames, Entry(q, p), frames[Entry(q, p)]);
    }
    assert below - {p} == Later(frames, p, 0);
  }

  lemma WithinSplits(frames: map<Path, FrameRecord>, id: InvocationId, calls: seq<Call>, n: nat)
    requires n < |calls| && DistinctCalls(calls)
    ensures SumSteps(Within(frames, id, calls, n + 1))
         == SumSteps(Within(frames, id, calls, n)) + SumSteps(Below(frames, NestedPath(id, calls[n].name)))
  {
    hide SumSteps, Under, DistinctCalls;
    forall q | q in Within(frames, id, calls, n)
      ensures !Under(q, NestedPath(id, calls[n].name))
    {
      NotBelowBoth(q, id, calls, n);
    }
    SumDisjoint(Within(frames, id, calls, n), Below(frames, NestedPath(id, calls[n].name)));
    WithinAdded(frames, id, calls, n);
  }

  lemma NotBelowBoth(q: Path, id: InvocationId, calls: seq<Call>, n: nat)
    requires n < |calls| && DistinctCalls(calls) && exists i | 0 <= i < n :: Under(q, NestedPath(id, calls[i].name))
    ensures !Under(q, NestedPath(id, calls[n].name))
  {
    hide Under;
    var i :| 0 <= i < n && Under(q, NestedPath(id, calls[i].name));
    EntryUnique(q, NestedPath(id, calls[i].name), id.frame);
    if Under(q, NestedPath(id, calls[n].name)) {
      EntryUnique(q, NestedPath(id, calls[n].name), id.frame);
    }
  }

  lemma WithinAdded(frames: map<Path, FrameRecord>, id: InvocationId, calls: seq<Call>, n: nat)
    requires n < |calls|
    ensures Within(frames, id, calls, n + 1)
         == Within(frames, id, calls, n) + Below(frames, NestedPath(id, calls[n].name))
  {
    hide Under;
  }

  lemma {:induction false} AllUnderRoot(q: Path)
    ensures Under(q, Root)
  {
    if q.Child? {
      AllUnderRoot(q.parent);
    }
  }

  // ------------------------------------------------------------ frames and their cost

  /** The frames of a record of a program with proper graphs. */
  ghost predicate Proper(pg: Program, frames: map<Path, FrameRecord>) {
    ProgramOk(pg) && CursorsOk(pg, frames) && ParentsOk(frames)
  }

  /** Every frame has come to its end, and none is missing. */
  ghost predicate Full(pg: Program, frames: map<Path, FrameRecord>) {
    ChildrenOk(pg, frames) && forall p | p in frames :: frames[p].nextNode.None? && !frames[p].active
  }

  function CallsOf(g: Graph, node: string): seq<Call> {
    if IsNested(g, node) then g.nodes[node].calls else []
  }

  /** A frame has used at most the steps that its run takes, and all of them when it has come to its end. */
  lemma Ahead(pg: Program, frames: map<Path, FrameRecord>, p: Path, o: Origin) returns (n: nat)
    requires Proper(pg, frames) && p in frames && OriginOf(pg, p) == Some(o) && Meaning(pg, p).Some?
    ensures frames[p].stepsUsed <= n <= o.maxSteps
    ensures Traj(pg.answers, p, o.graph, o.input, n) == Some(Cursor(None, Meaning(pg, p).value))
    ensures Full(pg, frames) ==> frames[p].stepsUsed == n
  {
    hide EvalNode, Traj, OriginOf, ParentsOk;
    assert FrameOk(pg, p, frames[p]);
    AtStart(pg.answers, p, o.graph, o.input);
    n := TrajFromFinal(pg.answers, p, o.graph, o.input, 0, o.maxSteps);
    var c := Commits(frames[p]);
    if n <= c {
      TrajPrefix(pg.answers, p, o.graph, o.input, n, c);
    } else if frames[p].nextNode.None? {
      TrajPrefix(pg.answers, p, o.graph, o.input, c, n);
    }
  }

  /** After `k` commits the run of the frame stands in front of a node. */
  ghost predicate NodeAt(pg: Program, p: Path, o: Origin, k: nat) {
    && Traj(pg.answers, p, o.graph, o.input, k).Some?
    && Traj(pg.answers, p, o.graph, o.input, k).value.node.Some?
  }

  /** The invocation after `k` commits. */
  ghost function NextId(pg: Program, p: Path, o: Origin, k: nat): InvocationId
    requires NodeAt(pg, p, o, k)
  {
    InvocationId(p, Traj(pg.answers, p, o.graph, o.input, k).value.node.value, k + 1)
  }

  ghost function StateBefore(pg: Program, p: Path, o: Origin, k: nat): Json
    requires NodeAt(pg, p, o, k)
  {
    Traj(pg.answers, p, o.graph, o.input, k).value.state
  }

  /** The run a nested call of that invocation denotes. */
  lemma CalledRun(pg: Program, p: Path, o: Origin, k: nat, i: nat)
    requires ProgramOk(pg) && OriginOf(pg, p) == Some(o) && NodeAt(pg, p, o, k)
    requires i < |CallsOf(o.graph, NextId(pg, p, o, k).node)|
    ensures var id := NextId(pg, p, o, k);
      var call := CallsOf(o.graph, id.node)[i];
      OriginOf(pg, NestedPath(id, call.name))
      == Some(Origin(call.graph, call.project(StateBefore(pg, p, o, k)), call.maxSteps))
  {
    hide EvalNode, Traj, OriginOf;
    var id := NextId(pg, p, o, k);
    OriginWellFormed(pg, p);
    DistinctIndex(o.graph.nodes[id.node].calls, i);
    assert CursorAt(pg, p, k) == Some(Cursor(Some(id.node), StateBefore(pg, p, o, k)));
    ChildOrigin(pg, NestedPath(id, CallsOf(o.graph, id.node)[i].name), StateBefore(pg, p, o, k));
  }

  /** A recorded frame of that invocation is one of its nested calls. */
  lemma CallerOf(pg: Program, p: Path, o: Origin, k: nat, c: Path) returns (i: nat)
    requires OriginOf(pg, p) == Some(o) && NodeAt(pg, p, o, k)
    requires c.Child? && c.parent == p && c.invocation == k + 1 && OriginOf(pg, c).Some?
    ensures var id := NextId(pg, p, o, k);
      i < |CallsOf(o.graph, id.node)| && c == NestedPath(id, CallsOf(o.graph, id.node)[i].name)
  {
    hide EvalNode, Traj, OriginOf;
    var id, state := NextId(pg, p, o, k), StateBefore(pg, p, o, k);
    assert CursorAt(pg, p, k) == Some(Cursor(Some(id.node), state));
    if c.node != id.node {
      OtherNode(pg, c);
    }
    ChildOrigin(pg, c, state);
    i := CallIndex(o.graph.nodes[id.node].calls, c.name);
  }

  /** The frames of later invocations are those of the next one and those of later ones. */
  lemma LaterSplits(pg: Program, frames: map<Path, FrameRecord>, p: Path, o: Origin, k: nat)
    requires Proper(pg, frames) && p in frames && OriginOf(pg, p) == Some(o) && NodeAt(pg, p, o, k)
    ensures var id := NextId(pg, p, o, k);
      var calls := CallsOf(o.graph, id.node);
      && SumSteps(Later(frames, p, k))
         == SumSteps(Within(frames, id, calls, |calls|)) + SumSteps(Later(frames, p, k + 1))
  {
    hide EvalNode, Traj, OriginOf, SumSteps, Under, NodeAt, NextId, CallsOf, Proper;
    var id := NextId(pg, p, o, k);
    var calls := CallsOf(o.graph, id.node);
    var all, first, rest := Later(frames, p, k), Within(frames, id, calls, |calls|), Later(frames, p, k + 1);
    IdOf(pg, p, o, k);
    forall q | q in first
      ensures Under(q, p) && q != p && Entry(q, p).invocation == k + 1
    {
      var i :| 0 <= i < |calls| && Under(q, NestedPath(id, calls[i].name));
      EntryUnique(q, NestedPath(id, calls[i].name), p);
    }
    forall q | q in all && q !in rest
      ensures q in first
    {
      EntryKnown(pg, frames, q, p);
      var i := CallerOf(pg, p, o, k, Entry(q, p));
      assert Under(q, NestedPath(id, calls[i].name));
    }
    SumDisjoint(first, rest);
    assert all == first + rest;
  }

  lemma IdOf(pg: Program, p: Path, o: Origin, k: nat)
    requires NodeAt(pg, p, o, k)
    ensures NextId(pg, p, o, k).frame == p && NextId(pg, p, o, k).invocation == k + 1
  {
  }

  lemma EntryKnown(pg: Program, frames: map<Path, FrameRecord>, q: Path, p: Path)
    requires Proper(pg, frames) && q in frames && Under(q, p) && q != p
    ensures Entry(q, p) in frames && OriginOf(pg, Entry(q, p)).Some?
    ensures p in frames && 1 <= Entry(q, p).invocation <= frames[p].stepsUsed
  {
    hide EvalNode, Traj, OriginOf, CursorAt;
    EntryRecorded(frames, q, p);
    assert FrameOk(pg, Entry(q, p), frames[Entry(q, p)]);
    assert ParentOk(frames, Entry(q, p), frames[Entry(q, p)]);
  }

  /** Between two commits of a run that has a result. */
  ghost predicate StepAt(pg: Program, p: Path, o: Origin, k: nat) {
    k < o.maxSteps && NodeAt(pg, p, o, k) && Traj(pg.answers, p, o.graph, o.input, k + 1).Some?
  }

  lemma CostStep(pg: Program, p: Path, o: Origin, k: nat)
    requires StepAt(pg, p, o, k)
    ensures Cost(pg.answers, p, o.graph, k, Traj(pg.answers, p, o.graph, o.input, k).value, o.maxSteps - k)
         == 1 + NodeCost(pg.answers, NextId(pg, p, o, k), o.graph, StateBefore(pg, p, o, k))
            + Cost(pg.answers, p, o.graph, k + 1, Traj(pg.answers, p, o.graph, o.input, k + 1).value,
                   o.maxSteps - (k + 1))
  {
  }

  /** As much as, or at most as much as. */
  predicate Fits(sum: int, cost: int, full: bool) {
    sum <= cost && (full ==> sum == cost)
  }

  /** The frames nested in a frame by later invocations have used at most what these cost. */
  lemma {:induction false} LaterCost(pg: Program, frames: map<Path, FrameRecord>, p: Path, g: Graph, o: Origin, k: nat)
    requires Proper(pg, frames) && p in frames && OriginOf(pg, p) == Some(o) && g == o.graph
    requires Meaning(pg, p).Some? && k <= frames[p].stepsUsed
    ensures Traj(pg.answers, p, g, o.input, k).Some? && frames[p].stepsUsed <= o.maxSteps
    ensures Fits(SumSteps(Later(frames, p, k)) + (frames[p].stepsUsed - k),
                 Cost(pg.answers, p, g, k, Traj(pg.answers, p, g, o.input, k).value, o.maxSteps - k),
                 Full(pg, frames))
    decreases g, 1, frames[p].stepsUsed - k
  {
    hide EvalNode, Traj, OriginOf, SumSteps, Under, NextId, NodeAt, StateBefore, Proper, Cost, NodeCost, Meaning,
         StepAt;
    var n := Ahead(pg, frames, p, o);
    TrajPrefix(pg.answers, p, o.graph, o.input, k, n);
    if k == frames[p].stepsUsed {
      NothingLater(pg, frames, p, g, o.maxSteps - k);
      if k == n {
        CostOver(pg.answers, p, g, k, Traj(pg.answers, p, g, o.input, k).value, o.maxSteps - k);
      }
    } else {
      NextIsThere(pg, p, o, k, n);
      CostStep(pg, p, o, k);
      LaterSplits(pg, frames, p, o, k);
      InvocationCost(pg, frames, p, g, o, k);
      LaterCost(pg, frames, p, g, o, k + 1);
    }
  }

  lemma NextIsThere(pg: Program, p: Path, o: Origin, k: nat, n: nat)
    requires k < n <= o.maxSteps && Traj(pg.answers, p, o.graph, o.input, n).Some?
    ensures StepAt(pg, p, o, k) && NodeAt(pg, p, o, k)
  {
    TrajPrefix(pg.answers, p, o.graph, o.input, k, n);
    TrajPrefix(pg.answers, p, o.graph, o.input, k + 1, n);
  }

  lemma CostOver(w: Answers, p: Path, g: Graph, k: nat, c: Cursor, fuel: nat)
    requires c.node.None?
    ensures Cost(w, p, g, k, c, fuel) == 0
  {
  }

  lemma NothingLater(pg: Program, frames: map<Path, FrameRecord>, p: Path, g: Graph, fuel: nat)
    requires Proper(pg, frames) && p in frames
    ensures SumSteps(Later(frames, p, frames[p].stepsUsed)) == 0
  {
    hide Proper;
    forall q | q in Later(frames, p, frames[p].stepsUsed) ensures false {
      EntryKnown(pg, frames, q, p);
    }
    assert Later(frames, p, frames[p].stepsUsed) == map[];
  }

  /** The frames of one invocation have used at most what it costs. */
  lemma {:induction false} InvocationCost(pg: Program, frames: map<Path, FrameRecord>, p: Path, g: Graph, o: Origin,
                                          k: nat)
    requires Proper(pg, frames) && p in frames && OriginOf(pg, p) == Some(o) && g == o.graph
    requires k < frames[p].stepsUsed && StepAt(pg, p, o, k)
    ensures var id := NextId(pg, p, o, k);
      var calls := CallsOf(g, id.node);
      Fits(SumSteps(Within(frames, id, calls, |calls|)), NodeCost(pg.answers, id, g, StateBefore(pg, p, o, k)),
           Full(pg, frames))
    decreases g, 0, 1, 0
  {
    hide EvalNode, Traj, OriginOf, Under, NextId, NodeAt, StateBefore, Proper, Full;
    var id := NextId(pg, p, o, k);
    if IsNested(g, id.node) {
      WithinCost(pg, frames, p, g, o, k, |g.nodes[id.node].calls|);
    } else {
      assert Within(frames, id, [], 0) == map[];
    }
  }

  lemma {:induction false} WithinCost(pg: Program, frames: map<Path, FrameRecord>, p: Path, g: Graph, o: Origin,
                                      k: nat, n: nat)
    requires Proper(pg, frames) && p in frames && OriginOf(pg, p) == Some(o) && g == o.graph
    requires k < frames[p].stepsUsed && StepAt(pg, p, o, k)
    requires IsNested(g, NextId(pg, p, o, k).node) && n <= |g.nodes[NextId(pg, p, o, k).node].calls|
    ensures var id := NextId(pg, p, o, k);
      Fits(SumSteps(Within(frames, id, g.nodes[id.node].calls, n)),
           CallsCost(pg.answers, id, g, StateBefore(pg, p, o, k), n), Full(pg, frames))
    decreases g, 0, 0, n
  {
    hide EvalNode, Traj, OriginOf, Under, NextId, NodeAt, StateBefore, Cost, CursorsOk, ParentsOk, Full, DistinctCalls,
         StepAt, SumSteps, WellFormed, Within;
    StepNode(pg, p, o, k);
    var id := NextId(pg, p, o, k);
    var calls := g.nodes[id.node].calls;
    if n == 0 {
      NoneWithin(frames, id, calls);
    } else {
      WithinCost(pg, frames, p, g, o, k, n - 1);
      var call := calls[n - 1];
      var q, inner := NestedPath(id, call.name),
                      Origin(call.graph, call.project(StateBefore(pg, p, o, k)), call.maxSteps);
      NestedRun(pg, p, g, o, k, n - 1);
      WithinSplits(frames, id, calls, n - 1);
      if q in frames {
        BelowCost(pg, frames, q, call.graph, inner);
      } else {
        NestedMissing(pg, frames, p, o, k, q);
      }
    }
  }

  lemma StepNode(pg: Program, p: Path, o: Origin, k: nat)
    requires StepAt(pg, p, o, k)
    ensures NodeAt(pg, p, o, k)
    ensures NextId(pg, p, o, k).frame == p && NextId(pg, p, o, k).invocation == k + 1
  {
  }

  lemma NoneWithin(frames: map<Path, FrameRecord>, id: InvocationId, calls: seq<Call>)
    ensures SumSteps(Within(frames, id, calls, 0)) == 0
  {
    assert Within(frames, id, calls, 0) == map[];
  }

  /** A nested run of a step has a result. */
  lemma NestedRun(pg: Program, p: Path, g: Graph, o: Origin, k: nat, i: nat)
    requires ProgramOk(pg) && OriginOf(pg, p) == Some(o) && g == o.graph && StepAt(pg, p, o, k)
    requires IsNested(g, NextId(pg, p, o, k).node) && i < |g.nodes[NextId(pg, p, o, k).node].calls|
    ensures var id := NextId(pg, p, o, k);
      var call := g.nodes[id.node].calls[i];
      && DistinctCalls(g.nodes[id.node].calls)
      && OriginOf(pg, NestedPath(id, call.name))
         == Some(Origin(call.graph, call.project(StateBefore(pg, p, o, k)), call.maxSteps))
      && Meaning(pg, NestedPath(id, call.name)).Some?
  {
    hide OriginOf, Final, RunResult;
    CalledRun(pg, p, o, k, i);
    OriginWellFormed(pg, p);
    var id := NextId(pg, p, o, k);
    var call := g.nodes[id.node].calls[i];
    var state := StateBefore(pg, p, o, k);
    assert EvalNode(pg.answers, id, g, state).Some?;
    if RunResult(pg.answers, NestedPath(id, call.name), call.graph, call.project(state), call.maxSteps).None? {
      ChildStatesNone(pg.answers, id, g, state, i, |g.nodes[id.node].calls|);
    }
  }

  /** A nested run that is not recorded has used nothing; and it is recorded when no frame is missing. */
  lemma NestedMissing(pg: Program, frames: map<Path, FrameRecord>, p: Path, o: Origin, k: nat, q: Path)
    requires Proper(pg, frames) && p in frames && k < frames[p].stepsUsed && q !in frames
    requires q.Child? && q.parent == p && q.invocation == k + 1 && OriginOf(pg, q).Some?
    ensures SumSteps(Below(frames, q)) == 0 && !Full(pg, frames)
  {
    hide EvalNode, Traj, OriginOf, CursorAt;
    forall c | c in Below(frames, q) ensures false {
      EntryUnique(c, q, p);
      EntryRecorded(frames, c, p);
    }
    assert Below(frames, q) == map[];
    if Full(pg, frames) {
      NoneMissing(pg, frames, p, k, q);
    }
  }

  lemma NoneMissing(pg: Program, frames: map<Path, FrameRecord>, p: Path, k: nat, q: Path)
    requires Full(pg, frames) && p in frames && k < frames[p].stepsUsed
    requires q.Child? && q.parent == p && q.invocation == k + 1 && OriginOf(pg, q).Some?
    ensures q in frames
  {
    assert Due(pg, frames, q);
  }

  /** A frame and those nested in it have used at most the steps its run costs, and all of them in a full
      record. */
  lemma {:induction false} BelowCost(pg: Program, frames: map<Path, FrameRecord>, p: Path, g: Graph, o: Origin)
    requires Proper(pg, frames) && p in frames && OriginOf(pg, p) == Some(o) && g == o.graph
    requires Meaning(pg, p).Some?
    ensures Fits(SumSteps(Below(frames, p)), CostOfRun(pg.answers, p, g, o.input, o.maxSteps), Full(pg, frames))
    decreases g, 2, 0
  {
    hide EvalNode, Traj, OriginOf, Under, Cost, SumSteps, CursorsOk, Full;
    BelowSplits(frames, p);
    LaterCost(pg, frames, p, g, o, 0);
    AtStart(pg.answers, p, g, o.input);
  }

  lemma AtStart(w: Answers, p: Path, g: Graph, input: Json)
    ensures Traj(w, p, g, input, 0) == Some(Cursor(Some(g.start), input))
    ensures RunResult(w, p, g, input, 0) == Final(w, p, g, 0, Cursor(Some(g.start), input), 0)
  {
  }

  /** Steps of the crash-free run of a program, those of all nested runs included. */
  function ProgramCost(pg: Program): nat {
    CostOfRun(pg.answers, Root, pg.graph, pg.input, pg.maxSteps)
  }

  function ProgramResult(pg: Program): Option<Json> {
    RunResult(pg.answers, Root, pg.graph, pg.input, pg.maxSteps)
  }

  /** All frames together have never used more than the crash-free run costs. */
  lemma FramesCost(pg: Program, frames: map<Path, FrameRecord>)
    requires Proper(pg, frames) && Root in frames && ProgramResult(pg).Some?
    ensures Fits(SumSteps(frames), ProgramCost(pg), Full(pg, frames))
  {
    hide EvalNode, Traj, Cost, Under, Proper, Full, SumSteps;
    forall q ensures Under(q, Root) {
      AllUnderRoot(q);
    }
    assert Below(frames, Root) == frames;
    BelowCost(pg, frames, Root, pg.graph, Origin(pg.graph, pg.input, pg.maxSteps));
  }

  // -------------------------------------------------------------------- records

  lemma SavedFrames(pg: Program, m: Machine, i: nat)
    requires ProgramOk(pg) && MachineInv(pg, m) && i < |m.saved|
    ensures RecordInv(pg, m.saved[i]) && Proper(pg, m.saved[i].frames) && Root in m.saved[i].frames
    ensures m.saved[i].stepsUsed == SumSteps(m.saved[i].frames) <= pg.maxSteps
    ensures m.saved[i].status == RunStatus.Completed ==> RootDone(m.saved[i])
  {
    hide CursorsOk, ParentsOk, ChildrenOk, ApprovalsOk, LogOk;
    assert RecordInv(pg, m.saved[i]);
  }

  lemma RecordFull(pg: Program, r: RunRecord)
    requires RecordInv(pg, r) && RootDone(r)
    ensures Full(pg, r.frames)
  {
    hide CursorsOk, ApprovalsOk, FrameOk;
    forall p | p in r.frames
      ensures r.frames[p].nextNode.None? && !r.frames[p].active
    {
      AllFinished(pg, r, p);
    }
  }

  /** If the program has a result, no record of a run of it has ever charged more than the crash-free run
      costs, whatever the crashes and resumptions were; and a Completed one has charged exactly that. */
  lemma StepsAreCost(pg: Program, m: Machine, i: nat)
    requires ProgramOk(pg) && Reachable(pg, m) && i < |m.saved|
    ensures ProgramResult(pg).Some? ==> m.saved[i].stepsUsed <= ProgramCost(pg)
    ensures m.saved[i].status == RunStatus.Completed ==>
              ProgramResult(pg).Some? && m.saved[i].stepsUsed == ProgramCost(pg) <= pg.maxSteps
  {
    hide RecordInv, Cost, Proper, Full, Final;
    ReachableInv(pg, m);
    SavedFrames(pg, m, i);
    var r := m.saved[i];
    if r.status == RunStatus.Completed {
      RootResult(pg, r);
      RecordFull(pg, r);
    }
    if ProgramResult(pg).Some? {
      FramesCost(pg, r.frames);
    }
  }
}
