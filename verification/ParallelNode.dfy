/** Fork, gather in any order of completion, and merge in the order of declaration. */
module ParallelNode {
  import opened Wrappers
  import opened Sequences
  import opened Sorting
  import opened GraphCore
  import Identity

  // ----------------------------------------------------------- composite node kinds

  /** A graph run on a part of the state, which it updates through a lens. */
  function Subgraph(inner: Graph, maxSteps: nat, get: Json -> Json, put: (Json, Json) -> Json): Kind {
    Nested([Call("subgraph", inner, maxSteps, get)],
           (s: Json, finals: seq<Json>) => if |finals| == 1 then Some(put(s, finals[0])) else None)
  }

  /** A graph run on a copy of the state, which then replaces the state. */
  function GraphBranch(inner: Graph, maxSteps: nat): Kind {
    Nested([Call("graph", inner, maxSteps, (s: Json) => s)],
           (s: Json, finals: seq<Json>) => if |finals| == 1 then Some(finals[0]) else None)
  }

  datatype Branch = Branch(name: string, body: Kind)

  /** Every branch is a run of one step of a graph of one node. */
  function BranchGraph(body: Kind, signature: string, hash: nat): Graph {
    Graph("body", "body", map["body" := body], [], signature, hash)
  }

  function BranchCalls(branches: seq<Branch>, signature: string, hash: nat): (calls: seq<Call>)
    ensures |calls| == |branches|
    ensures forall i | 0 <= i < |calls| ::
              calls[i] == Call(Identity.BranchName(i, branches[i].name),
                               BranchGraph(branches[i].body, signature, hash), 1, calls[i].project)
              && forall s :: calls[i].project(s) == s
  {
    seq(|branches|, i requires 0 <= i < |branches| =>
      Call(Identity.BranchName(i, branches[i].name), BranchGraph(branches[i].body, signature, hash), 1, (s: Json) => s))
  }

  function Parallel(branches: seq<Branch>, signature: string, hash: nat, merge: (Json, seq<Json>) -> Option<Json>)
    : Kind
  {
    Nested(BranchCalls(branches, signature, hash), merge)
  }

  /** Branches may share a name: their child frames still have distinct ones. */
  lemma DistinctBranches(branches: seq<Branch>, signature: string, hash: nat)
    ensures DistinctCalls(BranchCalls(branches, signature, hash))
  {
    var calls := BranchCalls(branches, signature, hash);
    forall i, j | 0 <= i < j < |calls|
      ensures calls[i].name != calls[j].name
    {
      Identity.BranchRoundTrip(i, branches[i].name);
      Identity.BranchRoundTrip(j, branches[j].name);
    }
  }

  /** A subgraph node writes back what its graph makes of the projected part. */
  lemma SubgraphMeans(w: Answers, id: InvocationId, g: Graph, inner: Graph, maxSteps: nat, get: Json -> Json,
                      put: (Json, Json) -> Json, state: Json)
    requires id.node in g.nodes && g.nodes[id.node] == Subgraph(inner, maxSteps, get, put)
    ensures EvalNode(w, id, g, state)
         == match RunResult(w, NestedPath(id, "subgraph"), inner, get(state), maxSteps)
            case None => None
            case Some(t) => Route(g, id.node, put(state, t), Next)
  {
    assert ChildStates(w, id, g, state, 0) == Some([]);
  }

  /** A lens reads what it wrote, writes nothing when it writes what is there, and forgets earlier writes. */
  ghost predicate Lawful(get: Json -> Json, put: (Json, Json) -> Json) {
    && (forall s, t :: get(put(s, t)) == t)
    && (forall s :: put(s, get(s)) == s)
    && (forall s, t, u :: put(put(s, t), u) == put(s, u))
  }

  /** Through a lawful lens a subgraph works as if in place: the part is what the graph makes of it, and with
      the old part put back the state is the old state. */
  lemma SubgraphInPlace(w: Answers, id: InvocationId, g: Graph, inner: Graph, maxSteps: nat, get: Json -> Json,
                        put: (Json, Json) -> Json, state: Json)
    requires id.node in g.nodes && g.nodes[id.node] == Subgraph(inner, maxSteps, get, put) && Lawful(get, put)
    requires EvalNode(w, id, g, state).Some?
    ensures var after := EvalNode(w, id, g, state).value.state;
      && Some(get(after)) == RunResult(w, NestedPath(id, "subgraph"), inner, get(state), maxSteps)
      && put(after, get(state)) == state
  {
    SubgraphMeans(w, id, g, inner, maxSteps, get, put, state);
  }

  /** A graph branch replaces the state by what its graph makes of it. */
  lemma GraphBranchMeans(w: Answers, id: InvocationId, g: Graph, inner: Graph, maxSteps: nat, state: Json)
    requires id.node in g.nodes && g.nodes[id.node] == GraphBranch(inner, maxSteps)
    ensures EvalNode(w, id, g, state)
         == match RunResult(w, NestedPath(id, "graph"), inner, state, maxSteps)
            case None => None
            case Some(t) => Route(g, id.node, t, Next)
  {
    assert ChildStates(w, id, g, state, 0) == Some([]);
  }

  /** What a body makes of a state in one step: nothing if it fails, or jumps, which takes a second step. */
  function BodyState(w: Answers, p: Path, g: Graph, state: Json): Option<Json>
    requires "body" in g.nodes
  {
    var id := InvocationId(p, "body", 1);
    match g.nodes["body"]
    case Leaf(run) =>
      (match Replay(w, id, run(state))
       case Some(Done(s, action)) => if action.Goto? then None else Some(s)
       case _ => None)
    case Barrier(_) => Some(state)
    case Nested(calls, combine) =>
      match ChildStates(w, id, g, state, |calls|)
      case None => None
      case Some(finals) => combine(state, finals)
  }

  /** The run of a branch, whatever its body. */
  lemma BranchMeans(w: Answers, p: Path, body: Kind, signature: string, hash: nat, state: Json)
    ensures RunResult(w, p, BranchGraph(body, signature, hash), state, 1)
         == BodyState(w, p, BranchGraph(body, signature, hash), state)
  {
    hide ChildStates;
    var g := BranchGraph(body, signature, hash);
    var c := EvalNode(w, InvocationId(p, "body", 1), g, state);
    if c.Some? {
      assert Final(w, p, g, 1, c.value, 0) == if c.value.node.None? then Some(c.value.state) else None;
    }
    assert RunResult(w, p, g, state, 1) == if c.None? then None else Final(w, p, g, 1, c.value, 0);
  }

  // ------------------------------------------------------------------- the engine

  datatype BranchResult = Finished(state: Json) | Suspended | Stopped | Failed(error: string)

  /** A branch as it completes. */
  datatype Completion = Completion(index: nat, name: string, result: BranchResult)

  datatype Strategy = FailFast | CollectAll

  datatype Outcome =
    | Merged
    | StopsRun
    | SuspendsRun
    | ParallelFailures(errors: seq<(string, string)>)
    | BranchFailed(name: string, error: string)
    | MergeConflict

  /** A finished branch: its index and its state. */
  datatype Indexed = Indexed(index: nat, state: Json)

  /** All branches have completed, each once. */
  ghost predicate Complete(cs: seq<Completion>) {
    && (forall k | 0 <= k < |cs| :: cs[k].index < |cs|)
    && (forall j, k | 0 <= j < k < |cs| :: cs[j].index != cs[k].index)
  }

  /** Name and error of the failed ones, in order of completion. */
  function Errors(cs: seq<Completion>): seq<(string, string)> {
    if cs == [] then []
    else Errors(cs[..|cs| - 1]) + ErrorOf(cs[|cs| - 1])
  }

  function ErrorOf(c: Completion): seq<(string, string)> {
    if c.result.Failed? then [(c.name, c.result.error)] else []
  }

  predicate SomeStopped(cs: seq<Completion>) {
    exists k :: 0 <= k < |cs| && cs[k].result.Stopped?
  }

  predicate SomeSuspended(cs: seq<Completion>) {
    exists k :: 0 <= k < |cs| && cs[k].result.Suspended?
  }

  /** Every branch finished, and `states` are their states by index. */
  ghost predicate InOrder(cs: seq<Completion>, states: seq<Json>) {
    && |states| == |cs|
    && forall k | 0 <= k < |cs| :: cs[k].index < |states| && cs[k].result == Finished(states[cs[k].index])
  }

  /** What the branches may lead to, as a relation of their results, the state before and the state after. */
  ghost predicate Leads(cs: seq<Completion>, strategy: Strategy, merge: (Json, seq<Json>) -> Option<Json>, before: Json,
                              r: Outcome, after: Json)
  {
    if SomeStopped(cs) then r == StopsRun && after == before
    else if Errors(cs) != [] then
      && after == before
      && r == if strategy == CollectAll then ParallelFailures(Errors(cs))
              else BranchFailed(Errors(cs)[0].0, Errors(cs)[0].1)
    else if SomeSuspended(cs) then r == SuspendsRun && after == before
    else exists states :: InOrder(cs, states) && Joins(merge, states, before, r, after)
  }

  predicate Joins(merge: (Json, seq<Json>) -> Option<Json>, states: seq<Json>, before: Json, r: Outcome, after: Json) {
    match merge(before, states)
    case Some(s) => r == Merged && after == s
    case None => r == MergeConflict && after == before
  }

  // ---------------------------------------------------------------------- sorting

  function ByIndex(x: Indexed): int {
    x.index
  }

  /** n ascending numbers below n are 0, 1, ..., n - 1. */
  lemma {:induction false} AscendingIsExact(s: seq<Indexed>, i: nat)
    requires Ascending(ByIndex, s) && i < |s| && forall y | y in s :: y.index < |s|
    ensures s[i].index == i
  {
    AtLeast(s, i);
    AtMost(s, |s| - 1 - i);
  }

  lemma {:induction false} AtLeast(s: seq<Indexed>, i: nat)
    requires Ascending(ByIndex, s) && i < |s|
    ensures s[i].index >= i
  {
    if i > 0 {
      AtLeast(s, i - 1);
    }
  }

  lemma {:induction false} AtMost(s: seq<Indexed>, d: nat)
    requires Ascending(ByIndex, s) && d < |s| && forall y | y in s :: y.index < |s|
    ensures s[|s| - 1 - d].index <= |s| - 1 - d
  {
    if d > 0 {
      AtMost(s, d - 1);
    } else {
      assert s[|s| - 1] in s;
    }
  }

  // ------------------------------------------------------------- what is gathered

  /** Indices and states of the finished ones, in order of completion. */
  function States(cs: seq<Completion>): seq<Indexed> {
    if cs == [] then []
    else
      var c := cs[|cs| - 1];
      States(cs[..|cs| - 1]) + if c.result.Finished? then [Indexed(c.index, c.result.state)] else []
  }

  lemma {:induction false} NoErrors(cs: seq<Completion>)
    ensures Errors(cs) == [] <==> forall k | 0 <= k < |cs| :: !cs[k].result.Failed?
  {
    if cs != [] {
      NoErrors(cs[..|cs| - 1]);
      assert forall k | 0 <= k < |cs| - 1 :: cs[..|cs| - 1][k] == cs[k];
    }
  }

  lemma {:induction false} AllStates(cs: seq<Completion>)
    requires forall k | 0 <= k < |cs| :: cs[k].result.Finished?
    ensures |States(cs)| == |cs|
    ensures forall k | 0 <= k < |cs| :: States(cs)[k] == Indexed(cs[k].index, cs[k].result.state)
  {
    if cs != [] {
      var before := cs[..|cs| - 1];
      assert forall k | 0 <= k < |before| :: before[k] == cs[k];
      AllStates(before);
    }
  }

  function Seconds(s: seq<Indexed>): (r: seq<Json>)
    ensures |r| == |s| && forall i | 0 <= i < |r| :: r[i] == s[i].state
  {
    seq(|s|, i requires 0 <= i < |s| => s[i].state)
  }

  /** Sorting what was gathered gives the states by index. */
  lemma {:induction false} GatheredInOrder(cs: seq<Completion>)
    requires Complete(cs) && forall k | 0 <= k < |cs| :: cs[k].result.Finished?
    ensures InOrder(cs, Seconds(Sort(ByIndex, States(cs))))
  {
    AllStates(cs);
    var s, sorted := States(cs), Sort(ByIndex, States(cs));
    SortFacts(ByIndex, s);
    SameElements(sorted, s);
    forall y | y in sorted
      ensures y.index < |sorted|
    {
      assert y in s;
    }
    forall k | 0 <= k < |cs|
      ensures cs[k].result == Finished(Seconds(sorted)[cs[k].index])
    {
      assert s[k] in sorted;
      var i :| 0 <= i < |sorted| && sorted[i] == s[k];
      AscendingIsExact(sorted, i);
    }
  }

  /** The states by index are determined. */
  lemma InOrderUnique(cs: seq<Completion>, s: seq<Json>, t: seq<Json>)
    requires Complete(cs) && InOrder(cs, s) && InOrder(cs, t)
    ensures s == t
  {
    GatheredInOrder(cs);
    forall i | 0 <= i < |cs|
      ensures s[i] == t[i]
    {
      var k := WhoHas(cs, i);
    }
  }

  lemma WhoHas(cs: seq<Completion>, i: nat) returns (k: nat)
    requires Complete(cs) && i < |cs| && forall j | 0 <= j < |cs| :: cs[j].result.Finished?
    ensures k < |cs| && cs[k].index == i
  {
    AllStates(cs);
    var s, sorted := States(cs), Sort(ByIndex, States(cs));
    SortFacts(ByIndex, s);
    SameElements(sorted, s);
    forall y | y in sorted
      ensures y.index < |sorted|
    {
      assert y in s;
    }
    AscendingIsExact(sorted, i);
    assert sorted[i] in s;
    k :| 0 <= k < |s| && s[k] == sorted[i];
  }

  // ------------------------------------------------------- schedule independence

  lemma {:induction false} ErrorsPermuted(cs: seq<Completion>, ds: seq<Completion>)
    requires multiset(cs) == multiset(ds)
    ensures multiset(Errors(cs)) == multiset(Errors(ds))
  {
    if cs == [] {
      SameElements(cs, ds);
    } else {
      var i := TakeOut(cs, ds);
      ErrorsPermuted(cs[..|cs| - 1], ds[..i] + ds[i + 1..]);
      ErrorsAppend(ds[..i], ds[i + 1..]);
      ErrorsAround(ds, i);
      var a, b, x := Errors(ds[..i]), Errors(ds[i + 1..]), ErrorOf(ds[i]);
      assert multiset(a + x + b) == multiset(a + b) + multiset(x);
      assert multiset(Errors(cs[..|cs| - 1]) + x) == multiset(Errors(cs[..|cs| - 1])) + multiset(x);
    }
  }

  lemma ErrorsAround(ds: seq<Completion>, i: nat)
    requires i < |ds|
    ensures Errors(ds) == Errors(ds[..i]) + ErrorOf(ds[i]) + Errors(ds[i + 1..])
  {
    hide Errors, ErrorOf;
    var a, b := ds[..i], ds[i + 1..];
    TakenApart(ds, i);
    ErrorsAppend(a + [ds[i]], b);
    ErrorsAppend(a, [ds[i]]);
    OneError(ds[i]);
  }

  lemma OneError(c: Completion)
    ensures Errors([c]) == ErrorOf(c)
  {
  }

  lemma {:induction false} ErrorsAppend(a: seq<Completion>, b: seq<Completion>)
    ensures Errors(a + b) == Errors(a) + Errors(b)
  {
    if b == [] {
      assert a + b == a;
    } else {
      FrontOfAppend(a, b);
      ErrorsAppend(a, b[..|b| - 1]);
    }
  }

  /** Two orders of completion of the same results leave the same state and the same kind of outcome; the
      collected errors are the same up to order, and a reported failure is one of the branch errors. */
  lemma ScheduleIndependent(cs: seq<Completion>, ds: seq<Completion>, strategy: Strategy,
                            merge: (Json, seq<Json>) -> Option<Json>, before: Json, r: Outcome, after: Json, q: Outcome,
                            later: Json)
    requires Complete(cs) && Complete(ds) && multiset(cs) == multiset(ds)
    requires Leads(cs, strategy, merge, before, r, after) && Leads(ds, strategy, merge, before, q, later)
    ensures after == later
    ensures r == q || (r.ParallelFailures? && q.ParallelFailures?) || (r.BranchFailed? && q.BranchFailed?)
    ensures r.ParallelFailures? ==> multiset(r.errors) == multiset(q.errors)
    ensures r.BranchFailed? ==> (r.name, r.error) in multiset(Errors(ds))
    ensures r != Merged ==> after == before
  {
    hide Errors, SomeStopped, SomeSuspended, Complete, InOrder, Joins;
    SameResults(cs, ds);
    if !SomeStopped(cs) && Errors(cs) == [] && !SomeSuspended(cs) {
      var s :| InOrder(cs, s) && Joins(merge, s, before, r, after);
      var t :| InOrder(ds, t) && Joins(merge, t, before, q, later);
      InOrderUnique(ds, s, t);
      JoinsOnce(merge, s, before, r, after, q, later);
    }
  }

  lemma JoinsOnce(merge: (Json, seq<Json>) -> Option<Json>, states: seq<Json>, before: Json, r: Outcome, after: Json,
                  q: Outcome, later: Json)
    requires Joins(merge, states, before, r, after) && Joins(merge, states, before, q, later)
    ensures r == q && after == later && (r == Merged || (r == MergeConflict && after == before))
  {
  }

  lemma SameResults(cs: seq<Completion>, ds: seq<Completion>)
    requires multiset(cs) == multiset(ds)
    ensures SomeStopped(cs) == SomeStopped(ds) && SomeSuspended(cs) == SomeSuspended(ds)
    ensures multiset(Errors(cs)) == multiset(Errors(ds)) && (Errors(cs) == [] <==> Errors(ds) == [])
    ensures Errors(cs) != [] ==> Errors(cs)[0] in multiset(Errors(ds))
    ensures forall s :: InOrder(cs, s) ==> InOrder(ds, s)
  {
    hide SomeStopped, SomeSuspended;
    SameElements(cs, ds);
    ErrorsPermuted(cs, ds);
    SameElements(Errors(cs), Errors(ds));
    SameVerdict(cs, ds);
    SameVerdict(ds, cs);
    forall s | InOrder(cs, s)
      ensures InOrder(ds, s)
    {
      StillInOrder(cs, ds, s);
    }
  }

  lemma StillInOrder(cs: seq<Completion>, ds: seq<Completion>, s: seq<Json>)
    requires |cs| == |ds| && forall c | c in ds :: c in cs
    requires InOrder(cs, s)
    ensures InOrder(ds, s)
  {
    forall k | 0 <= k < |ds|
      ensures ds[k].index < |s| && ds[k].result == Finished(s[ds[k].index])
    {
      assert ds[k] in cs;
    }
  }

  lemma SameVerdict(cs: seq<Completion>, ds: seq<Completion>)
    requires forall c | c in cs :: c in ds
    ensures SomeStopped(cs) ==> SomeStopped(ds)
    ensures SomeSuspended(cs) ==> SomeSuspended(ds)
  {
    forall k | 0 <= k < |cs|
      ensures exists j :: 0 <= j < |ds| && ds[j] == cs[k]
    {
      assert cs[k] in ds;
    }
  }

  // ------------------------------------------------------------------- the engine

  datatype Control = Proceed | Jump(target: string) | Finish

  /** What an executing node writes to: the state only at a commit, the buffer and the control before. */
  class Engine<M> {
    var state: Json
    var mutations: seq<M>
    var next: Option<Control>
    var pause: Option<string>

    constructor (s: Json)
      ensures state == s && mutations == [] && next == None && pause == None
    {
      state, mutations, next, pause := s, [], None, None;
    }

    method Record(m: M)
      modifies this`mutations
      ensures mutations == old(mutations) + [m]
    {
      mutations := mutations + [m];
    }

    method Direct(c: Control)
      modifies this`next
      ensures next == Some(c)
    {
      next := Some(c);
    }

    method Pause(barrier: string)
      modifies this`pause
      ensures pause == Some(barrier)
    {
      pause := Some(barrier);
    }

    /** One node: what it does goes into buffer and control; unless it fails, the buffer is committed and the
        control taken. A failed node has changed nothing of the state. */
    method RunNode(apply: (Json, M) -> Json, acts: seq<Act<M>>, fails: bool)
      returns (r: Option<(Control, Option<string>)>)
      requires mutations == [] && next == None && pause == None
      modifies this
      ensures fails ==> r == None && state == old(state)
      ensures !fails ==>
                && r == Some((if LastControl(acts).Some? then LastControl(acts).value else Proceed, LastPause(acts)))
                && state == ApplyAll(apply, old(state), Recordings(acts))
                && mutations == [] && next == None && pause == None
    {
      for i := 0 to |acts|
        invariant state == old(state) && mutations == Recordings(acts[..i])
        invariant next == LastControl(acts[..i]) && pause == LastPause(acts[..i])
      {
        assert acts[..i + 1][..i] == acts[..i];
        match acts[i] {
          case Recorded(m) => Record(m);
          case Directed(c) => Direct(c);
          case Pausing(barrier) => Pause(barrier);
        }
      }
      assert acts[..|acts|] == acts;
      if fails {
        return None;
      }
      Commit(apply);
      var control, signal := TakeControl();
      r := Some((control, signal));
    }

    /** The last direction a node gave, or to proceed; what was given is used up. */
    method TakeControl() returns (control: Control, signal: Option<string>)
      modifies this`next, this`pause
      ensures control == (if old(next).Some? then old(next).value else Proceed) && signal == old(pause)
      ensures next == None && pause == None
    {
      control, signal := if next.Some? then next.value else Proceed, pause;
      next, pause := None, None;
    }

    /** Applies the buffered mutations in their order, once. */
    method Commit(apply: (Json, M) -> Json)
      modifies this`state, this`mutations
      ensures state == ApplyAll(apply, old(state), old(mutations)) && mutations == []
    {
      var batch := mutations;
      mutations := [];
      for i := 0 to |batch|
        invariant state == ApplyAll(apply, old(state), batch[..i]) && mutations == []
      {
        assert batch[..i + 1][..i] == batch[..i];
        state := apply(state, batch[i]);
      }
      assert batch[..|batch|] == batch;
    }

    /** Gathers branches as they complete, and tells which completion, if any, cancelled the ones still
        running, whose results come later in the list. The state is replaced only when all of them finished and their
        states merge. */
    method ExecuteParallel(cs: seq<Completion>, strategy: Strategy, merge: (Json, seq<Json>) -> Option<Json>)
      returns (r: Outcome, cancelledBy: Option<nat>)
      requires Complete(cs)
      modifies this`state
      ensures Leads(cs, strategy, merge, old(state), r, state)
      ensures IsFirstCancel(cs, strategy, cancelledBy)
    {
      var states, errors, suspended, stopped;
      states, errors, suspended, stopped, cancelledBy := Gather(cs, strategy);
      if stopped {
        return StopsRun, cancelledBy;
      }
      if errors != [] {
        r := if strategy == CollectAll then ParallelFailures(errors) else BranchFailed(errors[0].0, errors[0].1);
        return;
      }
      if suspended {
        return SuspendsRun, cancelledBy;
      }
      NoErrors(cs);
      AllFinished(cs);
      GatheredInOrder(cs);
      var merged := merge(state, Seconds(Sort(ByIndex, states)));
      match merged {
        case Some(s) => state := s; return Merged, cancelledBy;
        case None => return MergeConflict, cancelledBy;
      }
    }
  }

  /** Takes the completions as they come, and notes which one cancels the branches still running. */
  method Gather(cs: seq<Completion>, strategy: Strategy)
    returns (states: seq<Indexed>, errors: seq<(string, string)>, suspended: bool, stopped: bool,
             cancelledBy: Option<nat>)
    ensures states == States(cs) && errors == Errors(cs)
    ensures suspended == SomeSuspended(cs) && stopped == SomeStopped(cs)
    ensures IsFirstCancel(cs, strategy, cancelledBy)
  {
    hide States, Errors, SomeStopped, SomeSuspended, IsFirstCancel;
    states, errors, suspended, stopped, cancelledBy := [], [], false, false, None;
    NoneYet(strategy);
    for k := 0 to |cs|
      invariant states == States(cs[..k]) && errors == Errors(cs[..k])
      invariant stopped == SomeStopped(cs[..k]) && suspended == SomeSuspended(cs[..k])
      invariant IsFirstCancel(cs[..k], strategy, cancelledBy)
    {
      assert cs[..k + 1] == cs[..k] + [cs[k]];
      ListsMore(cs[..k], cs[k]);
      FlagsMore(cs[..k], cs[k]);
      CancelMore(cs[..k], cs[k], strategy, cancelledBy);
      match cs[k].result {
        case Finished(s) => states := states + [Indexed(cs[k].index, s)];
        case Suspended => suspended := true;
        case Stopped =>
          stopped := true;
          cancelledBy := if cancelledBy.None? then Some(k) else cancelledBy;
        case Failed(error) =>
          errors := errors + [(cs[k].name, error)];
          if strategy == FailFast && cancelledBy.None? {
            cancelledBy := Some(k);
          }
      }
    }
    assert cs[..|cs|] == cs;
  }

  /** The first completion that cancels the group, if there is one. */
  predicate IsFirstCancel(cs: seq<Completion>, strategy: Strategy, at: Option<nat>) {
    match at
    case None => forall k | 0 <= k < |cs| :: !Cancels(strategy, cs[k])
    case Some(n) => n < |cs| && Cancels(strategy, cs[n]) && forall k | 0 <= k < n :: !Cancels(strategy, cs[k])
  }

  /** What a node does while it executes. */
  datatype Act<M> = Recorded(mutation: M) | Directed(control: Control) | Pausing(barrier: string)

  function Recordings<M>(acts: seq<Act<M>>): seq<M> {
    if acts == [] then []
    else
      var a := acts[|acts| - 1];
      Recordings(acts[..|acts| - 1]) + if a.Recorded? then [a.mutation] else []
  }

  /** The last direction given. */
  function LastControl<M>(acts: seq<Act<M>>): Option<Control> {
    if acts == [] then None
    else if acts[|acts| - 1].Directed? then Some(acts[|acts| - 1].control)
    else LastControl(acts[..|acts| - 1])
  }

  function LastPause<M>(acts: seq<Act<M>>): Option<string> {
    if acts == [] then None
    else if acts[|acts| - 1].Pausing? then Some(acts[|acts| - 1].barrier)
    else LastPause(acts[..|acts| - 1])
  }

  /** A completion that cancels the branches still running. */
  predicate Cancels(strategy: Strategy, c: Completion) {
    c.result.Stopped? || (strategy == FailFast && c.result.Failed?)
  }

  function ApplyAll<M>(apply: (Json, M) -> Json, s: Json, batch: seq<M>): Json {
    if batch == [] then s else apply(ApplyAll(apply, s, batch[..|batch| - 1]), batch[|batch| - 1])
  }

  lemma NoneYet(strategy: Strategy)
    ensures States([]) == [] && Errors([]) == [] && !SomeStopped([]) && !SomeSuspended([])
    ensures IsFirstCancel([], strategy, None)
  {
  }

  lemma ListsMore(cs: seq<Completion>, c: Completion)
    ensures States(cs + [c]) == States(cs) + if c.result.Finished? then [Indexed(c.index, c.result.state)] else []
    ensures Errors(cs + [c]) == Errors(cs) + ErrorOf(c)
  {
    assert (cs + [c])[..|cs + [c]| - 1] == cs;
  }

  lemma FlagsMore(cs: seq<Completion>, c: Completion)
    ensures SomeStopped(cs + [c]) <==> SomeStopped(cs) || c.result.Stopped?
    ensures SomeSuspended(cs + [c]) <==> SomeSuspended(cs) || c.result.Suspended?
  {
    var all := cs + [c];
    assert all[|cs|] == c && forall k | 0 <= k < |cs| :: all[k] == cs[k];
  }

  lemma CancelMore(cs: seq<Completion>, c: Completion, strategy: Strategy, at: Option<nat>)
    requires IsFirstCancel(cs, strategy, at)
    ensures IsFirstCancel(cs + [c], strategy, if at.None? && Cancels(strategy, c) then Some(|cs|) else at)
  {
    hide Cancels;
    var all := cs + [c];
    assert all[|cs|] == c && forall k | 0 <= k < |cs| :: all[k] == cs[k];
  }

  lemma AllFinished(cs: seq<Completion>)
    requires !SomeStopped(cs) && !SomeSuspended(cs) && forall k | 0 <= k < |cs| :: !cs[k].result.Failed?
    ensures forall k | 0 <= k < |cs| :: cs[k].result.Finished?
  {
  }

  // ------------------------------------------------ concurrency against the meaning

  /** Each branch reports what its one-node graph makes of the state it was forked with. */
  ghost predicate Faithful(w: Answers, id: InvocationId, cs: seq<Completion>, branches: seq<Branch>,
                           signature: string, hash: nat, state: Json) {
    |cs| == |branches| && forall k | 0 <= k < |cs| ::
      cs[k].index < |branches| &&
      var b := BranchCalls(branches, signature, hash)[cs[k].index];
      match RunResult(w, NestedPath(id, b.name), b.graph, state, 1)
      case Some(s) => cs[k].result == Finished(s)
      case None => !cs[k].result.Finished?
  }

  /** Whatever the order of completion, gathering and merging computes the meaning of the node, and it
      merges exactly when the node has a meaning there. */
  lemma ParallelMeans(w: Answers, id: InvocationId, g: Graph, branches: seq<Branch>, signature: string, hash: nat,
                      merge: (Json, seq<Json>) -> Option<Json>, strategy: Strategy, state: Json, cs: seq<Completion>,
                      r: Outcome, after: Json)
    requires id.node in g.nodes && g.nodes[id.node] == Parallel(branches, signature, hash, merge)
    requires Complete(cs) && Faithful(w, id, cs, branches, signature, hash, state)
    requires Leads(cs, strategy, merge, state, r, after)
    ensures EvalNode(w, id, g, state) == if r == Merged then Route(g, id.node, after, Next) else None
  {
    hide RunResult, Route, Leads, Sort, States, Seconds, InOrder;
    var calls := g.nodes[id.node].calls;
    if forall k | 0 <= k < |cs| :: cs[k].result.Finished? {
      var states := Seconds(Sort(ByIndex, States(cs)));
      GatheredInOrder(cs);
      FinishedRuns(w, id, cs, branches, signature, hash, state, states);
      AllCalls(w, id, g, state, states, |calls|);
      assert states[..|calls|] == states;
      FinishedLeads(cs, strategy, merge, state, r, after, states);
    } else {
      var k :| 0 <= k < |cs| && !cs[k].result.Finished?;
      ChildStatesNone(w, id, g, state, cs[k].index, |calls|);
      UnfinishedLeads(cs, strategy, merge, state, r, after, k);
    }
  }

  lemma FinishedRuns(w: Answers, id: InvocationId, cs: seq<Completion>, branches: seq<Branch>, signature: string,
                     hash: nat, state: Json, states: seq<Json>)
    requires Complete(cs) && Faithful(w, id, cs, branches, signature, hash, state) && InOrder(cs, states)
    ensures var calls := BranchCalls(branches, signature, hash);
      |calls| == |states| && forall i | 0 <= i < |calls| ::
        RunResult(w, NestedPath(id, calls[i].name), calls[i].graph, calls[i].project(state), calls[i].maxSteps)
        == Some(states[i])
  {
    hide RunResult;
    var calls := BranchCalls(branches, signature, hash);
    forall i | 0 <= i < |calls|
      ensures RunResult(w, NestedPath(id, calls[i].name), calls[i].graph, calls[i].project(state), calls[i].maxSteps)
           == Some(states[i])
    {
      var k := WhoHas(cs, i);
    }
  }

  lemma FinishedLeads(cs: seq<Completion>, strategy: Strategy, merge: (Json, seq<Json>) -> Option<Json>, before: Json,
                      r: Outcome, after: Json, states: seq<Json>)
    requires Complete(cs) && InOrder(cs, states) && Leads(cs, strategy, merge, before, r, after)
    ensures merge(before, states) == if r == Merged then Some(after) else None
  {
    NoErrors(cs);
    forall t | InOrder(cs, t)
      ensures t == states
    {
      InOrderUnique(cs, states, t);
    }
  }

  lemma UnfinishedLeads(cs: seq<Completion>, strategy: Strategy, merge: (Json, seq<Json>) -> Option<Json>, before: Json,
                        r: Outcome, after: Json, k: nat)
    requires Leads(cs, strategy, merge, before, r, after) && k < |cs| && !cs[k].result.Finished?
    ensures r != Merged
  {
  }
}
