/** The loop that executes a serial graph and saves after every node, its two entries, and a trace's
    whole life: any number of sessions, each of which may die at any save. */
module CheckpointLoop {
  import opened Wrappers
  import opened GraphCore
  import opened CheckpointStores
  import opened CheckpointRun

  /** What befalls the save after step `n` of a session, and the pruning behind it. */
  datatype Fate = Fate(save: nat -> Fault, prune: nat -> Option<nat>)

  /** The newest blob of the trace is this one. */
  ghost predicate IsLatest(store: FileStore<Checkpoint>, t: string, id: string, cp: Checkpoint)
    reads store
  {
    Latest(store.Blobs(t)) == Some(Blob(id, cp))
  }

  method SaveOne(store: FileStore<Checkpoint>, t: string, blob: Blob<Checkpoint>, fault: Fault)
    returns (ok: bool, ghost saved: bool)
    requires store.Valid() && IsId(blob.id)
    modifies store
    ensures store.Valid() && (ok ==> saved)
    ensures store.Blobs(t) == if saved then old(store.Blobs(t)) + [blob] else old(store.Blobs(t))
  {
    hide FileStore.Valid, Top, IsId;
    ghost var before := store.Log(t);
    BlobsOfMore(before, Saved(Top(before) + 1, blob));
    var r := store.Save(t, blob, fault);
    saved := store.Log(t) != before;
    ok := r.Ok?;
  }

  method PruneOld(store: FileStore<Checkpoint>, t: string, keep: nat, failAt: Option<nat>)
    requires store.Valid() && keep > 0 && store.Blobs(t) != []
    modifies store
    ensures store.Valid()
    ensures Latest(store.Blobs(t)) == Latest(old(store.Blobs(t)))
    ensures failAt.None? ==> store.Blobs(t) == Kept(old(store.Blobs(t)), keep)
  {
    hide FileStore.Valid;
    ghost var before := store.Log(t);
    BlobsOfKept(before, keep, 0);
    var r := store.Prune(t, keep, failAt);
    if r.Err? {
      hide BlobsOf, Kept, Latest;
      ghost var i :| 0 <= i <= |before| && store.Log(t) == before[..i] + Kept(before, keep);
      BlobsOfKept(before, keep, i);
    }
  }

  /** Saves a checkpoint, then applies the retention policy; `saved` tells whether it is in the store. */
  method OnCheckpoint(store: FileStore<Checkpoint>, t: string, retention: Option<nat>, id: string, cp: Checkpoint,
                      fault: Fault, pruneFault: Option<nat>)
    returns (ok: bool, ghost saved: bool)
    requires store.Valid() && IsId(id)
    modifies store
    ensures store.Valid()
    ensures ok ==> saved
    ensures if saved then IsLatest(store, t, id, cp) else store.Blobs(t) == old(store.Blobs(t))
    ensures ok && retention.Some? && pruneFault.None? ==>
              store.Blobs(t) == Kept(old(store.Blobs(t)) + [Blob(id, cp)], retention.value) && retention.value > 0
    ensures ok && retention.None? ==> store.Blobs(t) == old(store.Blobs(t)) + [Blob(id, cp)]
  {
    hide FileStore.Valid, Top;
    ok, saved := SaveOne(store, t, Blob(id, cp), fault);
    if !ok {
      return false, saved;
    }
    if retention.Some? {
      if retention.value == 0 {
        return false, saved;
      }
      PruneOld(store, t, retention.value, pruneFault);
    }
    return true, saved;
  }

  lemma RunUnhandled(g: Graph, node: string, state: Json, used: nat, max: nat)
    requires !Handled(g)
    ensures Run(g, node, state, used, max) == Course([], Err(HandlerMissing(None)))
  {
  }

  /** Runs from `node`. `saved` counts the checkpoints that reached the store: always the first ones the
      uninterrupted run would save, and all of them unless a save was reported as failed. */
  method RunInlineFrom(g: Graph, store: FileStore<Checkpoint>, t: string, retention: Option<nat>, node: string,
                       state: Json, used: nat, max: nat, ids: nat -> string, fate: Fate)
    returns (r: Result<Json, Failure>, ghost saved: nat)
    requires store.Valid() && forall n :: IsId(ids(n))
    modifies store
    ensures store.Valid()
    ensures var c := Run(g, node, state, used, max);
      && saved <= |c.saves|
      && (r != Err(SaveFailed) ==> saved == |c.saves| && r == c.end)
      && (saved == 0 ==> store.Blobs(t) == old(store.Blobs(t)))
      && (saved > 0 ==> IsLatest(store, t, ids(used + saved), c.saves[saved - 1]))
  {
    hide FileStore.Valid, IsId, StepOf, Run, Latest, BlobsOf, Handled;
    ghost var whole := Run(g, node, state, used, max);
    if !Handled(g) {
      RunUnhandled(g, node, state, used, max);
      return Err(HandlerMissing(None)), 0;
    }
    var current, now, step := node, state, used;
    saved := 0;
    while true
      invariant used <= step && saved == step - used <= |whole.saves| && store.Valid()
      invariant Run(g, current, now, step, max) == Course(whole.saves[saved..], whole.end)
      invariant saved == 0 ==> store.Blobs(t) == old(store.Blobs(t))
      invariant saved > 0 ==> IsLatest(store, t, ids(used + saved), whole.saves[saved - 1])
      decreases max - step
    {
      RunStep(g, current, now, step, max);
      if step >= max {
        return Err(StepsExceeded), saved;
      }
      var done := StepOf(g, current, now, step);
      if done.Err? {
        return Err(done.error), saved;
      }
      var cp := done.value;
      assert cp == whole.saves[saved];
      assert whole.saves[saved..][1..] == whole.saves[saved + 1..];
      step := step + 1;
      var ok, visible := OnCheckpoint(store, t, retention, ids(step), cp, fate.save(step), fate.prune(step));
      if visible {
        saved := saved + 1;
      }
      if !ok {
        return Err(SaveFailed), saved;
      }
      now := cp.state;
      if cp.next.None? {
        return Ok(now), saved;
      }
      current := cp.next.value;
    }
  }

  // --------------------------------------------------------------------- entries

  /** The first run of a trace: there must be no checkpoint yet. */
  method InvokeWithCheckpoint(g: Graph, store: FileStore<Checkpoint>, t: string, retention: Option<nat>, input: Json,
                              max: nat, ids: nat -> string, fate: Fate)
    returns (r: Result<Json, Failure>, ghost saved: nat)
    requires store.Valid() && forall n :: IsId(ids(n))
    modifies store
    ensures store.Valid()
    ensures var c := Run(g, g.start, input, 0, max);
      if old(store.Blobs(t)) != [] then r == Err(TraceNotFresh) && saved == 0 && store.Blobs(t) == old(store.Blobs(t))
      else
        && saved <= |c.saves|
        && (r != Err(SaveFailed) ==> saved == |c.saves| && r == c.end)
        && (saved == 0 ==> store.Blobs(t) == old(store.Blobs(t)))
        && (saved > 0 ==> IsLatest(store, t, ids(saved), c.saves[saved - 1]))
  {
    hide FileStore.Valid, Run, IsId;
    saved := 0;
    var latest := store.LoadLatest(t);
    if latest.Err? {
      return Err(LoadFailed), saved;
    }
    if latest.value.Some? {
      return Err(TraceNotFresh), 0;
    }
    r, saved := RunInlineFrom(g, store, t, retention, g.start, input, 0, max, ids, fate);
  }

  /** Two nodes of an agent's graph work on the last response. */
  predicate LacksContext(cp: Checkpoint, answered: Json -> bool) {
    (cp.next == Some("post_llm_check") || cp.next == Some("tool")) && !answered(cp.state)
  }

  /** The restore entry: the graph, the checkpoint, that it is the newest of its trace, and that its next
      node has its context, in that order. */
  method InvokeWithRestore(g: Graph, store: FileStore<Checkpoint>, t: string, retention: Option<nat>,
                           checkpoint: Blob<Checkpoint>, max: nat, answered: Json -> bool, ids: nat -> string,
                           fate: Fate)
    returns (r: Result<Json, Failure>, ghost saved: nat)
    requires store.Valid() && forall n :: IsId(ids(n))
    modifies store
    ensures store.Valid()
    ensures var blobs := old(store.Blobs(t)); var cp := checkpoint.data;
      if exists n | n in g.nodes :: !g.nodes[n].Leaf? then r == Err(RestoreUnsupported) && saved == 0
      else if cp.version != 1 then r == Err(UnsupportedFormat) && saved == 0
      else if cp.hash != g.hash then r == Err(GraphMismatch) && saved == 0
      else if cp.next.Some? && cp.next.value !in g.nodes then r == Err(NodeNotFound(cp.next.value)) && saved == 0
      else if cp.next.Some? && cp.stepsUsed >= max then r == Err(StepsExceeded) && saved == 0
      else if blobs == [] then r == Err(NoCheckpoints) && saved == 0
      else if blobs[|blobs| - 1].id != checkpoint.id then r == Err(NotLatest) && saved == 0
      else if cp.next.Some? && (cp.next.value == "post_llm_check" || cp.next.value == "tool") && !answered(cp.state)
      then r == Err(MissingContext) && saved == 0
      else if cp.next.None? then r == Ok(cp.state) && saved == 0
      else
        var c := Run(g, cp.next.value, cp.state, cp.stepsUsed, max);
        && saved <= |c.saves|
        && (r != Err(SaveFailed) ==> saved == |c.saves| && r == c.end)
        && (saved > 0 ==> IsLatest(store, t, ids(cp.stepsUsed + saved), c.saves[saved - 1]))
    ensures r.Ok? || saved > 0 ==> checkpoint.data.version == 1 && checkpoint.data.hash == g.hash
    ensures forall other: Graph | other.hash != g.hash && SavedBy(other, checkpoint.data) :: r.Err? && saved == 0
    ensures saved == 0 ==> store.Blobs(t) == old(store.Blobs(t))
  {
    hide FileStore.Valid, Run, IsId, BlobsOf, SavedBy;
    forall other: Graph | SavedBy(other, checkpoint.data)
      ensures checkpoint.data.hash == other.hash
    {
      SavedHash(other, checkpoint.data);
    }
    saved := 0;
    var cp := checkpoint.data;
    var bad := ValidateRestore(g, cp, max);
    if bad.Some? {
      return Err(bad.value), saved;
    }
    var latest := store.LoadLatest(t);
    if latest.Err? {
      return Err(LoadFailed), saved;
    }
    if latest.value.None? {
      return Err(NoCheckpoints), saved;
    }
    if latest.value.value.id != checkpoint.id {
      return Err(NotLatest), saved;
    }
    if LacksContext(cp, answered) {
      return Err(MissingContext), saved;
    }
    if cp.next.None? {
      return Ok(cp.state), saved;
    }
    r, saved := RunInlineFrom(g, store, t, retention, cp.next.value, cp.state, cp.stepsUsed, max, ids, fate);
  }

  // ------------------------------------------------------------- a trace's whole life

  /** One session: a first run, or a restore from the k-th checkpoint the caller has loaded so far. */
  datatype Session = Fresh(fate: Fate) | RestoreFrom(k: nat, fate: Fate)

  /** The checkpoints a trace ever had are the first of the uninterrupted run, their ids are distinct and
      among the first `given`, and the newest is in the store. */
  ghost predicate InStep(whole: Course, store: FileStore<Checkpoint>, t: string, ids: nat -> string, given: nat,
                         ever: seq<Blob<Checkpoint>>)
    reads store
  {
    && store.Valid()
    && Prefix(whole, ids, given, ever)
    && (if ever == [] then store.Blobs(t) == [] else Latest(store.Blobs(t)) == Some(ever[|ever| - 1]))
  }

  ghost predicate Prefix(whole: Course, ids: nat -> string, given: nat, ever: seq<Blob<Checkpoint>>) {
    && |ever| <= |whole.saves|
    && (forall k | 0 <= k < |ever| :: ever[k].data == whole.saves[k])
    && (forall j, k | 0 <= j < k < |ever| :: ever[j].id != ever[k].id)
    && (forall k | 0 <= k < |ever| :: Given(ids, given, ever[k].id))
  }

  ghost predicate Given(ids: nat -> string, given: nat, id: string) {
    exists n: nat :: n < given && id == ids(n)
  }

  /** What a session adds. */
  function Added(saves: seq<Checkpoint>, ids: nat -> string, first: nat, saved: nat): (r: seq<Blob<Checkpoint>>)
    requires saved <= |saves|
    ensures |r| == saved && forall j | 0 <= j < saved :: r[j] == Blob(ids(first + j), saves[j])
  {
    seq(saved, j requires 0 <= j < saved => Blob(ids(first + j), saves[j]))
  }

  lemma PrefixGrows(whole: Course, ids: nat -> string, given: nat, ever: seq<Blob<Checkpoint>>, first: nat, saved: nat)
    requires Prefix(whole, ids, given, ever) && given <= first
    requires forall m: nat, n: nat | ids(m) == ids(n) :: m == n
    requires |ever| + saved <= |whole.saves|
    ensures Prefix(whole, ids, first + saved, ever + Added(whole.saves[|ever|..], ids, first, saved))
  {
  }

  /** What one session added, if it saved anything, and its ids are the next ones. */
  lemma SessionAdds(g: Graph, input: Json, max: nat, ids: nat -> string, given: nat, was: seq<Blob<Checkpoint>>,
                    saved: nat)
    requires forall m: nat, n: nat | ids(m) == ids(n) :: m == n
    requires var whole := Run(g, g.start, input, 0, max);
             Prefix(whole, ids, given, was) && |was| + saved <= |whole.saves|
    ensures var whole := Run(g, g.start, input, 0, max);
      Prefix(whole, ids, given + max + 1, was + Added(whole.saves[|was|..], ids, given + |was| + 1, saved))
  {
    hide Run, Prefix;
    var whole := Run(g, g.start, input, 0, max);
    PrefixGrows(whole, ids, given, was, given + |was| + 1, saved);
    if |was| + saved > 0 {
      SuffixOfRun(g, g.start, input, 0, max, |was| + saved - 1);
    }
    PrefixWider(whole, ids, given + |was| + 1 + saved, given + max + 1,
                was + Added(whole.saves[|was|..], ids, given + |was| + 1, saved));
  }

  lemma PrefixWider(whole: Course, ids: nat -> string, given: nat, wider: nat, ever: seq<Blob<Checkpoint>>)
    requires Prefix(whole, ids, given, ever) && given <= wider
    ensures Prefix(whole, ids, wider, ever)
  {
  }

  method FreshSession(g: Graph, store: FileStore<Checkpoint>, t: string, retention: Option<nat>, input: Json, max: nat,
                      ids: nat -> string, given: nat, fate: Fate, ghost was: seq<Blob<Checkpoint>>)
    returns (r: Result<Json, Failure>, ghost ever: seq<Blob<Checkpoint>>)
    requires InStep(Run(g, g.start, input, 0, max), store, t, ids, given, was)
    requires forall n: nat :: IsId(ids(n))
    requires forall m: nat, n: nat | ids(m) == ids(n) :: m == n
    modifies store
    ensures InStep(Run(g, g.start, input, 0, max), store, t, ids, given + max + 1, ever) && was <= ever
    ensures r.Ok? ==> r == Run(g, g.start, input, 0, max).end && |ever| == |Run(g, g.start, input, 0, max).saves|
  {
    hide FileStore.Valid, Run, IsId, BlobsOf, Prefix;
    ghost var whole := Run(g, g.start, input, 0, max);
    ghost var saved;
    r, saved := InvokeWithCheckpoint(g, store, t, retention, input, max, (n: nat) => ids(given + n), fate);
    InPrefix(whole, ids, given, was);
    SessionAdds(g, input, max, ids, given, was, saved);
    assert whole.saves[0..] == whole.saves;
    ever := was + Added(whole.saves[|was|..], ids, given + |was| + 1, saved);
  }

  lemma InPrefix(whole: Course, ids: nat -> string, given: nat, ever: seq<Blob<Checkpoint>>)
    requires Prefix(whole, ids, given, ever)
    ensures |ever| <= |whole.saves|
    ensures forall b | b in ever && b.id == ever[|ever| - 1].id :: b == ever[|ever| - 1]
    ensures ever != [] ==> ever[|ever| - 1].data == whole.saves[|ever| - 1]
  {
  }

  /** The newest checkpoint of a run that has made `k + 1` steps, and the rest of the run from it. */
  lemma RestoredCourse(g: Graph, input: Json, max: nat, k: nat)
    requires k < |Run(g, g.start, input, 0, max).saves|
    ensures var r := Run(g, g.start, input, 0, max); var cp := r.saves[k];
      && cp.stepsUsed == k + 1
      && (r.end.Err? ==> RunError(r.end.error))
      && if cp.next.None? then r.end == Ok(cp.state) && k + 1 == |r.saves|
         else Run(g, cp.next.value, cp.state, cp.stepsUsed, max) == Course(r.saves[k + 1..], r.end)
  {
    hide StepOf, Run;
    SuffixOfRun(g, g.start, input, 0, max, k);
    RunEnds(g, g.start, input, 0, max);
    FromCheckpoint(g, Run(g, g.start, input, 0, max), k, max);
  }

  lemma FromCheckpoint(g: Graph, r: Course, k: nat, max: nat)
    requires k < |r.saves| && r.saves[k].stepsUsed <= max && After(g, r.saves[k], max) == Course(r.saves[k..], r.end)
    ensures var cp := r.saves[k];
      if cp.next.None? then r.end == Ok(cp.state) && k + 1 == |r.saves|
      else Run(g, cp.next.value, cp.state, cp.stepsUsed, max) == Course(r.saves[k + 1..], r.end)
  {
    hide Run;
    var cp := r.saves[k];
    if cp.next.Some? {
      var rest := Run(g, cp.next.value, cp.state, cp.stepsUsed, max);
      assert r.saves[k..] == [cp] + rest.saves && r.saves[k..][1..] == r.saves[k + 1..];
    } else {
      assert |r.saves[k..]| == 1;
    }
  }

  /** A restore from a checkpoint that is not the newest changes nothing; one from the newest is never taken
      for stale and goes on where the uninterrupted run would. */
  method RestoreSession(g: Graph, store: FileStore<Checkpoint>, t: string, retention: Option<nat>, input: Json,
                        max: nat, answered: Json -> bool, ids: nat -> string, given: nat, fate: Fate,
                        from: Blob<Checkpoint>, ghost was: seq<Blob<Checkpoint>>)
    returns (r: Result<Json, Failure>, ghost ever: seq<Blob<Checkpoint>>)
    requires InStep(Run(g, g.start, input, 0, max), store, t, ids, given, was) && from in was
    requires forall n: nat :: IsId(ids(n))
    requires forall m: nat, n: nat | ids(m) == ids(n) :: m == n
    modifies store
    ensures InStep(Run(g, g.start, input, 0, max), store, t, ids, given + max + 1, ever) && was <= ever
    ensures from.id != was[|was| - 1].id ==> r.Err? && ever == was
    ensures from.id == was[|was| - 1].id ==> r != Err(NotLatest) && r != Err(NoCheckpoints)
    ensures r.Ok? ==> r == Run(g, g.start, input, 0, max).end && |ever| == |Run(g, g.start, input, 0, max).saves|
  {
    hide FileStore.Valid, Run, IsId, BlobsOf, Prefix, SavedBy;
    ghost var whole := Run(g, g.start, input, 0, max);
    ghost var saved;
    InPrefix(whole, ids, given, was);
    if from == was[|was| - 1] {
      RestoredCourse(g, input, max, |was| - 1);
    }
    r, saved := InvokeWithRestore(g, store, t, retention, from, max, answered, (n: nat) => ids(given + n), fate);
    SessionAdds(g, input, max, ids, given, was, saved);
    ever := was + Added(whole.saves[|was|..], ids, given + |was| + 1, saved);
  }

  /** One session; a checkpoint the caller does not hold cannot be restored. */
  method OneSession(g: Graph, store: FileStore<Checkpoint>, t: string, retention: Option<nat>, input: Json, max: nat,
                    answered: Json -> bool, ids: nat -> string, given: nat, session: Session,
                    seen: seq<Blob<Checkpoint>>, ghost was: seq<Blob<Checkpoint>>)
    returns (r: Result<Json, Failure>, ghost ever: seq<Blob<Checkpoint>>)
    requires InStep(Run(g, g.start, input, 0, max), store, t, ids, given, was) && forall b | b in seen :: b in was
    requires forall n: nat :: IsId(ids(n))
    requires forall m: nat, n: nat | ids(m) == ids(n) :: m == n
    modifies store
    ensures InStep(Run(g, g.start, input, 0, max), store, t, ids, given + max + 1, ever) && was <= ever
    ensures r.Ok? ==> r == Run(g, g.start, input, 0, max).end && |ever| == |Run(g, g.start, input, 0, max).saves|
  {
    hide FileStore.Valid, Run, IsId, BlobsOf, Prefix;
    match session {
      case Fresh(fate) =>
        r, ever := FreshSession(g, store, t, retention, input, max, ids, given, fate, was);
      case RestoreFrom(k, fate) =>
        if k < |seen| {
          r, ever := RestoreSession(g, store, t, retention, input, max, answered, ids, given, fate, seen[k], was);
        } else {
          PrefixWider(Run(g, g.start, input, 0, max), ids, given, given + max + 1, was);
          r, ever := Err(NoCheckpoints), was;
        }
    }
  }

  /** Any number of sessions, each ending normally, by an error, or by dying at some save: the checkpoints
      the trace ever had carry the steps 1, 2, 3, ... without gap or repetition and are those of the run
      that was never interrupted; the newest of them is always there to restore from; and a session that
      finishes does so with the result of the uninterrupted run, after all its checkpoints. */
  method Live(g: Graph, store: FileStore<Checkpoint>, t: string, retention: Option<nat>, input: Json, max: nat,
              answered: Json -> bool, ids: nat -> string, sessions: seq<Session>)
    returns (results: seq<Result<Json, Failure>>, ghost ever: seq<Blob<Checkpoint>>)
    requires store.Valid() && store.Blobs(t) == []
    requires forall n: nat :: IsId(ids(n))
    requires forall m: nat, n: nat | ids(m) == ids(n) :: m == n
    modifies store
    ensures store.Valid()
    ensures |ever| <= |Run(g, g.start, input, 0, max).saves|
    ensures forall k | 0 <= k < |ever| :: ever[k].data == Run(g, g.start, input, 0, max).saves[k]
    ensures forall k | 0 <= k < |ever| :: ever[k].data.stepsUsed == k + 1 <= max
    ensures Latest(store.Blobs(t)) == Latest(ever)
    ensures |results| == |sessions|
    ensures forall i | 0 <= i < |results| && results[i].Ok? ::
              results[i] == Run(g, g.start, input, 0, max).end && |ever| == |Run(g, g.start, input, 0, max).saves|
  {
    hide FileStore.Valid, Run, IsId, BlobsOf, Prefix;
    ghost var whole := Run(g, g.start, input, 0, max);
    NoPrefix(whole, ids);
    results, ever := [], [];
    var seen: seq<Blob<Checkpoint>> := [];
    var given: nat := 0;
    for i := 0 to |sessions|
      invariant |results| == i && InStep(whole, store, t, ids, given, ever)
      invariant forall b | b in seen :: b in ever
      invariant forall j | 0 <= j < |results| && results[j].Ok? :: results[j] == whole.end && |ever| == |whole.saves|
    {
      var r;
      r, ever := OneSession(g, store, t, retention, input, max, answered, ids, given, sessions[i], seen, ever);
      InPrefix(whole, ids, given + max + 1, ever);
      results, given := results + [r], given + max + 1;
      var latest := store.LoadLatest(t);
      if latest.Ok? && latest.value.Some? {
        seen := seen + [latest.value.value];
      }
    }
    EverySave(g, input, max, ids, given, ever);
  }

  lemma NoPrefix(whole: Course, ids: nat -> string)
    ensures Prefix(whole, ids, 0, [])
  {
  }

  lemma EverySave(g: Graph, input: Json, max: nat, ids: nat -> string, given: nat, ever: seq<Blob<Checkpoint>>)
    requires Prefix(Run(g, g.start, input, 0, max), ids, given, ever)
    ensures var whole := Run(g, g.start, input, 0, max);
      && |ever| <= |whole.saves|
      && forall k | 0 <= k < |ever| :: ever[k].data == whole.saves[k] && ever[k].data.stepsUsed == k + 1 <= max
  {
    hide Run;
    forall k | 0 <= k < |ever|
      ensures ever[k].data.stepsUsed == k + 1 <= max
    {
      SuffixOfRun(g, g.start, input, 0, max, k);
    }
  }
}
