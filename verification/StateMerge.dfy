/** The merge of the untyped state: per-key deltas against the parent, conflicts on shared keys. */
module StateMerge {
  import opened Wrappers
  import opened Sequences
  import GraphCore

  type Json = GraphCore.Json
  type State = map<string, Json>

  datatype Mutation = Put(key: string, value: Json) | Delete(key: string)

  /** A key that more than one branch changed. */
  datatype Conflict = Conflict(key: string, writers: nat)

  function At(s: State, k: string): Option<Json> {
    if k in s then Some(s[k]) else None
  }

  // ------------------------------------------------------------ what a merge is

  /** Keys on which a branch differs from the state it was forked from. */
  function Changed(base: State, branch: State): set<string> {
    set k | k in base.Keys + branch.Keys && At(base, k) != At(branch, k)
  }

  /** No key is changed by two branches. */
  ghost predicate Compatible(base: State, branches: seq<State>) {
    forall i, j | 0 <= i < j < |branches| :: Changed(base, branches[i]) !! Changed(base, branches[j])
  }

  /** Every change of every branch is in `merged`, and nothing else differs from the base. */
  ghost predicate MergesTo(base: State, branches: seq<State>, merged: State) {
    forall k :: MergedAt(base, branches, merged, k)
  }

  ghost predicate MergedAt(base: State, branches: seq<State>, merged: State,
                                  k: string) {
    && (forall x | x in branches && k in Changed(base, x) :: At(merged, k) == At(x, k))
    && (At(merged, k) == At(base, k) || SomeoneChanged(base, branches, k))
  }

  ghost predicate SomeoneChanged(base: State, branches: seq<State>, k: string) {
    exists x :: x in branches && k in Changed(base, x)
  }

  lemma SameAt(a: State, b: State)
    requires forall k :: At(a, k) == At(b, k)
    ensures a == b
  {
    forall k
      ensures k in a <==> k in b
      ensures k in a ==> a[k] == b[k]
    {
      assert At(a, k) == At(b, k);
    }
  }

  /** A list of branches has at most one merge. */
  lemma MergeUnique(base: State, branches: seq<State>, m: State, n: State)
    requires MergesTo(base, branches, m) && MergesTo(base, branches, n)
    ensures m == n
  {
    forall k
      ensures At(m, k) == At(n, k)
    {
      assert MergedAt(base, branches, m, k) && MergedAt(base, branches, n, k);
    }
    SameAt(m, n);
  }

  /** A merge changes exactly what its branches change. */
  lemma ChangedByMerge(base: State, branches: seq<State>, m: State)
    requires MergesTo(base, branches, m)
    ensures forall k :: k in Changed(base, m) <==> SomeoneChanged(base, branches, k)
  {
    forall k
      ensures k in Changed(base, m) <==> SomeoneChanged(base, branches, k)
    {
      assert MergedAt(base, branches, m, k);
    }
  }

  /** Neither the verdict nor the merged state depends on the order of the branches. */
  lemma OrderIrrelevant(base: State, branches: seq<State>, other: seq<State>, m: State)
    requires multiset(branches) == multiset(other)
    ensures Compatible(base, branches) <==> Compatible(base, other)
    ensures MergesTo(base, branches, m) <==> MergesTo(base, other, m)
  {
    CompatibleWriters(base, branches);
    CompatibleWriters(base, other);
    forall k
      ensures Writers(base, branches, k) == Writers(base, other, k)
    {
      WritersPermuted(base, branches, other, k);
    }
    SameElements(branches, other);
    forall k
      ensures MergedAt(base, branches, m, k) <==> MergedAt(base, other, m, k)
    {
    }
  }

  // -------------------------------------------------------------- counting writers

  /** How many branches changed `k`. */
  function Writers(base: State, branches: seq<State>, k: string): nat {
    if branches == [] then 0
    else
      Writers(base, branches[..|branches| - 1], k) +
      if k in Changed(base, branches[|branches| - 1]) then 1 else 0
  }

  ghost predicate OneWriterEach(base: State, branches: seq<State>) {
    forall k :: Writers(base, branches, k) <= 1
  }

  lemma {:induction false} SomeWriter(base: State, branches: seq<State>, k: string)
    ensures Writers(base, branches, k) > 0 <==> SomeoneChanged(base, branches, k)
  {
    if branches != [] {
      SomeWriter(base, branches[..|branches| - 1], k);
      assert branches == branches[..|branches| - 1] + [branches[|branches| - 1]];
    }
  }

  /** There is no conflict exactly when no key has two writers. */
  lemma {:induction false} CompatibleWriters(base: State, branches: seq<State>)
    ensures Compatible(base, branches) <==> OneWriterEach(base, branches)
  {
    if branches != [] {
      var before, last := branches[..|branches| - 1], branches[|branches| - 1];
      assert branches == before + [last];
      CompatibleWriters(base, before);
      CompatibleMore(base, before, last);
      forall k
        ensures Writers(base, branches, k) == Writers(base, before, k) + if k in Changed(base, last) then 1 else 0
        ensures Writers(base, before, k) > 0 <==> SomeoneChanged(base, before, k)
      {
        SomeWriter(base, before, k);
      }
      forall x, k | x in before && k in Changed(base, x)
        ensures Writers(base, before, k) > 0
      {
        SomeWriter(base, before, k);
      }
    }
  }

  lemma CompatibleMore(base: State, before: seq<State>, last: State)
    ensures Compatible(base, before + [last])
       <==> Compatible(base, before) && forall x, k | x in before && k in Changed(base, x) :: k !in Changed(base, last)
  {
    hide Changed;
    var all := before + [last];
    assert forall i | 0 <= i < |before| :: all[i] == before[i];
    assert all[|before|] == last;
    if Compatible(base, all) {
      forall x, k | x in before && k in Changed(base, x)
        ensures k !in Changed(base, last)
      {
        var i :| 0 <= i < |before| && before[i] == x;
        assert Changed(base, all[i]) !! Changed(base, all[|before|]);
      }
    }
  }

  lemma {:induction false} WritersPermuted(base: State, branches: seq<State>, other: seq<State>, k: string)
    requires multiset(branches) == multiset(other)
    ensures Writers(base, branches, k) == Writers(base, other, k)
  {
    if branches == [] {
      SameElements(branches, other);
    } else {
      var i := TakeOut(branches, other);
      WritersPermuted(base, branches[..|branches| - 1], other[..i] + other[i + 1..], k);
      WritersInsert(base, other[..i], other[i], other[i + 1..], k);
      assert other == other[..i] + [other[i]] + other[i + 1..];
    }
  }

  lemma WritersInsert(base: State, a: seq<State>, x: State, b: seq<State>, k: string)
    ensures Writers(base, a + [x] + b, k) == Writers(base, a + b, k) + if k in Changed(base, x) then 1 else 0
  {
    OneWriter(base, x, k);
    hide Writers, Changed;
    WritersAppend(base, a + [x], b, k);
    WritersAppend(base, a, [x], k);
    WritersAppend(base, a, b, k);
  }

  lemma OneWriter(base: State, x: State, k: string)
    ensures Writers(base, [x], k) == if k in Changed(base, x) then 1 else 0
  {
    assert [x][..0] == [];
  }

  // -------------------------------------------------------------- hierarchical merging

  /** Merging a group of neighbours first and its result with the rest: same verdict, same state. */
  lemma HierarchicalIsFlat(base: State, a: seq<State>, group: seq<State>, b: seq<State>, g: State, m: State)
    requires Compatible(base, group) && MergesTo(base, group, g)
    ensures Compatible(base, a + group + b) <==> Compatible(base, a + [g] + b)
    ensures MergesTo(base, a + group + b, m) <==> MergesTo(base, a + [g] + b, m)
  {
    ChangedByMerge(base, group, g);
    forall k
      ensures Writers(base, a + group + b, k) == Writers(base, a + [g] + b, k)
    {
      WritersGroup(base, a, group, b, k);
      WritersGroup(base, a, [g], b, k);
      CompatibleWriters(base, group);
      SomeWriter(base, group, k);
      SomeWriter(base, [g], k);
    }
    CompatibleWriters(base, a + group + b);
    CompatibleWriters(base, a + [g] + b);
    forall k
      ensures MergedAt(base, a + group + b, m, k) <==> MergedAt(base, a + [g] + b, m, k)
    {
      GroupedAt(base, a, group, b, g, m, k);
    }
  }

  /** A conflict inside a group is a conflict of the whole. */
  lemma GroupConflict(base: State, a: seq<State>, group: seq<State>,
                             b: seq<State>)
    requires !Compatible(base, group)
    ensures !Compatible(base, a + group + b)
  {
    CompatibleWriters(base, group);
    CompatibleWriters(base, a + group + b);
    var k :| Writers(base, group, k) > 1;
    WritersGroup(base, a, group, b, k);
  }

  lemma {:induction false} WritersGroup(base: State, a: seq<State>, group: seq<State>,
                                               b: seq<State>, k: string)
    ensures Writers(base, a + group + b, k)
         == Writers(base, a, k) + Writers(base, group, k) + Writers(base, b, k)
  {
    if group == [] {
      assert a + group + b == a + b;
      WritersAppend(base, a, b, k);
    } else {
      var n := |group| - 1;
      WritersGroup(base, a, group[..n], b, k);
      assert a + group + b == (a + group[..n]) + [group[n]] + b;
      WritersInsert(base, a + group[..n], group[n], b, k);
    }
  }

  lemma {:induction false} WritersAppend(base: State, a: seq<State>, b: seq<State>,
                                                k: string)
    ensures Writers(base, a + b, k) == Writers(base, a, k) + Writers(base, b, k)
  {
    if b == [] {
      assert a + b == a;
    } else {
      WritersAppend(base, a, b[..|b| - 1], k);
      FrontOfAppend(a, b);
    }
  }

  lemma GroupedAt(base: State, a: seq<State>, group: seq<State>,
                         b: seq<State>, g: State, m: State, k: string)
    requires MergesTo(base, group, g)
    ensures MergedAt(base, a + group + b, m, k) <==> MergedAt(base, a + [g] + b, m, k)
  {
    ChangedByMerge(base, group, g);
    assert MergedAt(base, group, g, k);
    assert forall x :: x in a + group + b <==> x in a || x in group || x in b;
    assert forall x :: x in a + [g] + b <==> x in a || x == g || x in b;
    assert k !in Changed(base, g) ==> At(g, k) == At(base, k);
    hide Changed, At;
  }

  // ------------------------------------------------------------------- mutations

  function Apply(s: State, m: Mutation): State {
    match m
    case Put(k, v) => s[k := v]
    case Delete(k) => s - {k}
  }

  function ApplyBatch(s: State, batch: seq<Mutation>): State {
    if batch == [] then s else Apply(ApplyBatch(s, batch[..|batch| - 1]), batch[|batch| - 1])
  }

  function Touched(batch: seq<Mutation>): set<string> {
    set i | 0 <= i < |batch| :: batch[i].key
  }

  /** What the branches leave when each applies its own batch to the base. */
  function Forked(base: State, batches: seq<seq<Mutation>>): (r: seq<State>)
    ensures |r| == |batches| && forall i | 0 <= i < |r| :: r[i] == ApplyBatch(base, batches[i])
  {
    seq(|batches|, i requires 0 <= i < |batches| => ApplyBatch(base, batches[i]))
  }

  /** The batch leaves the key as it is in the base, whatever it does to it. */
  predicate Unmoved(base: State, batch: seq<Mutation>, k: string) {
    At(ApplyBatch(base, batch), k) == At(base, k)
  }

  /** A key both batches touch is left by both as it was. */
  ghost predicate Apart(base: State, x: seq<Mutation>, y: seq<Mutation>) {
    forall k | k in Touched(x) && k in Touched(y) :: Unmoved(base, x, k) && Unmoved(base, y, k)
  }

  ghost predicate AllApart(base: State, batches: seq<seq<Mutation>>) {
    forall i, j | 0 <= i < j < |batches| :: Apart(base, batches[i], batches[j])
  }

  /** The forked states merge, and to the state that applying the batches one after another reaches,
      in whatever order. */
  ghost predicate Serializable(base: State, batches: seq<seq<Mutation>>) {
    && Compatible(base, Forked(base, batches))
    && forall other | multiset(other) == multiset(batches) ::
         MergesTo(base, Forked(base, batches), ApplyBatch(base, Flatten(other)))
  }

  /** The last mutation of a key decides it; an untouched key keeps its value. */
  function Effect(batch: seq<Mutation>, k: string): Option<Mutation> {
    if batch == [] then None
    else if batch[|batch| - 1].key == k then Some(batch[|batch| - 1])
    else Effect(batch[..|batch| - 1], k)
  }

  function Outcome(m: Mutation): Option<Json> {
    match m
    case Put(_, v) => Some(v)
    case Delete(_) => None
  }

  lemma {:induction false} BatchAt(s: State, batch: seq<Mutation>, k: string)
    ensures At(ApplyBatch(s, batch), k) == match Effect(batch, k) case None => At(s, k) case Some(m) => Outcome(m)
    ensures Effect(batch, k).Some? <==> k in Touched(batch)
  {
    if batch != [] {
      var before := batch[..|batch| - 1];
      assert batch == before + [batch[|batch| - 1]];
      BatchAt(s, before, k);
      assert k in Touched(batch) <==> k in Touched(before) || k == batch[|batch| - 1].key by {
        assert forall i | 0 <= i < |before| :: batch[i] == before[i];
      }
    }
  }

  lemma {:induction false} EffectAppend(a: seq<Mutation>, b: seq<Mutation>, k: string)
    ensures Effect(a + b, k) == if Effect(b, k).Some? then Effect(b, k) else Effect(a, k)
  {
    if b == [] {
      assert a + b == a;
    } else {
      FrontOfAppend(a, b);
      EffectAppend(a, b[..|b| - 1], k);
    }
  }

  /** In a sequence of batches the last one that touches a key decides it. */
  lemma {:induction false} LastToucher(batches: seq<seq<Mutation>>, k: string) returns (l: nat)
    ensures Effect(Flatten(batches), k).None? ==> forall i | 0 <= i < |batches| :: Effect(batches[i], k).None?
    ensures Effect(Flatten(batches), k).Some? ==> l < |batches| && Effect(batches[l], k) == Effect(Flatten(batches), k)
  {
    l := 0;
    if batches != [] {
      var before, last := batches[..|batches| - 1], batches[|batches| - 1];
      l := LastToucher(before, k);
      EffectAppend(Flatten(before), last, k);
      if Effect(last, k).Some? {
        l := |before|;
      }
      assert forall i | 0 <= i < |before| :: before[i] == batches[i];
    }
  }

  lemma {:induction false} ApartPermuted(base: State, batches: seq<seq<Mutation>>, other: seq<seq<Mutation>>)
    requires multiset(batches) == multiset(other) && AllApart(base, batches)
    ensures AllApart(base, other)
  {
    SameElements(batches, other);
    if batches != [] {
      var n := |batches| - 1;
      var i := TakeOut(batches, other);
      var before, rest := batches[..n], other[..i] + other[i + 1..];
      ApartPermuted(base, before, rest);
      SameElements(before, rest);
      assert forall x | x in before :: Apart(base, x, batches[n]);
      ApartInserted(base, other, i);
    }
  }

  lemma ApartInserted(base: State, batches: seq<seq<Mutation>>, i: nat)
    requires i < |batches| && AllApart(base, batches[..i] + batches[i + 1..])
    requires forall x | x in batches[..i] + batches[i + 1..] :: Apart(base, x, batches[i])
    ensures AllApart(base, batches)
  {
    hide Apart;
    var rest := batches[..i] + batches[i + 1..];
    forall j, k | 0 <= j < k < |batches|
      ensures Apart(base, batches[j], batches[k])
    {
      assert j < i ==> rest[j] == batches[j];
      assert j > i ==> rest[j - 1] == batches[j];
      assert k < i ==> rest[k] == batches[k];
      assert k > i ==> rest[k - 1] == batches[k];
      assert k == i ==> rest[j] in rest;
      if j == i {
        assert rest[k - 1] in rest;
        ApartSymmetric(base, batches[k], batches[i]);
      }
    }
  }

  lemma ApartSymmetric(base: State, x: seq<Mutation>, y: seq<Mutation>)
    requires Apart(base, x, y)
    ensures Apart(base, y, x)
  {
  }

  lemma ChangedAt(base: State, x: State, k: string)
    ensures k in Changed(base, x) <==> At(x, k) != At(base, k)
  {
  }

  lemma SharedIsUnmoved(base: State, batches: seq<seq<Mutation>>, i: nat, j: nat, k: string)
    requires AllApart(base, batches) && i < |batches| && j < |batches| && i != j
    requires k in Touched(batches[i]) && k in Touched(batches[j])
    ensures Unmoved(base, batches[i], k)
  {
    if i < j {
      assert Apart(base, batches[i], batches[j]);
    } else {
      assert Apart(base, batches[j], batches[i]);
    }
  }

  /** Exactly when no two batches disturb each other is the merge every serial execution. */
  lemma SerializableExactly(base: State, batches: seq<seq<Mutation>>)
    ensures Serializable(base, batches) <==> AllApart(base, batches)
  {
    if AllApart(base, batches) {
      ApartCompatible(base, batches);
      forall other, k | multiset(other) == multiset(batches)
        ensures MergedAt(base, Forked(base, batches), ApplyBatch(base, Flatten(other)), k)
      {
        ApartPermuted(base, batches, other);
        SameElements(batches, other);
        SerialAt(base, batches, other, k);
      }
    }
    forall i, j, k | 0 <= i < j < |batches| && k in Touched(batches[i]) && k in Touched(batches[j])
                     && Serializable(base, batches)
      ensures Unmoved(base, batches[i], k) && Unmoved(base, batches[j], k)
    {
      SharedKeyUnmoved(base, batches, i, j, k);
    }
  }

  lemma ApartCompatible(base: State, batches: seq<seq<Mutation>>)
    requires AllApart(base, batches)
    ensures Compatible(base, Forked(base, batches))
  {
    var branches := Forked(base, batches);
    forall i, j, k | 0 <= i < j < |branches| && k in Changed(base, branches[i])
      ensures k !in Changed(base, branches[j])
    {
      BatchAt(base, batches[i], k);
      BatchAt(base, batches[j], k);
      assert Apart(base, batches[i], batches[j]);
    }
  }

  lemma SerialAt(base: State, batches: seq<seq<Mutation>>, other: seq<seq<Mutation>>, k: string)
    requires AllApart(base, other) && forall x :: x in batches <==> x in other
    ensures MergedAt(base, Forked(base, batches), ApplyBatch(base, Flatten(other)), k)
  {
    var branches, serial := Forked(base, batches), ApplyBatch(base, Flatten(other));
    var l := LastToucher(other, k);
    BatchAt(base, Flatten(other), k);
    forall x | x in branches && k in Changed(base, x)
      ensures At(serial, k) == At(x, k)
    {
      var i :| 0 <= i < |branches| && branches[i] == x;
      assert batches[i] in other;
      var j :| 0 <= j < |other| && other[j] == batches[i];
      BatchAt(base, other[j], k);
      BatchAt(base, other[l], k);
      ChangedAt(base, x, k);
      if j != l {
        SharedIsUnmoved(base, other, j, l, k);
      }
    }
    if At(serial, k) != At(base, k) {
      assert other[l] in batches;
      var i :| 0 <= i < |batches| && batches[i] == other[l];
      BatchAt(base, batches[i], k);
      assert branches[i] in branches && k in Changed(base, branches[i]);
    }
  }

  /** A key two batches touch: letting each of them go last shows what both make of it. */
  lemma SharedKeyUnmoved(base: State, batches: seq<seq<Mutation>>, i: nat, j: nat, k: string)
    requires Serializable(base, batches) && i < j < |batches|
    requires k in Touched(batches[i]) && k in Touched(batches[j])
    ensures Unmoved(base, batches[i], k) && Unmoved(base, batches[j], k)
  {
    var branches := Forked(base, batches);
    var x := LastGoes(base, batches, i, k);
    var y := LastGoes(base, batches, j, k);
    MergeUnique(base, branches, x, y);
    assert Changed(base, branches[i]) !! Changed(base, branches[j]);
    ChangedAt(base, branches[i], k);
    ChangedAt(base, branches[j], k);
  }

  lemma LastGoes(base: State, batches: seq<seq<Mutation>>, i: nat, k: string) returns (serial: State)
    requires Serializable(base, batches) && i < |batches| && k in Touched(batches[i])
    ensures MergesTo(base, Forked(base, batches), serial) && At(serial, k) == At(ApplyBatch(base, batches[i]), k)
  {
    hide Compatible, MergesTo, Changed, Apply, ApplyBatch, Effect, Touched;
    var rest := batches[..i] + batches[i + 1..];
    MovedLast(batches, i);
    serial := ApplyBatch(base, Flatten(rest + [batches[i]]));
    FlattenMore(rest, batches[i]);
    EffectAppend(Flatten(rest), batches[i], k);
    BatchAt(base, Flatten(rest) + batches[i], k);
    BatchAt(base, batches[i], k);
  }

  /** The usual case: batches that touch no key in common. */
  lemma DisjointSerializable(base: State, batches: seq<seq<Mutation>>)
    requires forall i, j | 0 <= i < j < |batches| :: Touched(batches[i]) !! Touched(batches[j])
    ensures Serializable(base, batches)
  {
    SerializableExactly(base, batches);
  }

  /** A merge without conflict that no order of its batches reaches: each rewrites, unchanged, the key the
      other deletes. */
  lemma NoOrderReaches() returns (base: State, p: seq<Mutation>, q: seq<Mutation>)
    ensures Compatible(base, Forked(base, [p, q]))
    ensures !MergesTo(base, Forked(base, [p, q]), ApplyBatch(base, Flatten([p, q])))
    ensures !MergesTo(base, Forked(base, [p, q]), ApplyBatch(base, Flatten([q, p])))
  {
    base := map["a" := GraphCore.Null, "b" := GraphCore.Null];
    p, q := [Delete("a"), Put("b", GraphCore.Null)], [Put("a", GraphCore.Null), Delete("b")];
    var branches := Forked(base, [p, q]);
    assert p[0].key == q[0].key == "a" && p[1].key == q[1].key == "b";
    Effects(base, p, q, "a");
    Effects(base, q, p, "b");
    Effects(base, p, q, "b");
    Effects(base, q, p, "a");
    assert p[..1] == [Delete("a")] && q[..1] == [Put("a", GraphCore.Null)];
    assert branches[0] in branches && branches[1] in branches;
    forall k | k in Changed(base, branches[0]) && k in Changed(base, branches[1])
      ensures false
    {
      BatchAt(base, p, k);
      BatchAt(base, q, k);
    }
    assert !MergedAt(base, branches, ApplyBatch(base, Flatten([p, q])), "a");
    assert !MergedAt(base, branches, ApplyBatch(base, Flatten([q, p])), "b");
  }

  /** Of two batches in a row the second decides the keys it touches. */
  lemma Effects(base: State, p: seq<Mutation>, q: seq<Mutation>, k: string)
    requires k in Touched(q)
    ensures Effect(q, k).Some?
    ensures At(ApplyBatch(base, Flatten([p, q])), k) == At(ApplyBatch(base, q), k) == Outcome(Effect(q, k).value)
  {
    FlattenMore([], p);
    FlattenMore([p], q);
    assert [] + [p] == [p] && [p] + [q] == [p, q];
    assert Flatten([p, q]) == p + q;
    EffectAppend(p, q, k);
    BatchAt(base, p + q, k);
    BatchAt(base, q, k);
  }

  // ------------------------------------------------------------------- the method

  /** What was gathered about one key: its value in a branch that changed it (None: deleted), and the
      number of such branches. */
  datatype Change = Change(value: Option<Json>, writers: nat)

  function Noted(prior: Option<Change>, value: Option<Json>): Change {
    match prior
    case None => Change(value, 1)
    case Some(c) => Change(if value.Some? then value else c.value, c.writers + 1)
  }

  function Prior(changes: map<string, Change>, k: string): Option<Change> {
    if k in changes then Some(changes[k]) else None
  }

  method NoteBranch(base: State, branch: State, before: map<string, Change>) returns (changes: map<string, Change>)
    ensures forall k :: Prior(changes, k)
                     == if k in Changed(base, branch) then Some(Noted(Prior(before, k), At(branch, k)))
                        else Prior(before, k)
  {
    changes := before;
    var keys := base.Keys;
    while keys != {}
      invariant keys <= base.Keys
      invariant forall k :: Prior(changes, k)
                         == if k in base.Keys - keys && k !in branch then Some(Noted(Prior(before, k), None))
                            else Prior(before, k)
    {
      var key :| key in keys;
      if key !in branch {
        changes := changes[key := Noted(Prior(changes, key), None)];
      }
      keys := keys - {key};
    }
    keys := branch.Keys;
    while keys != {}
      invariant keys <= branch.Keys
      invariant forall k :: Prior(changes, k)
                         == if k in Changed(base, branch) - keys then Some(Noted(Prior(before, k), At(branch, k)))
                            else Prior(before, k)
    {
      var key :| key in keys;
      if At(base, key) != Some(branch[key]) {
        changes := changes[key := Noted(Prior(changes, key), Some(branch[key]))];
      }
      keys := keys - {key};
    }
  }

  /** The table after some branches: who changed a key, how often, and to what when only one did. */
  ghost predicate Tally(base: State, branches: seq<State>, changes: map<string, Change>) {
    forall k :: TallyAt(base, branches, changes, k)
  }

  ghost predicate TallyAt(base: State, branches: seq<State>, changes: map<string, Change>, k: string) {
    && (k in changes <==> Writers(base, branches, k) > 0)
    && (k in changes ==> changes[k].writers == Writers(base, branches, k))
    && (k in changes && changes[k].writers == 1
        ==> forall x | x in branches && k in Changed(base, x) :: changes[k].value == At(x, k))
  }

  lemma TallyStep(base: State, branches: seq<State>, branch: State, before: map<string, Change>,
                  changes: map<string, Change>)
    requires Tally(base, branches, before)
    requires forall k :: Prior(changes, k)
                      == if k in Changed(base, branch) then Some(Noted(Prior(before, k), At(branch, k)))
                         else Prior(before, k)
    ensures Tally(base, branches + [branch], changes)
  {
    var all := branches + [branch];
    assert all[..|all| - 1] == branches;
    forall k
      ensures TallyAt(base, all, changes, k)
    {
      assert TallyAt(base, branches, before, k);
      assert Prior(changes, k)
          == if k in Changed(base, branch) then Some(Noted(Prior(before, k), At(branch, k))) else Prior(before, k);
      SomeWriter(base, branches, k);
    }
  }

  lemma StartTally(base: State)
    ensures Tally(base, [], map[])
  {
  }

  lemma SoleWriters(base: State, branches: seq<State>, changes: map<string, Change>, merged: State)
    requires Tally(base, branches, changes)
    requires forall k :: At(merged, k) == if k in changes then changes[k].value else At(base, k)
    requires forall k | k in changes :: changes[k].writers == 1
    ensures OneWriterEach(base, branches) && MergesTo(base, branches, merged)
  {
    forall k
      ensures Writers(base, branches, k) <= 1 && MergedAt(base, branches, merged, k)
    {
      assert TallyAt(base, branches, changes, k);
      SomeWriter(base, branches, k);
    }
  }

  method Merge(base: State, branches: seq<State>) returns (r: Result<State, Conflict>)
    ensures r.Ok? <==> Compatible(base, branches)
    ensures r.Ok? ==> MergesTo(base, branches, r.value)
    ensures r.Err? ==> r.error.writers == Writers(base, branches, r.error.key) > 1
  {
    hide MergesTo, Compatible, Writers, Changed;
    var changes: map<string, Change> := map[];
    StartTally(base);
    for i := 0 to |branches|
      invariant Tally(base, branches[..i], changes)
    {
      ghost var before := changes;
      changes := NoteBranch(base, branches[i], changes);
      assert branches[..i + 1] == branches[..i] + [branches[i]];
      TallyStep(base, branches[..i], branches[i], before, changes);
    }
    assert branches[..|branches|] == branches;
    CompatibleWriters(base, branches);
    var merged, keys := base, changes.Keys;
    while keys != {}
      invariant keys <= changes.Keys
      invariant forall k :: At(merged, k) == if k in changes && k !in keys then changes[k].value else At(base, k)
      invariant forall k | k in changes && k !in keys :: changes[k].writers == 1
    {
      var key :| key in keys;
      assert TallyAt(base, branches, changes, key);
      if changes[key].writers > 1 {
        return Err(Conflict(key, changes[key].writers));
      }
      match changes[key].value {
        case Some(value) => merged := merged[key := value];
        case None => merged := merged - {key};
      }
      keys := keys - {key};
    }
    SoleWriters(base, branches, changes, merged);
    return Ok(merged);
  }
}
