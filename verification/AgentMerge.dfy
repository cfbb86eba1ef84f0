/** The typed state of an agent: its mutations, and the merge of parallel branches field by field. */
module AgentMerge {
  import opened Wrappers
  import opened Sequences

  type Message(==, !new)
  type StopReason(==, !new)
  type Response(==, !new)

  /** Counters are 64-bit; `Fits` says so, because arithmetic on them can leave the range. */
  datatype AgentState = AgentState(
    messages: seq<Message>,
    iterations: nat,
    toolCalls: nat,
    outputTokens: nat,
    reasoningTokens: nat,
    compactions: nat,
    stopReason: Option<StopReason>,
    lastResponse: Option<Response>
  )

  const USIZE_MAX := U64_MAX

  datatype Field = Iterations | ToolCalls | OutputTokens | ReasoningTokens | Compactions

  datatype Conflict = MessagesConflict | ResetConflict(field: Field) | OverflowConflict(field: Field) | TerminalConflict

  function Get(s: AgentState, f: Field): nat {
    match f
    case Iterations => s.iterations
    case ToolCalls => s.toolCalls
    case OutputTokens => s.outputTokens
    case ReasoningTokens => s.reasoningTokens
    case Compactions => s.compactions
  }

  predicate Fits(s: AgentState) {
    forall f: Field :: Get(s, f) <= USIZE_MAX
  }

  // ------------------------------------------------------------------- counters

  function Values(branches: seq<AgentState>, f: Field): (r: seq<nat>)
    ensures |r| == |branches| && forall i | 0 <= i < |r| :: r[i] == Get(branches[i], f)
  {
    seq(|branches|, i requires 0 <= i < |branches| => Get(branches[i], f))
  }

  /** How many values differ from the base. */
  function ChangedCount(base: nat, values: seq<nat>): nat {
    if values == [] then 0
    else ChangedCount(base, values[..|values| - 1]) + if values[|values| - 1] != base then 1 else 0
  }

  /** The base plus every branch's own increment, or minus its decrement. */
  function Total(base: nat, values: seq<nat>): int {
    if values == [] then base else Total(base, values[..|values| - 1]) + values[|values| - 1] - base
  }

  function Highest(base: nat, values: seq<nat>): nat {
    if values == [] then base
    else
      var h := Highest(base, values[..|values| - 1]);
      if values[|values| - 1] > h then values[|values| - 1] else h
  }

  predicate Lowered(base: nat, values: seq<nat>) {
    exists v :: v in values && v < base
  }

  /** Only iterations take the highest value; the others accumulate. */
  predicate Accumulates(f: Field) {
    f != Iterations
  }

  /** Concurrent changes of a counter that have no merge. */
  predicate CounterFails(base: nat, values: seq<nat>, f: Field) {
    ChangedCount(base, values) >= 2
    && (Lowered(base, values) || (Accumulates(f) && Total(base, values) > USIZE_MAX))
  }

  function CounterValue(base: nat, values: seq<nat>, f: Field): int {
    if Accumulates(f) || ChangedCount(base, values) <= 1 then Total(base, values) else Highest(base, values)
  }

  lemma LoweredAppend(base: nat, a: seq<nat>, b: seq<nat>)
    ensures Lowered(base, a + b) <==> Lowered(base, a) || Lowered(base, b)
  {
    assert forall v :: v in a + b <==> v in a || v in b;
  }

  lemma {:induction false} CounterFacts(base: nat, values: seq<nat>)
    ensures ChangedCount(base, values) == 0 ==> Total(base, values) == base && forall v | v in values :: v == base
    ensures !Lowered(base, values) ==> Total(base, values) >= base + ChangedCount(base, values)
    ensures !Lowered(base, values) ==> Total(base, values) >= Highest(base, values) >= base
    ensures !Lowered(base, values) ==> (Highest(base, values) == base <==> ChangedCount(base, values) == 0)
    ensures ChangedCount(base, values) == 1 ==> Total(base, values) in values && Total(base, values) != base
    ensures ChangedCount(base, values) == 1 ==> forall v | v in values :: v == base || v == Total(base, values)
    ensures ChangedCount(base, values) == 0 ==> !Lowered(base, values)
    ensures ChangedCount(base, values) == 1 ==> (Lowered(base, values) <==> Total(base, values) < base)
  {
    if values != [] {
      var before, last := values[..|values| - 1], values[|values| - 1];
      assert values == before + [last];
      CounterFacts(base, before);
      LoweredAppend(base, before, [last]);
      assert last in [last];
    }
  }

  lemma {:induction false} CounterAppend(base: nat, a: seq<nat>, b: seq<nat>)
    ensures ChangedCount(base, a + b) == ChangedCount(base, a) + ChangedCount(base, b)
    ensures Total(base, a + b) == Total(base, a) + Total(base, b) - base
    ensures Highest(base, a + b) == if Highest(base, a) > Highest(base, b) then Highest(base, a) else Highest(base, b)
  {
    if b == [] {
      assert a + b == a;
      HighestAtLeastBase(base, a);
    } else {
      FrontOfAppend(a, b);
      CounterAppend(base, a, b[..|b| - 1]);
    }
  }

  lemma {:induction false} HighestAtLeastBase(base: nat, values: seq<nat>)
    ensures Highest(base, values) >= base
    ensures forall v | v in values :: v <= Highest(base, values)
    ensures Highest(base, values) == base || Highest(base, values) in values
  {
    if values != [] {
      assert values == values[..|values| - 1] + [values[|values| - 1]];
      HighestAtLeastBase(base, values[..|values| - 1]);
    }
  }

  /** Merging a group of neighbours first makes no difference to a counter. */
  lemma CounterHierarchical(base: nat, a: seq<nat>, group: seq<nat>, b: seq<nat>, f: Field)
    ensures CounterFails(base, group, f) ==> CounterFails(base, a + group + b, f)
    ensures !CounterFails(base, group, f) ==>
      var g := CounterValue(base, group, f);
      && g >= 0
      && (CounterFails(base, a + group + b, f) <==> CounterFails(base, a + [g] + b, f))
      && (!CounterFails(base, a + group + b, f)
          ==> CounterValue(base, a + group + b, f) == CounterValue(base, a + [g] + b, f))
  {
    hide ChangedCount, Total, Highest, Lowered;
    CounterAppend(base, a + group, b);
    CounterAppend(base, a, group);
    CounterFacts(base, a);
    CounterFacts(base, b);
    CounterFacts(base, group);
    HighestAtLeastBase(base, a);
    HighestAtLeastBase(base, b);
    HighestAtLeastBase(base, group);
    LoweredAppend(base, a + group, b);
    LoweredAppend(base, a, group);
    if !CounterFails(base, group, f) {
      var g := CounterValue(base, group, f);
      OneCounter(base, g);
      CounterAppend(base, a + [g], b);
      CounterAppend(base, a, [g]);
      LoweredAppend(base, a + [g], b);
      LoweredAppend(base, a, [g]);
    }
  }

  lemma OneCounter(base: nat, g: nat)
    ensures ChangedCount(base, [g]) == if g == base then 0 else 1
    ensures Total(base, [g]) == g
    ensures Highest(base, [g]) == if g > base then g else base
    ensures Lowered(base, [g]) <==> g < base
  {
    assert [g][..0] == [] && g in [g];
  }

  method MergeCounter(base: nat, branches: seq<AgentState>, f: Field) returns (r: Result<nat, Conflict>)
    requires base <= USIZE_MAX && forall b | b in branches :: Fits(b)
    ensures r.Err? <==> CounterFails(base, Values(branches, f), f)
    ensures r.Ok? ==> r.value == CounterValue(base, Values(branches, f), f) <= USIZE_MAX
    ensures r.Err? ==> r.error == if Lowered(base, Values(branches, f)) then ResetConflict(f) else OverflowConflict(f)
  {
    var values := Values(branches, f);
    var changed := 0;
    var found := base;
    for i := 0 to |values|
      invariant changed == ChangedCount(base, values[..i])
      invariant changed == 0 ==> found == base
      invariant changed >= 1 ==> found in values[..i] && found != base
    {
      assert values[..i + 1][..i] == values[..i];
      if values[i] != base {
        changed := changed + 1;
        if changed == 1 { found := values[i]; }
      }
    }
    assert values[..|values|] == values;
    CounterFacts(base, values);
    assert forall i | 0 <= i < |values| :: Fits(branches[i]) && values[i] == Get(branches[i], f);
    if changed <= 1 {
      return Ok(found);
    }
    if Lowered(base, values) {
      return Err(ResetConflict(f));
    }
    if Accumulates(f) {
      r := AddUp(base, values, f);
    } else {
      var highest := Maximum(values);
      HighestAtLeastBase(base, values);
      assert highest >= base;
      return Ok(highest);
    }
  }

  /** Checked addition of every branch's increment. */
  method AddUp(base: nat, values: seq<nat>, f: Field) returns (r: Result<nat, Conflict>)
    requires base <= USIZE_MAX && !Lowered(base, values)
    ensures r == if Total(base, values) > USIZE_MAX then Err(OverflowConflict(f)) else Ok(Total(base, values))
  {
    var sum: nat := base;
    for i := 0 to |values|
      invariant sum == Total(base, values[..i]) <= USIZE_MAX
    {
      assert values[..i + 1][..i] == values[..i];
      assert values[i] in values;
      if sum + (values[i] - base) > USIZE_MAX {
        TotalRises(base, values, i + 1);
        return Err(OverflowConflict(f));
      }
      sum := sum + (values[i] - base);
    }
    assert values[..|values|] == values;
    return Ok(sum);
  }

  method Maximum(values: seq<nat>) returns (highest: nat)
    requires values != []
    ensures highest in values && forall v | v in values :: v <= highest
  {
    highest := values[0];
    for i := 1 to |values|
      invariant highest in values && forall k | 0 <= k < i :: values[k] <= highest
    {
      if values[i] > highest {
        highest := values[i];
      }
    }
  }

  lemma TotalRises(base: nat, values: seq<nat>, i: nat)
    requires i <= |values| && !Lowered(base, values)
    ensures Total(base, values[..i]) <= Total(base, values)
  {
    assert values == values[..i] + values[i..];
    CounterAppend(base, values[..i], values[i..]);
    assert forall v | v in values[i..] :: v in values;
    CounterFacts(base, values[i..]);
  }

  // ------------------------------------------------------------------- messages

  predicate Replaced(base: seq<Message>, m: seq<Message>) {
    !(base <= m)
  }

  function Replacements(base: seq<Message>, branches: seq<AgentState>): nat {
    if branches == [] then 0
    else
      Replacements(base, branches[..|branches| - 1]) +
      if Replaced(base, branches[|branches| - 1].messages) then 1 else 0
  }

  /** Does some branch only add, at least one message? */
  predicate SomeAppend(base: seq<Message>, branches: seq<AgentState>) {
    exists b :: b in branches && base < b.messages
  }

  predicate MessagesFail(base: seq<Message>, branches: seq<AgentState>) {
    Replacements(base, branches) >= 2 || (Replacements(base, branches) == 1 && SomeAppend(base, branches))
  }

  /** What the branches add, in the order of the branches. */
  function Suffixes(base: seq<Message>, branches: seq<AgentState>): seq<Message> {
    if branches == [] then []
    else
      var m := branches[|branches| - 1].messages;
      Suffixes(base, branches[..|branches| - 1]) + if base <= m then m[|base|..] else []
  }

  /** Is `m` the merge of the messages: one replacement, or the base and then everything added? */
  predicate MessagesMerge(base: seq<Message>, branches: seq<AgentState>, m: seq<Message>) {
    if Replacements(base, branches) == 0 then m == base + Suffixes(base, branches)
    else Replaced(base, m) && exists b :: b in branches && b.messages == m
  }

  lemma {:induction false} MessageFacts(base: seq<Message>, branches: seq<AgentState>)
    ensures Replacements(base, branches) == 0 <==> forall b | b in branches :: base <= b.messages
    ensures Suffixes(base, branches) == [] <==> !SomeAppend(base, branches)
    ensures Replacements(base, branches) == 1 ==>
              forall b, c | b in branches && c in branches && Replaced(base, b.messages) && Replaced(base, c.messages)
                :: b.messages == c.messages
  {
    if branches != [] {
      var before, last := branches[..|branches| - 1], branches[|branches| - 1];
      assert branches == before + [last];
      MessageFacts(base, before);
      assert base <= last.messages ==> last.messages == base + last.messages[|base|..];
    }
  }

  lemma {:induction false} MessagesAppend(base: seq<Message>, a: seq<AgentState>, b: seq<AgentState>)
    ensures Replacements(base, a + b) == Replacements(base, a) + Replacements(base, b)
    ensures Suffixes(base, a + b) == Suffixes(base, a) + Suffixes(base, b)
  {
    if b == [] {
      assert a + b == a;
    } else {
      FrontOfAppend(a, b);
      MessagesAppend(base, a, b[..|b| - 1]);
      var m := b[|b| - 1].messages;
      Associative(Suffixes(base, a), Suffixes(base, b[..|b| - 1]), if base <= m then m[|base|..] else []);
    }
  }

  lemma OneMessages(base: seq<Message>, g: AgentState)
    ensures Replacements(base, [g]) == if Replaced(base, g.messages) then 1 else 0
    ensures Suffixes(base, [g]) == if base <= g.messages then g.messages[|base|..] else []
  {
  }

  lemma MessagesHierarchical(base: seq<Message>, a: seq<AgentState>, group: seq<AgentState>, b: seq<AgentState>,
                             g: AgentState, m: seq<Message>)
    ensures MessagesFail(base, group) ==> MessagesFail(base, a + group + b)
    ensures !MessagesFail(base, group) && MessagesMerge(base, group, g.messages) ==>
      && (MessagesFail(base, a + group + b) <==> MessagesFail(base, a + [g] + b))
      && (!MessagesFail(base, a + group + b)
          ==> (MessagesMerge(base, a + group + b, m) <==> MessagesMerge(base, a + [g] + b, m)))
  {
    hide Replacements, Suffixes;
    MessagesAppend(base, a + group, b);
    MessagesAppend(base, a, group);
    MessagesAppend(base, a + [g], b);
    MessagesAppend(base, a, [g]);
    OneMessages(base, g);
    MessageFacts(base, a);
    MessageFacts(base, b);
    MessageFacts(base, group);
    assert forall x :: x in a + group + b <==> x in a || x in group || x in b;
    assert forall x :: x in a + [g] + b <==> x in a || x == g || x in b;
    assert SomeAppend(base, a + group + b) <==> SomeAppend(base, a) || SomeAppend(base, group) || SomeAppend(base, b);
    assert SomeAppend(base, a + [g] + b) <==> SomeAppend(base, a) || base < g.messages || SomeAppend(base, b);
  }

  method Concatenate(base: seq<Message>, branches: seq<AgentState>) returns (merged: seq<Message>)
    requires Replacements(base, branches) == 0
    ensures merged == base + Suffixes(base, branches)
  {
    merged := base;
    MessageFacts(base, branches);
    for i := 0 to |branches|
      invariant merged == base + Suffixes(base, branches[..i])
    {
      assert branches[..i + 1][..i] == branches[..i];
      assert branches[i] in branches;
      merged := merged + branches[i].messages[|base|..];
    }
    assert branches[..|branches|] == branches;
  }

  lemma NoBranches(base: seq<Message>)
    ensures Replacements(base, []) == 0 && !SomeAppend(base, [])
  {
  }

  lemma OneMoreBranch(base: seq<Message>, branches: seq<AgentState>, i: nat)
    requires i < |branches|
    ensures var m := branches[i].messages;
      && branches[..i + 1] == branches[..i] + [branches[i]]
      && Replacements(base, branches[..i + 1])
         == Replacements(base, branches[..i]) + (if Replaced(base, m) then 1 else 0)
      && (SomeAppend(base, branches[..i + 1]) <==> SomeAppend(base, branches[..i]) || base < m)
  {
  }

  method MergeMessages(base: seq<Message>, branches: seq<AgentState>) returns (r: Result<seq<Message>, Conflict>)
    ensures r.Err? <==> MessagesFail(base, branches)
    ensures r.Ok? ==> MessagesMerge(base, branches, r.value)
    ensures r.Err? ==> r.error == MessagesConflict
  {
    hide Replacements, SomeAppend;
    var replacements, appends := 0, 0;
    NoBranches(base);
    var replacement: Option<seq<Message>> := None;
    for i := 0 to |branches|
      invariant replacements == Replacements(base, branches[..i])
      invariant appends > 0 <==> SomeAppend(base, branches[..i])
      invariant replacement.Some? <==> replacements > 0
      invariant replacement.Some? ==>
                  Replaced(base, replacement.value) && exists b :: b in branches[..i] && b.messages == replacement.value
    {
      OneMoreBranch(base, branches, i);
      var m := branches[i].messages;
      if |m| >= |base| && m[..|base|] == base {
        if |m| > |base| {
          appends := appends + 1;
        }
      } else {
        replacements := replacements + 1;
        replacement := Some(m);
      }
    }
    assert branches[..|branches|] == branches;
    if replacements == 0 {
      var merged := Concatenate(base, branches);
      return Ok(merged);
    }
    if replacements == 1 && appends == 0 {
      return Ok(replacement.value);
    }
    return Err(MessagesConflict);
  }

  // --------------------------------------------------------------- terminal pair

  predicate Ended(base: AgentState, b: AgentState) {
    b.stopReason != base.stopReason || b.lastResponse != base.lastResponse
  }

  function EndedCount(base: AgentState, branches: seq<AgentState>): nat {
    if branches == [] then 0
    else EndedCount(base, branches[..|branches| - 1]) + if Ended(base, branches[|branches| - 1]) then 1 else 0
  }

  predicate TerminalFails(base: AgentState, branches: seq<AgentState>) {
    EndedCount(base, branches) >= 2
  }

  /** Does `m` carry the pair of the one branch that changed it, or the base's? */
  predicate TerminalMerge(base: AgentState, branches: seq<AgentState>, m: AgentState) {
    if EndedCount(base, branches) == 0 then !Ended(base, m)
    else Ended(base, m) && exists b :: b in branches && !Ended(b, m)
  }

  lemma {:induction false} EndedFacts(base: AgentState, branches: seq<AgentState>)
    ensures EndedCount(base, branches) == 0 <==> forall b | b in branches :: !Ended(base, b)
    ensures EndedCount(base, branches) == 1 ==>
              forall b, c | b in branches && c in branches && Ended(base, b) && Ended(base, c) :: !Ended(b, c)
  {
    if branches != [] {
      assert branches == branches[..|branches| - 1] + [branches[|branches| - 1]];
      EndedFacts(base, branches[..|branches| - 1]);
    }
  }

  lemma {:induction false} EndedAppend(base: AgentState, a: seq<AgentState>, b: seq<AgentState>)
    ensures EndedCount(base, a + b) == EndedCount(base, a) + EndedCount(base, b)
  {
    if b == [] {
      assert a + b == a;
    } else {
      FrontOfAppend(a, b);
      EndedAppend(base, a, b[..|b| - 1]);
    }
  }

  lemma TerminalHierarchical(base: AgentState, a: seq<AgentState>, group: seq<AgentState>, b: seq<AgentState>,
                             g: AgentState, m: AgentState)
    ensures TerminalFails(base, group) ==> TerminalFails(base, a + group + b)
    ensures !TerminalFails(base, group) && TerminalMerge(base, group, g) ==>
      && (TerminalFails(base, a + group + b) <==> TerminalFails(base, a + [g] + b))
      && (!TerminalFails(base, a + group + b)
          ==> (TerminalMerge(base, a + group + b, m) <==> TerminalMerge(base, a + [g] + b, m)))
  {
    hide EndedCount;
    EndedAppend(base, a + group, b);
    EndedAppend(base, a, group);
    EndedAppend(base, a + [g], b);
    EndedAppend(base, a, [g]);
    OneEnded(base, g);
    EndedFacts(base, a);
    EndedFacts(base, b);
    EndedFacts(base, group);
    assert forall x :: x in a + group + b <==> x in a || x in group || x in b;
    assert forall x :: x in a + [g] + b <==> x in a || x == g || x in b;
  }

  lemma OneEnded(base: AgentState, g: AgentState)
    ensures EndedCount(base, [g]) == if Ended(base, g) then 1 else 0
  {
  }

  method MergeTerminal(base: AgentState, branches: seq<AgentState>)
    returns (r: Result<(Option<StopReason>, Option<Response>), Conflict>)
    ensures r.Err? <==> TerminalFails(base, branches)
    ensures r.Ok? ==> TerminalMerge(base, branches, base.(stopReason := r.value.0, lastResponse := r.value.1))
    ensures r.Err? ==> r.error == TerminalConflict
  {
    var changed: seq<AgentState> := [];
    for i := 0 to |branches|
      invariant |changed| == EndedCount(base, branches[..i])
      invariant forall b | b in changed :: b in branches && Ended(base, b)
    {
      assert branches[..i + 1][..i] == branches[..i];
      if Ended(base, branches[i]) {
        changed := changed + [branches[i]];
      }
    }
    assert branches[..|branches|] == branches;
    if |changed| == 0 {
      return Ok((base.stopReason, base.lastResponse));
    }
    if |changed| == 1 {
      assert changed[0] in changed;
      return Ok((changed[0].stopReason, changed[0].lastResponse));
    }
    return Err(TerminalConflict);
  }

  // ---------------------------------------------------------------- whole states

  ghost predicate MergeFails(base: AgentState, branches: seq<AgentState>) {
    || MessagesFail(base.messages, branches)
    || (exists f: Field :: CounterFails(Get(base, f), Values(branches, f), f))
    || TerminalFails(base, branches)
  }

  /** Field by field, `m` is the merge of the branches. */
  ghost predicate MergesTo(base: AgentState, branches: seq<AgentState>, m: AgentState) {
    && MessagesMerge(base.messages, branches, m.messages)
    && (forall f: Field :: Get(m, f) == CounterValue(Get(base, f), Values(branches, f), f))
    && TerminalMerge(base, branches, m)
  }

  function CounterConflict(base: AgentState, branches: seq<AgentState>, f: Field): Option<Conflict> {
    if !CounterFails(Get(base, f), Values(branches, f), f) then None
    else Some(if Lowered(Get(base, f), Values(branches, f)) then ResetConflict(f) else OverflowConflict(f))
  }

  /** The conflict that is reported: of the first field that has one. */
  function FirstConflict(base: AgentState, branches: seq<AgentState>): Option<Conflict> {
    if MessagesFail(base.messages, branches) then Some(MessagesConflict)
    else if CounterConflict(base, branches, Iterations).Some? then CounterConflict(base, branches, Iterations)
    else if CounterConflict(base, branches, ToolCalls).Some? then CounterConflict(base, branches, ToolCalls)
    else if CounterConflict(base, branches, OutputTokens).Some? then CounterConflict(base, branches, OutputTokens)
    else if CounterConflict(base, branches, ReasoningTokens).Some? then CounterConflict(base, branches, ReasoningTokens)
    else if CounterConflict(base, branches, Compactions).Some? then CounterConflict(base, branches, Compactions)
    else if TerminalFails(base, branches) then Some(TerminalConflict)
    else None
  }

  method Merge(base: AgentState, branches: seq<AgentState>) returns (r: Result<AgentState, Conflict>)
    requires Fits(base) && forall b | b in branches :: Fits(b)
    ensures r.Err? <==> MergeFails(base, branches)
    ensures r.Err? ==> FirstConflict(base, branches) == Some(r.error)
    ensures r.Ok? ==> Fits(r.value) && MergesTo(base, branches, r.value)
  {
    hide MessagesFail, MessagesMerge, CounterFails, CounterValue, TerminalFails, Lowered;
    assert forall f: Field :: Get(base, f) <= USIZE_MAX;
    assert base.iterations == Get(base, Iterations) && base.toolCalls == Get(base, ToolCalls);
    assert base.outputTokens == Get(base, OutputTokens) && base.reasoningTokens == Get(base, ReasoningTokens);
    assert base.compactions == Get(base, Compactions);
    if branches == [] {
      EmptyMerge(base);
      return Ok(base);
    }
    var messages :- MergeMessages(base.messages, branches);
    var iterations :- MergeCounter(base.iterations, branches, Iterations);
    var toolCalls :- MergeCounter(base.toolCalls, branches, ToolCalls);
    var outputTokens :- MergeCounter(base.outputTokens, branches, OutputTokens);
    var reasoningTokens :- MergeCounter(base.reasoningTokens, branches, ReasoningTokens);
    var compactions :- MergeCounter(base.compactions, branches, Compactions);
    var pair :- MergeTerminal(base, branches);
    return Ok(AgentState(messages, iterations, toolCalls, outputTokens, reasoningTokens, compactions, pair.0, pair.1));
  }

  lemma EmptyMerge(base: AgentState)
    ensures !MergeFails(base, []) && MergesTo(base, [], base)
  {
  }

  lemma ValuesSplit(a: seq<AgentState>, group: seq<AgentState>, b: seq<AgentState>, f: Field)
    ensures Values(a + group + b, f) == Values(a, f) + Values(group, f) + Values(b, f)
  {
  }

  /** Merging a group of neighbours first and its result with the rest gives the verdict and the state of
      merging all at once; a conflict inside the group is a conflict of the whole. */
  lemma HierarchicalIsFlat(base: AgentState, a: seq<AgentState>, group: seq<AgentState>, b: seq<AgentState>,
                           g: AgentState, m: AgentState)
    ensures MergeFails(base, group) ==> MergeFails(base, a + group + b)
    ensures !MergeFails(base, group) && MergesTo(base, group, g) ==>
      && (MergeFails(base, a + group + b) <==> MergeFails(base, a + [g] + b))
      && (!MergeFails(base, a + group + b) ==> (MergesTo(base, a + group + b, m) <==> MergesTo(base, a + [g] + b, m)))
  {
    hide MessagesFail, MessagesMerge, CounterFails, CounterValue, TerminalFails, TerminalMerge;
    MessagesHierarchical(base.messages, a, group, b, g, m.messages);
    TerminalHierarchical(base, a, group, b, g, m);
    forall f: Field
      ensures Values(a + group + b, f) == Values(a, f) + Values(group, f) + Values(b, f)
      ensures Values(a + [g] + b, f) == Values(a, f) + [Get(g, f)] + Values(b, f)
      ensures CounterFails(Get(base, f), Values(group, f), f)
          ==> CounterFails(Get(base, f), Values(a, f) + Values(group, f) + Values(b, f), f)
    {
      ValuesSplit(a, group, b, f);
      ValuesSplit(a, [g], b, f);
      assert Values([g], f) == [Get(g, f)];
      CounterHierarchical(Get(base, f), Values(a, f), Values(group, f), Values(b, f), f);
    }
    if !MergeFails(base, group) && MergesTo(base, group, g) {
      forall f: Field
        ensures CounterFails(Get(base, f), Values(a + group + b, f), f)
           <==> CounterFails(Get(base, f), Values(a + [g] + b, f), f)
        ensures !CounterFails(Get(base, f), Values(a + group + b, f), f) ==>
          CounterValue(Get(base, f), Values(a + group + b, f), f)
          == CounterValue(Get(base, f), Values(a + [g] + b, f), f)
      {
        assert !CounterFails(Get(base, f), Values(group, f), f);
        CounterHierarchical(Get(base, f), Values(a, f), Values(group, f), Values(b, f), f);
      }
    }
  }

  // ------------------------------------------------------------------- mutations

  datatype Mutation =
    | AppendMessage(message: Message)
    | AppendMessages(messages: seq<Message>)
    | IncrementIteration
    | AddToolCalls(count: nat)
    | AddOutputTokens(count: nat)
    | AddReasoningTokens(count: nat)
    | IncrementCompactCount
    | ReplaceMessages(messages: seq<Message>)
    | SetStopReason(reason: StopReason)
    | SetLastResponse(response: Response)

  function Apply(s: AgentState, m: Mutation): AgentState {
    match m
    case AppendMessage(x) => s.(messages := s.messages + [x])
    case AppendMessages(xs) => s.(messages := s.messages + xs)
    case IncrementIteration => s.(iterations := s.iterations + 1)
    case AddToolCalls(n) => s.(toolCalls := s.toolCalls + n)
    case AddOutputTokens(n) => s.(outputTokens := s.outputTokens + n)
    case AddReasoningTokens(n) => s.(reasoningTokens := s.reasoningTokens + n)
    case IncrementCompactCount => s.(compactions := s.compactions + 1)
    case ReplaceMessages(xs) => s.(messages := xs)
    case SetStopReason(r) => s.(stopReason := Some(r))
    case SetLastResponse(r) => s.(lastResponse := Some(r))
  }

  function ApplyBatch(s: AgentState, batch: seq<Mutation>): AgentState {
    if batch == [] then s else Apply(ApplyBatch(s, batch[..|batch| - 1]), batch[|batch| - 1])
  }

  function Forked(base: AgentState, batches: seq<seq<Mutation>>): (r: seq<AgentState>)
    ensures |r| == |batches| && forall i | 0 <= i < |r| :: r[i] == ApplyBatch(base, batches[i])
  {
    seq(|batches|, i requires 0 <= i < |batches| => ApplyBatch(base, batches[i]))
  }

  predicate Additive(batch: seq<Mutation>) {
    forall m | m in batch :: !m.ReplaceMessages?
  }

  predicate Ends(batch: seq<Mutation>) {
    exists m :: m in batch && (m.SetStopReason? || m.SetLastResponse?)
  }

  /** No two branches set the stop reason or the last response. */
  predicate OneEnds(batches: seq<seq<Mutation>>) {
    forall i, j | 0 <= i < j < |batches| :: !(Ends(batches[i]) && Ends(batches[j]))
  }

  lemma {:induction false} ApplyAppend(s: AgentState, a: seq<Mutation>, b: seq<Mutation>)
    ensures ApplyBatch(s, a + b) == ApplyBatch(ApplyBatch(s, a), b)
  {
    if b == [] {
      assert a + b == a;
    } else {
      FrontOfAppend(a, b);
      ApplyAppend(s, a, b[..|b| - 1]);
    }
  }

  /** A batch without replacement adds the same to whatever state it meets. */
  lemma {:induction false} BatchAdds(s: AgentState, t: AgentState, batch: seq<Mutation>)
    requires Additive(batch)
    ensures s.messages <= ApplyBatch(s, batch).messages && t.messages <= ApplyBatch(t, batch).messages
    ensures ApplyBatch(t, batch).messages[|t.messages|..] == ApplyBatch(s, batch).messages[|s.messages|..]
    ensures forall f: Field :: Get(ApplyBatch(t, batch), f) - Get(t, f) == Get(ApplyBatch(s, batch), f) - Get(s, f) >= 0
    ensures !Ends(batch) ==> !Ended(s, ApplyBatch(s, batch))
    ensures !Ended(s, t) ==> !Ended(ApplyBatch(s, batch), ApplyBatch(t, batch))
  {
    if batch != [] {
      var before := batch[..|batch| - 1];
      assert batch == before + [batch[|batch| - 1]];
      hide Apply;
      BatchAdds(s, t, before);
      AddsOne(s, ApplyBatch(s, before), t, ApplyBatch(t, before), batch[|batch| - 1]);
    }
  }

  /** One more mutation that replaces nothing adds the same to both states. */
  lemma AddsOne(s: AgentState, s': AgentState, t: AgentState, t': AgentState, m: Mutation)
    requires !m.ReplaceMessages? && s.messages <= s'.messages && t.messages <= t'.messages
    requires t'.messages[|t.messages|..] == s'.messages[|s.messages|..]
    requires forall f: Field :: Get(t', f) - Get(t, f) == Get(s', f) - Get(s, f) >= 0
    ensures s.messages <= Apply(s', m).messages && t.messages <= Apply(t', m).messages
    ensures Apply(t', m).messages[|t.messages|..] == Apply(s', m).messages[|s.messages|..]
    ensures forall f: Field :: Get(Apply(t', m), f) - Get(t, f) == Get(Apply(s', m), f) - Get(s, f) >= 0
    ensures !(m.SetStopReason? || m.SetLastResponse?) && !Ended(s, s') ==> !Ended(s, Apply(s', m))
    ensures !Ended(s', t') ==> !Ended(Apply(s', m), Apply(t', m))
  {
    var added := match m case AppendMessage(x) => [x] case AppendMessages(xs) => xs case _ => [];
    RestOfAppend(s'.messages, added, |s.messages|);
    RestOfAppend(t'.messages, added, |t.messages|);
  }

  /** A state reached by running side-by-side branches one after another, compared with what they left.
      `clean`: no branch sets the terminal pair. */
  ghost predicate SerialOk(base: AgentState, branches: seq<AgentState>, serial: AgentState, clean: bool) {
    && Replacements(base.messages, branches) == 0
    && serial.messages == base.messages + Suffixes(base.messages, branches)
    && (forall f: Field :: CounterOk(Get(base, f), Values(branches, f), Get(serial, f)))
    && EndedCount(base, branches) <= (if clean then 0 else 1)
    && TerminalMerge(base, branches, serial)
  }

  predicate CounterOk(base: nat, values: seq<nat>, serial: nat) {
    serial == Total(base, values) && !Lowered(base, values)
  }

  lemma SerialMore(base: AgentState, branches: seq<AgentState>, serial: AgentState, clean: bool, one: AgentState,
                   next: AgentState, ends: bool)
    requires SerialOk(base, branches, serial, clean)
    requires base.messages <= one.messages && next.messages == serial.messages + one.messages[|base.messages|..]
    requires forall f: Field :: Get(next, f) - Get(serial, f) == Get(one, f) - Get(base, f) >= 0
    requires !ends ==> !Ended(base, one) && !Ended(serial, next)
    requires ends ==> clean
    requires !Ended(base, serial) ==> !Ended(one, next)
    ensures SerialOk(base, branches + [one], next, clean && !ends)
  {
    hide Replacements, Suffixes, EndedCount, TerminalMerge, CounterOk;
    MessagesAppend(base.messages, branches, [one]);
    OneMessages(base.messages, one);
    forall f: Field
      ensures CounterOk(Get(base, f), Values(branches + [one], f), Get(next, f))
    {
      CounterMore(Get(base, f), Values(branches, f), Get(serial, f), Get(one, f), Get(next, f));
      assert Values(branches + [one], f) == Values(branches, f) + [Get(one, f)];
    }
    TerminalMore(base, branches, serial, one, next, ends);
  }

  lemma CounterMore(base: nat, values: seq<nat>, serial: nat, one: nat, next: nat)
    requires CounterOk(base, values, serial) && next - serial == one - base >= 0
    ensures CounterOk(base, values + [one], next)
  {
  }

  lemma TerminalMore(base: AgentState, branches: seq<AgentState>, serial: AgentState, one: AgentState,
                     next: AgentState, ends: bool)
    requires TerminalMerge(base, branches, serial)
    requires !ends ==> !Ended(base, one) && !Ended(serial, next)
    requires ends ==> EndedCount(base, branches) == 0
    requires !Ended(base, serial) ==> !Ended(one, next)
    ensures EndedCount(base, branches + [one]) <= EndedCount(base, branches) + if ends then 1 else 0
    ensures TerminalMerge(base, branches + [one], next)
  {
    var all := branches + [one];
    assert all[..|all| - 1] == branches;
    if EndedCount(base, branches) > 0 {
      var b :| b in branches && !Ended(b, serial);
      assert b in all;
    } else {
      assert one in all;
    }
  }

  predicate Quiet(batches: seq<seq<Mutation>>) {
    forall batch | batch in batches :: !Ends(batch)
  }

  lemma EndsLast(before: seq<seq<Mutation>>, last: seq<Mutation>)
    requires OneEnds(before + [last])
    ensures OneEnds(before) && (Ends(last) ==> Quiet(before))
    ensures Quiet(before + [last]) <==> Quiet(before) && !Ends(last)
  {
    var all := before + [last];
    assert last == all[|before|] && last in all;
    forall i | 0 <= i < |before|
      ensures before[i] == all[i] && !(Ends(before[i]) && Ends(last))
    {
      assert !(Ends(all[i]) && Ends(all[|before|]));
    }
  }

  lemma {:induction false} SerialFacts(base: AgentState, batches: seq<seq<Mutation>>)
    requires OneEnds(batches) && forall batch | batch in batches :: Additive(batch)
    ensures SerialOk(base, Forked(base, batches), ApplyBatch(base, Flatten(batches)), Quiet(batches))
  {
    if batches != [] {
      hide SerialOk, Additive, Ends, OneEnds, Quiet, ApplyBatch;
      var before, last := batches[..|batches| - 1], batches[|batches| - 1];
      assert batches == before + [last] && last in batches;
      assert forall batch | batch in before :: batch in batches;
      EndsLast(before, last);
      SerialFacts(base, before);
      ApplyAppend(base, Flatten(before), last);
      assert Forked(base, batches) == Forked(base, before) + [ApplyBatch(base, last)];
      SerialBatch(base, Forked(base, before), ApplyBatch(base, Flatten(before)), Quiet(before), last);
    }
  }

  /** One more batch, run on the base and on the state the earlier batches left. */
  lemma SerialBatch(base: AgentState, branches: seq<AgentState>, serial: AgentState, clean: bool, batch: seq<Mutation>)
    requires SerialOk(base, branches, serial, clean) && Additive(batch) && (Ends(batch) ==> clean)
    ensures SerialOk(base, branches + [ApplyBatch(base, batch)], ApplyBatch(serial, batch), clean && !Ends(batch))
  {
    hide SerialOk, Additive, Ends, ApplyBatch;
    BatchAdds(base, serial, batch);
    BatchAdds(serial, base, batch);
    var one, next := ApplyBatch(base, batch), ApplyBatch(serial, batch);
    assert next.messages == serial.messages + one.messages[|base.messages|..];
    SerialMore(base, branches, serial, clean, one, next, Ends(batch));
  }

  /** Branches that only add, of which at most one ends the run: their merge fails exactly when some
      accumulator of the serial run leaves the range, and otherwise it is the state of the serial run in
      registration order, except that iterations take the highest value instead of the sum. */
  lemma MergeIsSerial(base: AgentState, batches: seq<seq<Mutation>>)
    requires OneEnds(batches) && forall batch | batch in batches :: Additive(batch)
    requires Fits(base) && forall b | b in Forked(base, batches) :: Fits(b)
    ensures var branches, serial := Forked(base, batches), ApplyBatch(base, Flatten(batches));
      && (MergeFails(base, branches) <==> exists f: Field :: Accumulates(f) && Get(serial, f) > USIZE_MAX)
      && MergesTo(base, branches, serial.(iterations := Highest(base.iterations, Values(branches, Iterations))))
  {
    hide Total, CounterFails, CounterValue, Additive, OneEnds, TerminalMerge;
    var branches, serial := Forked(base, batches), ApplyBatch(base, Flatten(batches));
    SerialFacts(base, batches);
    var m := serial.(iterations := Highest(base.iterations, Values(branches, Iterations)));
    forall f: Field
      ensures CounterFails(Get(base, f), Values(branches, f), f) <==> Accumulates(f) && Get(serial, f) > USIZE_MAX
      ensures Get(m, f) == CounterValue(Get(base, f), Values(branches, f), f)
    {
      forall v | v in Values(branches, f)
        ensures v <= USIZE_MAX
      {
        var i :| 0 <= i < |branches| && Values(branches, f)[i] == v;
        assert Fits(branches[i]);
      }
      FieldSerial(Get(base, f), Values(branches, f), f, Get(serial, f));
    }
    SamePair(base, branches, serial, m);
  }

  lemma SamePair(base: AgentState, branches: seq<AgentState>, s: AgentState, m: AgentState)
    requires TerminalMerge(base, branches, s) && !Ended(s, m)
    ensures TerminalMerge(base, branches, m)
  {
  }

  lemma FieldSerial(base: nat, values: seq<nat>, f: Field, serial: nat)
    requires CounterOk(base, values, serial)
    requires base <= USIZE_MAX && forall v | v in values :: v <= USIZE_MAX
    ensures CounterFails(base, values, f) <==> Accumulates(f) && serial > USIZE_MAX
    ensures CounterValue(base, values, f) == if Accumulates(f) then serial else Highest(base, values)
  {
    CounterFacts(base, values);
    HighestAtLeastBase(base, values);
  }
}
