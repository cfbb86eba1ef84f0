/** What a batch of agent mutations does to a state, read off the mutations themselves, and what of it is
    conserved when parallel batches are merged. */
module AgentBatch {
  import opened Wrappers
  import opened Sequences
  import opened AgentMerge

  // ------------------------------------------------------------------- counters

  function IterationsIn(batch: seq<Mutation>): nat {
    if batch == [] then 0
    else IterationsIn(batch[..|batch| - 1]) + if batch[|batch| - 1].IncrementIteration? then 1 else 0
  }

  function CompactionsIn(batch: seq<Mutation>): nat {
    if batch == [] then 0
    else CompactionsIn(batch[..|batch| - 1]) + if batch[|batch| - 1].IncrementCompactCount? then 1 else 0
  }

  function ToolCallsIn(batch: seq<Mutation>): nat {
    if batch == [] then 0
    else ToolCallsIn(batch[..|batch| - 1])
         + if batch[|batch| - 1].AddToolCalls? then batch[|batch| - 1].count else 0
  }

  function OutputTokensIn(batch: seq<Mutation>): nat {
    if batch == [] then 0
    else OutputTokensIn(batch[..|batch| - 1])
         + if batch[|batch| - 1].AddOutputTokens? then batch[|batch| - 1].count else 0
  }

  function ReasoningTokensIn(batch: seq<Mutation>): nat {
    if batch == [] then 0
    else ReasoningTokensIn(batch[..|batch| - 1])
         + if batch[|batch| - 1].AddReasoningTokens? then batch[|batch| - 1].count else 0
  }

  /** Iterations and compactions rise by the number of their mutations, the others by what theirs add. */
  lemma {:induction false} BatchCounts(s: AgentState, batch: seq<Mutation>)
    ensures var t := ApplyBatch(s, batch);
      && t.iterations == s.iterations + IterationsIn(batch)
      && t.toolCalls == s.toolCalls + ToolCallsIn(batch)
      && t.outputTokens == s.outputTokens + OutputTokensIn(batch)
      && t.reasoningTokens == s.reasoningTokens + ReasoningTokensIn(batch)
      && t.compactions == s.compactions + CompactionsIn(batch)
  {
    if batch != [] {
      BatchCounts(s, batch[..|batch| - 1]);
    }
  }

  // ------------------------------------------------------------------- messages

  /** Everything appended, in order. */
  function Appended(batch: seq<Mutation>): seq<Message> {
    if batch == [] then [] else Appended(batch[..|batch| - 1]) + AppendedBy(batch[|batch| - 1])
  }

  function AppendedBy(m: Mutation): seq<Message> {
    if m.AppendMessage? then [m.message] else if m.AppendMessages? then m.messages else []
  }

  lemma AppendsOne(s: AgentState, m: Mutation)
    requires !m.ReplaceMessages?
    ensures Apply(s, m).messages == s.messages + AppendedBy(m)
  {
  }

  lemma FrontOfRest<T>(s: seq<T>, k: nat)
    requires k < |s|
    ensures s[k..] != [] && s[k..][|s[k..]| - 1] == s[|s| - 1] && s[k..][..|s[k..]| - 1] == s[..|s| - 1][k..]
  {
  }

  /** Where the messages were last replaced, if they were. */
  predicate Replacing(batch: seq<Mutation>, at: Option<nat>) {
    match at
    case None => forall j | 0 <= j < |batch| :: !batch[j].ReplaceMessages?
    case Some(i) => i < |batch| && batch[i].ReplaceMessages? && forall j | i < j < |batch| :: !batch[j].ReplaceMessages?
  }

  /** Without a replacement, what is appended follows the old messages; otherwise what is appended after the last
      replacement follows that. */
  lemma {:induction false} BatchMessages(s: AgentState, batch: seq<Mutation>, at: Option<nat>)
    requires Replacing(batch, at)
    ensures ApplyBatch(s, batch).messages
         == match at
            case None => s.messages + Appended(batch)
            case Some(i) => batch[i].messages + Appended(batch[i + 1..])
  {
    if batch != [] {
      var n := |batch| - 1;
      if at == Some(n) {
        assert batch[n + 1..] == [];
      } else {
        hide Apply, AppendedBy;
        BatchMessages(s, batch[..n], at);
        AppendsOne(ApplyBatch(s, batch[..n]), batch[n]);
        if at.Some? {
          FrontOfRest(batch, at.value + 1);
          Associative(batch[at.value].messages, Appended(batch[..n][at.value + 1..]), AppendedBy(batch[n]));
        } else {
          Associative(s.messages, Appended(batch[..n]), AppendedBy(batch[n]));
        }
      }
    }
  }

  // --------------------------------------------------------------- the terminal pair

  predicate Stopping(batch: seq<Mutation>, at: Option<nat>) {
    match at
    case None => forall j | 0 <= j < |batch| :: !batch[j].SetStopReason?
    case Some(i) => i < |batch| && batch[i].SetStopReason? && forall j | i < j < |batch| :: !batch[j].SetStopReason?
  }

  /** The stop reason is the one set last, or the old one. */
  lemma {:induction false} BatchReason(s: AgentState, batch: seq<Mutation>, at: Option<nat>)
    requires Stopping(batch, at)
    ensures ApplyBatch(s, batch).stopReason
         == match at case None => s.stopReason case Some(i) => Some(batch[i].reason)
  {
    if batch != [] && at != Some(|batch| - 1) {
      BatchReason(s, batch[..|batch| - 1], at);
    }
  }

  predicate Answering(batch: seq<Mutation>, at: Option<nat>) {
    match at
    case None => forall j | 0 <= j < |batch| :: !batch[j].SetLastResponse?
    case Some(i) => i < |batch| && batch[i].SetLastResponse? && forall j | i < j < |batch| :: !batch[j].SetLastResponse?
  }

  /** The last response is the one set last, or the old one. */
  lemma {:induction false} BatchResponse(s: AgentState, batch: seq<Mutation>, at: Option<nat>)
    requires Answering(batch, at)
    ensures ApplyBatch(s, batch).lastResponse
         == match at case None => s.lastResponse case Some(i) => Some(batch[i].response)
  {
    if batch != [] && at != Some(|batch| - 1) {
      BatchResponse(s, batch[..|batch| - 1], at);
    }
  }

  // ------------------------------------------------------------------- conservation

  /** What is added up over branches. */
  function SumOver(batches: seq<seq<Mutation>>, f: Field): nat {
    if batches == [] then 0
    else SumOver(batches[..|batches| - 1], f) + Adds(batches[|batches| - 1], f)
  }

  function Adds(batch: seq<Mutation>, f: Field): nat {
    match f
    case Iterations => IterationsIn(batch)
    case ToolCalls => ToolCallsIn(batch)
    case OutputTokens => OutputTokensIn(batch)
    case ReasoningTokens => ReasoningTokensIn(batch)
    case Compactions => CompactionsIn(batch)
  }

  lemma {:induction false} TotalIsSum(base: AgentState, batches: seq<seq<Mutation>>, f: Field)
    ensures Total(Get(base, f), Values(Forked(base, batches), f)) == Get(base, f) + SumOver(batches, f)
    ensures !Lowered(Get(base, f), Values(Forked(base, batches), f))
  {
    var values := Values(Forked(base, batches), f);
    if batches != [] {
      var before, last := batches[..|batches| - 1], batches[|batches| - 1];
      TotalIsSum(base, before, f);
      BatchCounts(base, last);
      assert values[..|values| - 1] == Values(Forked(base, before), f);
      assert values[|values| - 1] == Get(base, f) + Adds(last, f);
      assert values == values[..|values| - 1] + [values[|values| - 1]];
    }
  }

  /** The most iterations of a branch. */
  function MostIterations(batches: seq<seq<Mutation>>): nat {
    if batches == [] then 0
    else
      var most, last := MostIterations(batches[..|batches| - 1]), IterationsIn(batches[|batches| - 1]);
      if last > most then last else most
  }

  lemma {:induction false} HighestIsMost(base: AgentState, batches: seq<seq<Mutation>>)
    ensures Highest(base.iterations, Values(Forked(base, batches), Iterations))
         == base.iterations + MostIterations(batches)
  {
    if batches != [] {
      var values := Values(Forked(base, batches), Iterations);
      HighestIsMost(base, batches[..|batches| - 1]);
      BatchCounts(base, batches[|batches| - 1]);
      assert values[..|values| - 1] == Values(Forked(base, batches[..|batches| - 1]), Iterations);
    }
  }

  /** A merge without conflict raises each accumulator by the sum of its own mutations over all branches, and the
      iterations by the most that one branch made, whatever else the branches do. */
  lemma MergeConserves(base: AgentState, batches: seq<seq<Mutation>>, m: AgentState)
    requires MergesTo(base, Forked(base, batches), m)
    ensures m.toolCalls == base.toolCalls + SumOver(batches, ToolCalls)
    ensures m.outputTokens == base.outputTokens + SumOver(batches, OutputTokens)
    ensures m.reasoningTokens == base.reasoningTokens + SumOver(batches, ReasoningTokens)
    ensures m.compactions == base.compactions + SumOver(batches, Compactions)
    ensures m.iterations == base.iterations + MostIterations(batches)
  {
    hide MessagesMerge, TerminalMerge, Total, Highest, Lowered, Forked, MostIterations, SumOver;
    forall f: Field
      ensures f != Iterations ==> Get(m, f) == Get(base, f) + SumOver(batches, f)
      ensures f == Iterations ==> Get(m, f) == Get(base, f) + MostIterations(batches)
    {
      TotalIsSum(base, batches, f);
      HighestIsMost(base, batches);
      CounterFacts(Get(base, f), Values(Forked(base, batches), f));
      OneIteration(Get(base, f), Values(Forked(base, batches), f));
    }
    assert Get(m, ToolCalls) == m.toolCalls && Get(m, OutputTokens) == m.outputTokens;
    assert Get(m, ReasoningTokens) == m.reasoningTokens && Get(m, Compactions) == m.compactions;
    assert Get(m, Iterations) == m.iterations;
  }

  /** With at most one change the highest value and the total are the same. */
  lemma {:induction false} OneIteration(base: nat, values: seq<nat>)
    requires !Lowered(base, values)
    ensures ChangedCount(base, values) <= 1 ==> Highest(base, values) == Total(base, values)
  {
    CounterFacts(base, values);
    HighestAtLeastBase(base, values);
  }

  /** The counter fields of a merge fail exactly when two branches change one and base and sums leave the
      range. */
  lemma MergeOverflows(base: AgentState, batches: seq<seq<Mutation>>, f: Field)
    ensures CounterFails(Get(base, f), Values(Forked(base, batches), f), f)
       <==> && f != Iterations && Get(base, f) + SumOver(batches, f) > 0xffff_ffff_ffff_ffff
            && ChangedCount(Get(base, f), Values(Forked(base, batches), f)) >= 2
  {
    hide Total, Lowered;
    TotalIsSum(base, batches, f);
  }

  function AppendedOver(batches: seq<seq<Mutation>>): seq<Message> {
    if batches == [] then [] else AppendedOver(batches[..|batches| - 1]) + Appended(batches[|batches| - 1])
  }

  lemma {:induction false} SuffixesAppended(base: AgentState, batches: seq<seq<Mutation>>)
    requires forall batch | batch in batches :: Additive(batch)
    ensures Replacements(base.messages, Forked(base, batches)) == 0
    ensures Suffixes(base.messages, Forked(base, batches)) == AppendedOver(batches)
  {
    if batches != [] {
      hide Additive, ApplyBatch;
      var before, last := batches[..|batches| - 1], batches[|batches| - 1];
      var forked := Forked(base, batches);
      assert batches == before + [last] && last in batches;
      SuffixesAppended(base, before);
      assert forked[..|forked| - 1] == Forked(base, before);
      AdditiveMessages(base, last);
    }
  }

  lemma AdditiveMessages(s: AgentState, batch: seq<Mutation>)
    requires Additive(batch)
    ensures ApplyBatch(s, batch).messages == s.messages + Appended(batch)
    ensures s.messages <= ApplyBatch(s, batch).messages
    ensures ApplyBatch(s, batch).messages[|s.messages|..] == Appended(batch)
  {
    BatchMessages(s, batch, None);
  }

  /** A merge of branches that replace nothing has the base's messages and then everything the branches append, in
      the order of the branches. */
  lemma MergeAppends(base: AgentState, batches: seq<seq<Mutation>>, m: AgentState)
    requires MergesTo(base, Forked(base, batches), m) && forall batch | batch in batches :: Additive(batch)
    ensures m.messages == base.messages + AppendedOver(batches)
  {
    hide Replacements, Suffixes, Additive, Forked, TerminalMerge, CounterValue;
    SuffixesAppended(base, batches);
  }
}
