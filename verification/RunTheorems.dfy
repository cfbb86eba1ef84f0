/** What the durable run protocol promises, for every run of it: any interleaving of frames,
    any number of crashes, failed saves and resumptions, any callers. */
module RunTheorems {
  import opened Wrappers
  import opened GraphCore
  import opened RunModel
  import opened RunInvariant
  import opened RunProtocol
  import opened RunSafety
  import H = RunHistory

  ghost predicate Reachable(pg: Program, m: Machine) {
    exists ms, steps :: IsRun(pg, ms, steps) && m in ms
  }

  lemma ReachableInv(pg: Program, m: Machine)
    requires ProgramOk(pg) && Reachable(pg, m)
    ensures MachineInv(pg, m)
  {
    hide IsRun, MachineInv;
    var ms, steps :| IsRun(pg, ms, steps) && m in ms;
    var i :| 0 <= i < |ms| && ms[i] == m;
    RunInv(pg, ms, steps, i);
  }

  // ------------------------------------------------------------------ records

  /** Every record a run ever saves can be read back, carries its position as revision, and
      charges exactly the steps its frames used. */
  lemma EverySavedRecord(pg: Program, m: Machine, i: nat)
    requires ProgramOk(pg) && Reachable(pg, m) && i < |m.saved|
    ensures Readable(m.saved[i]) && m.saved[i].revision == i
    ensures m.saved[i].stepsUsed == SumSteps(m.saved[i].frames) <= pg.maxSteps
  {
    hide Validate, Readable;
    ReachableInv(pg, m);
    InvValidates(pg, m.saved[i]);
  }

  // -------------------------------------------------------- crash refinement

  /** Frames below a finished frame are finished. */
  lemma {:induction false} AllFinished(pg: Program, r: RunRecord, p: Path)
    requires RecordInv(pg, r) && r.frames[Root].nextNode.None? && p in r.frames
    ensures r.frames[p].nextNode.None? && !r.frames[p].active
  {
    hide EvalNode, Traj, OriginOf, CursorAt;
    assert FrameOk(pg, p, r.frames[p]);
    if p.Child? {
      assert ParentOk(r.frames, p, r.frames[p]);
      AllFinished(pg, r, p.parent);
    }
  }

  /** A finished frame is a function of the program alone. */
  lemma FinishedFrameUnique(pg: Program, p: Path, f: FrameRecord, f': FrameRecord)
    requires FrameOk(pg, p, f) && f.nextNode.None? && FrameOk(pg, p, f') && f'.nextNode.None?
    ensures f == f'
  {
    hide EvalNode, OriginOf;
    var o := OriginOf(pg, p).value;
    TrajEndUnique(pg.answers, p, o.graph, o.input, Commits(f), Commits(f'));
  }

  /** Two records of finished runs of one program have the same frames. */
  lemma {:induction false} FinishedFramesIn(pg: Program, r: RunRecord, r': RunRecord, p: Path)
    requires RecordInv(pg, r) && r.frames[Root].nextNode.None?
    requires RecordInv(pg, r') && r'.frames[Root].nextNode.None?
    requires p in r.frames
    ensures p in r'.frames && r'.frames[p] == r.frames[p]
  {
    hide EvalNode, Traj, OriginOf, CursorAt;
    AllFinished(pg, r, p);
    assert FrameOk(pg, p, r.frames[p]);
    if p.Child? {
      assert ParentOk(r.frames, p, r.frames[p]);
      AllFinished(pg, r, p.parent);
      FinishedFramesIn(pg, r, r', p.parent);
      assert Due(pg, r'.frames, p);
    }
    AllFinished(pg, r', p);
    assert FrameOk(pg, p, r'.frames[p]);
    FinishedFrameUnique(pg, p, r.frames[p], r'.frames[p]);
  }

  /** Crash refinement. Whatever the crashes, resumptions and interleavings of two runs of one
      program were, once both are complete they agree on every frame (its cursor, state and step
      count), on the total of steps, and the state is the one a run without any crash computes. */
  lemma CrashRefinement(pg: Program, m: Machine, m': Machine, i: nat, j: nat)
    requires ProgramOk(pg) && Reachable(pg, m) && Reachable(pg, m')
    requires i < |m.saved| && m.saved[i].status == RunStatus.Completed
    requires j < |m'.saved| && m'.saved[j].status == RunStatus.Completed
    ensures m.saved[i].frames == m'.saved[j].frames
    ensures m.saved[i].stepsUsed == m'.saved[j].stepsUsed
    ensures Root in m.saved[i].frames
    ensures RunResult(pg.answers, Root, pg.graph, pg.input, pg.maxSteps) == Some(m.saved[i].frames[Root].state)
  {
    hide EvalNode, Traj, FramesOk, ApprovalsOk, LogOk, Final;
    ReachableInv(pg, m);
    ReachableInv(pg, m');
    var r, r' := m.saved[i], m'.saved[j];
    assert RecordInv(pg, r) && RecordInv(pg, r');
    forall p ensures p in r.frames <==> p in r'.frames
             ensures p in r.frames ==> r.frames[p] == r'.frames[p]
    {
      if p in r.frames {
        FinishedFramesIn(pg, r, r', p);
      }
      if p in r'.frames {
        FinishedFramesIn(pg, r', r, p);
      }
    }
    RootResult(pg, r);
  }

  /** The same without a word on what tasks answer. Two courses of one program that record no different results
      of a task, and complete, end alike; and the state is the one a run without any crash computes from
      whatever answers agree with the results recorded. */
  lemma CoursesRefine(pg: Program, ms: seq<Machine>, steps: seq<Step>, ms': seq<Machine>, steps': seq<Step>)
    requires ProgramOk(pg) && IsCourse(pg, ms, steps) && IsCourse(pg, ms', steps')
    requires H.Compatible(ms[|steps|], ms'[|steps'|])
    requires ms[|steps|].saved != [] && Last(ms[|steps|]).status == RunStatus.Completed
    requires ms'[|steps'|].saved != [] && Last(ms'[|steps'|]).status == RunStatus.Completed
    ensures Last(ms[|steps|]).frames == Last(ms'[|steps'|]).frames
    ensures Last(ms[|steps|]).stepsUsed == Last(ms'[|steps'|]).stepsUsed && Root in Last(ms[|steps|]).frames
    ensures forall w | H.Fits(w, ms[|steps|]) ::
              RunResult(w, Root, pg.graph, pg.input, pg.maxSteps) == Some(Last(ms[|steps|]).frames[Root].state)
  {
    hide IsRun, StepOf, H.Compatible, H.Fits, RunResult;
    var m, m' := ms[|steps|], ms'[|steps'|];
    var both := H.TwoRunsAnswered(pg, ms, steps, ms', steps');
    EndReachable(pg.(answers := both), ms, steps);
    EndReachable(pg.(answers := both), ms', steps');
    CrashRefinement(pg.(answers := both), m, m', |m.saved| - 1, |m'.saved| - 1);
    forall w | H.Fits(w, m)
      ensures RunResult(w, Root, pg.graph, pg.input, pg.maxSteps) == Some(Last(m).frames[Root].state)
    {
      H.EveryRunIsAnswered(pg, ms, steps, w);
      EndReachable(pg.(answers := w), ms, steps);
      CrashRefinement(pg.(answers := w), m, m, |m.saved| - 1, |m.saved| - 1);
    }
  }

  lemma EndReachable(pg: Program, ms: seq<Machine>, steps: seq<Step>)
    requires IsRun(pg, ms, steps)
    ensures Reachable(pg, ms[|steps|])
  {
    hide StepOf, RecordsAnswered;
    assert ms[|steps|] in ms;
  }

  lemma RootResult(pg: Program, r: RunRecord)
    requires RecordInv(pg, r) && r.frames[Root].nextNode.None?
    ensures RunResult(pg.answers, Root, pg.graph, pg.input, pg.maxSteps) == Some(r.frames[Root].state)
  {
    hide EvalNode, Traj, Final;
    var f := r.frames[Root];
    AllFinished(pg, r, Root);
    assert FrameOk(pg, Root, f);
    RootCursor(pg, f);
    FinalFromTraj(pg.answers, Root, pg.graph, pg.input, 0, Commits(f), pg.maxSteps);
  }

  lemma RootCursor(pg: Program, f: FrameRecord)
    requires FrameOk(pg, Root, f)
    ensures Traj(pg.answers, Root, pg.graph, pg.input, Commits(f)) == Some(Cursor(f.nextNode, f.state))
    ensures f.stepsUsed <= pg.maxSteps
    ensures Traj(pg.answers, Root, pg.graph, pg.input, 0) == Some(Cursor(Some(pg.graph.start), pg.input))
  {
  }

  /** The commits a frame makes are the steps of its graph's meaning, in order, over all sessions;
      so two runs of one program never disagree on a commit. */
  lemma CommitSequence(pg: Program, m: Machine, m': Machine, p: Path, k: nat)
    requires ProgramOk(pg) && Reachable(pg, m) && Reachable(pg, m')
    requires k < |CommitsOf(m.commits, p)| && k < |CommitsOf(m'.commits, p)|
    ensures EventOk(pg, p, k, CommitsOf(m.commits, p)[k])
    ensures CommitsOf(m.commits, p)[k] == CommitsOf(m'.commits, p)[k]
  {
    hide EvalNode, Traj, OriginOf, CursorAt, RecordInv;
    ReachableInv(pg, m);
    ReachableInv(pg, m');
    FrameLog(pg, m, p);
    FrameLog(pg, m', p);
    CommitsOfFrame(m.commits, p, k);
    CommitsOfFrame(m'.commits, p, k);
  }

  lemma FrameLog(pg: Program, m: Machine, p: Path)
    requires MachineInv(pg, m)
    ensures m.saved != [] ==> FrameLogOk(pg, m.commits, Last(m).frames, p)
    ensures m.saved == [] ==> CommitsOf(m.commits, p) == []
  {
  }

  lemma {:induction false} CommitsOfFrame(log: seq<CommitEvent>, p: Path, k: nat)
    requires k < |CommitsOf(log, p)|
    ensures CommitsOf(log, p)[k].frame == p
  {
    var before := CommitsOf(log[..|log| - 1], p);
    if k < |before| {
      CommitsOfFrame(log[..|log| - 1], p, k);
    }
  }

  /** The root frame has come to its end, as in every Completed record. */
  predicate RootDone(r: RunRecord) {
    Root in r.frames && r.frames[Root].nextNode.None?
  }

  /** Two runs whose root frames are done have made the same commits in every frame, all of them. */
  lemma CommitsAgree(pg: Program, m: Machine, m': Machine, p: Path)
    requires ProgramOk(pg) && Reachable(pg, m) && Reachable(pg, m')
    requires m.saved != [] && m'.saved != [] && RootDone(Last(m)) && RootDone(Last(m'))
    ensures CommitsOf(m.commits, p) == CommitsOf(m'.commits, p)
  {
    hide CommitsOf, EventOk, RecordInv, FrameOk;
    ReachableInv(pg, m);
    ReachableInv(pg, m');
    LastOk(pg, m);
    LastOk(pg, m');
    SameCounts(pg, Last(m), Last(m'), p);
    FrameLog(pg, m, p);
    FrameLog(pg, m', p);
    forall k | 0 <= k < |CommitsOf(m.commits, p)|
      ensures CommitsOf(m.commits, p)[k] == CommitsOf(m'.commits, p)[k]
    {
      CommitSequence(pg, m, m', p, k);
    }
  }

  lemma LastOk(pg: Program, m: Machine)
    requires MachineInv(pg, m) && m.saved != []
    ensures RecordInv(pg, Last(m))
  {
  }

  lemma SameCounts(pg: Program, r: RunRecord, r': RunRecord, p: Path)
    requires RecordInv(pg, r) && RootDone(r) && RecordInv(pg, r') && RootDone(r')
    ensures CommitCount(r.frames, p) == CommitCount(r'.frames, p)
  {
    hide RecordInv;
    if p in r.frames {
      FinishedFramesIn(pg, r, r', p);
    }
    if p in r'.frames {
      FinishedFramesIn(pg, r', r, p);
    }
  }

  /** What End ends. A frame one of whose commits is of a leaf that returned End has made no commit after it:
      the frame is finished, with the state the leaf returned. */
  lemma EndIsLast(pg: Program, m: Machine, p: Path, k: nat, s: Json)
    requires ProgramOk(pg) && Reachable(pg, m) && k < |CommitsOf(m.commits, p)|
    requires OriginOf(pg, p).Some? && CursorAt(pg, p, k).Some?
    requires var node, g := CommitsOf(m.commits, p)[k].node, OriginOf(pg, p).value.graph;
      && node in g.nodes && g.nodes[node].Leaf?
      && Replay(pg.answers, InvocationId(p, node, k + 1), g.nodes[node].run(CursorAt(pg, p, k).value.state))
         == Some(Done(s, End))
    ensures |CommitsOf(m.commits, p)| == k + 1
    ensures CommitsOf(m.commits, p)[k].state == s && CommitsOf(m.commits, p)[k].next == None
    ensures m.saved != [] && p in Last(m).frames
    ensures Last(m).frames[p].nextNode == None && Last(m).frames[p].state == s
  {
    hide EvalNode, Traj, OriginOf, RecordInv, Replay;
    ReachableInv(pg, m);
    FrameLog(pg, m, p);
    LastOk(pg, m);
    var o, ev := OriginOf(pg, p).value, CommitsOf(m.commits, p)[k];
    assert EventOk(pg, p, k, ev);
    EndEndsRun(pg.answers, p, o.graph, o.input, k, ev.node, CursorAt(pg, p, k).value.state, s, 0);
    NotAtEnd(pg, m.commits, p);
    RecordedFrame(pg, Last(m), p);
  }

  lemma NotAtEnd(pg: Program, log: seq<CommitEvent>, p: Path)
    requires forall k | 0 <= k < |CommitsOf(log, p)| :: EventOk(pg, p, k, CommitsOf(log, p)[k])
    ensures forall k | 0 <= k < |CommitsOf(log, p)| :: CursorAt(pg, p, k).Some? && CursorAt(pg, p, k).value.node.Some?
  {
    hide CursorAt;
    forall k | 0 <= k < |CommitsOf(log, p)|
      ensures CursorAt(pg, p, k).Some? && CursorAt(pg, p, k).value.node.Some?
    {
      assert EventOk(pg, p, k, CommitsOf(log, p)[k]);
    }
  }

  // ------------------------------------------------------------- conservation

  /** The frames, charged with their commits alone. */
  function Charged(log: seq<CommitEvent>, frames: map<Path, FrameRecord>): map<Path, FrameRecord> {
    map p | p in frames :: frames[p].(stepsUsed := |CommitsOf(log, p)|)
  }

  lemma {:induction false} SumMonotone(frames: map<Path, FrameRecord>, frames': map<Path, FrameRecord>)
    requires frames.Keys == frames'.Keys && forall p | p in frames :: frames[p].stepsUsed <= frames'[p].stepsUsed
    ensures SumSteps(frames) <= SumSteps(frames')
    decreases |frames|
  {
    if frames != map[] {
      var p :| p in frames;
      SumStepsRemove(frames, p);
      SumStepsRemove(frames', p);
      SumMonotone(frames - {p}, frames' - {p});
    }
  }

  lemma {:induction false} SumOfNothing(frames: map<Path, FrameRecord>)
    requires forall p | p in frames :: frames[p].stepsUsed == 0
    ensures SumSteps(frames) == 0
    decreases |frames|
  {
    if frames != map[] {
      var p :| p in frames;
      SumStepsRemove(frames, p);
      SumOfNothing(frames - {p});
    }
  }

  /** Every commit of the log is a commit of one frame. */
  lemma {:induction false} CommitsAddUp(log: seq<CommitEvent>, frames: map<Path, FrameRecord>)
    requires forall ev | ev in log :: ev.frame in frames
    ensures SumSteps(Charged(log, frames)) == |log|
  {
    if log == [] {
      SumOfNothing(Charged(log, frames));
    } else {
      var before, p := log[..|log| - 1], log[|log| - 1].frame;
      assert log == before + [log[|log| - 1]];
      CommitsAddUp(before, frames);
      var one := frames[p].(stepsUsed := |CommitsOf(log, p)|);
      SumStepsUpdate(Charged(before, frames), p, one);
      assert Charged(log, frames) == Charged(before, frames)[p := one];
    }
  }

  lemma {:induction false} CommitCounted(log: seq<CommitEvent>, ev: CommitEvent)
    requires ev in log
    ensures |CommitsOf(log, ev.frame)| > 0
  {
    if ev != log[|log| - 1] {
      assert log == log[..|log| - 1] + [log[|log| - 1]];
      CommitCounted(log[..|log| - 1], ev);
    }
  }

  /** Over all sessions together, the commits of all frames never exceed the steps charged, nor these the
      budget of the run: however a graph cycles and however often it crashes, a run ends. */
  lemma CommitsBounded(pg: Program, m: Machine)
    requires ProgramOk(pg) && Reachable(pg, m) && m.saved != []
    ensures |m.commits| <= Last(m).stepsUsed <= pg.maxSteps
  {
    hide EvalNode, Traj, OriginOf, CursorAt;
    ReachableInv(pg, m);
    var frames := Last(m).frames;
    forall ev | ev in m.commits
      ensures ev.frame in frames
    {
      CommitCounted(m.commits, ev);
      FrameLog(pg, m, ev.frame);
    }
    CommitsAddUp(m.commits, frames);
    forall p | p in frames
      ensures |CommitsOf(m.commits, p)| <= frames[p].stepsUsed
    {
      FrameLog(pg, m, p);
    }
    SumMonotone(Charged(m.commits, frames), frames);
  }

  /** Taking up an invocation that a crash interrupted charges nothing and keeps its number, and so the
      identity of its approval and of its tasks. */
  lemma ReentryIsFree(pg: Program, m: Machine, p: Path, m': Machine)
    requires ProgramOk(pg) && Reachable(pg, m) && BeginStep(m, p, m')
    requires p in m.session.value.record.frames && m.session.value.record.frames[p].active
    ensures m.saved != [] && Last(m) == m.session.value.record
    ensures m'.saved != [] && Last(m').stepsUsed == Last(m).stepsUsed && Last(m').frames == Last(m).frames
    ensures m'.session.Some? && p in m'.session.value.threads
    ensures m'.session.value.threads[p].InNode? ==>
              m'.session.value.threads[p].invocation == Last(m).frames[p].stepsUsed
  {
    hide MachineInv, Reachable;
    ReachableInv(pg, m);
    LiveRecord(pg, m);
  }

  lemma LiveRecord(pg: Program, m: Machine)
    requires MachineInv(pg, m) && Live(m)
    ensures m.saved != [] && Last(m) == m.session.value.record
  {
    hide StoreOk, PaidOk, ThreadsOk, InFlightOk;
  }

  // ---------------------------------------------------------------- approvals

  /** What was approved is what runs: every commit past a barrier has its own request, for that
      very invocation, with an Approve receipt, and the committed state is the reviewed content. */
  lemma ApprovedIsWhatRuns(pg: Program, m: Machine, p: Path, k: nat)
    requires ProgramOk(pg) && Reachable(pg, m) && k < |CommitsOf(m.commits, p)|
    requires OriginOf(pg, p).Some? && IsBarrier(OriginOf(pg, p).value.graph, CommitsOf(m.commits, p)[k].node)
    ensures var ev := CommitsOf(m.commits, p)[k];
            var id := InvocationId(p, ev.node, k + 1);
            && m.saved != [] && id in Last(m).approvals
            && Approved(Last(m).approvals[id]) && Last(m).approvals[id].applied
            && Last(m).approvals[id].content == ev.state
  {
    hide OriginOf, Traj, Route;
    ReachableInv(pg, m);
    FrameLog(pg, m, p);
    var ev := CommitsOf(m.commits, p)[k];
    var id := InvocationId(p, ev.node, k + 1);
    assert EventOk(pg, p, k, ev);
    assert PassedBarrier(pg, Last(m), id);
    assert ApprovalOk(pg, Last(m), id, Last(m).approvals[id]);
    BarrierKeepsState(pg, p, k, ev);
  }

  lemma BarrierKeepsState(pg: Program, p: Path, k: nat, ev: CommitEvent)
    requires OriginOf(pg, p).Some? && IsBarrier(OriginOf(pg, p).value.graph, ev.node) && EventOk(pg, p, k, ev)
    ensures CursorAt(pg, p, k).value.state == ev.state
  {
  }

  /** A rejected invocation is never committed past. */
  lemma RejectedNeverRuns(pg: Program, m: Machine, id: InvocationId)
    requires ProgramOk(pg) && Reachable(pg, m) && m.saved != []
    requires id in Last(m).approvals && Last(m).approvals[id].receipt.Some?
    requires Last(m).approvals[id].receipt.value.decision.Reject?
    ensures |CommitsOf(m.commits, id.frame)| < id.invocation
  {
    hide EvalNode, Traj, OriginOf, CursorAt;
    ReachableInv(pg, m);
    FrameLog(pg, m, id.frame);
    assert ApprovalOk(pg, Last(m), id, Last(m).approvals[id]);
  }

  // -------------------------------------------------------------------- tasks

  /** A task under manual recovery is launched at most once, plus once per authorised retry. */
  lemma AtMostOnce(pg: Program, m: Machine, id: TaskId)
    requires ProgramOk(pg) && Reachable(pg, m) && m.saved != []
    requires id in Last(m).tasks && Last(m).tasks[id].policy == ManualRecovery
    ensures multiset(m.launches)[id] <= 1 + Retries(Last(m).tasks[id].resolutions)
    ensures Last(m).tasks[id].attempts == Retries(Last(m).tasks[id].resolutions)
              + (if Last(m).tasks[id].status == TaskStatus.Planned then 0 else 1)
  {
    hide EvalNode, Traj, OriginOf, CursorAt, LogOk, FramesOk, ApprovalsOk;
    ReachableInv(pg, m);
    assert TaskOk(id, Last(m).tasks[id]);
  }
}
