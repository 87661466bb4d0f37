/**
 What a stop and a submission promise each other, and what a `stop` that says the worker is
 out has seen.
 */
module QueueStops {
  import opened Wrappers
  import opened QueueShared
  import opened QueueProtocol
  import opened QueueInvariant
  import opened QueueTheorems
  import opened QueueRuns

  // ----- when a `stop` that says true is right

  ghost predicate SaysOut(s: State, t: Tid) {
    t in s.callers && s.callers[t] == Idle(StopSaid(true))
  }

  /**
   A stop about to answer is right to say the worker is out exactly when it holds the join
   handle or is about to take it, or the worker has left already.
   */
  lemma StopSaysOut(run: seq<State>, acts: seq<Action>, i: nat, t: Tid)
    requires IsRun(run, acts) && i < |acts| && acts[i] == Step(t) && t in run[i].callers
    requires run[i].callers[t].StopNotify? || run[i].callers[t].StopJoin?
    ensures (SaysOut(run[i + 1], t) ==> run[i + 1].c.worker.Exited?) <==>
      run[i].callers[t].StopJoin? || run[i].c.handle || run[i].c.worker.Exited?
  {
    StepOf(run, acts, i);
  }

  /** And once it waits for the worker: true with the worker out, false only as its grace runs out. */
  lemma JoiningStopAnswers(s: State, t: Tid)
    requires t in s.callers && s.callers[t].StopJoin?
    ensures Next(s, Step(t)).Some? <==> s.c.worker.Exited?
    ensures Next(s, Step(t)).Some? ==> Next(s, Step(t)).value.callers[t] == Idle(StopSaid(true))
    ensures Next(s, GraceOver(t)).Some? && Next(s, GraceOver(t)).value.callers[t] == Idle(StopSaid(false))
  {
  }

  /** The worker, once out, stays out. */
  lemma ExitIsFinal(s: State, a: Action, s': State)
    requires Next(s, a) == Some(s') && s.c.worker.Exited?
    ensures s'.c.worker.Exited?
  {
    if a.Step? && Wants(s.callers[a.t]).None? { DoInstallsNothing(s.c, a.t, s.callers[a.t]); }
  }

  ghost predicate Calls(a: Action, t: Tid) {
    a.Call? && a.t == t
  }

  /** A stop that joined: still waiting, or answered, and a true answer is a right one. */
  ghost predicate JoinedWell(s: State, t: Tid) {
    && t in s.callers
    && (s.callers[t].StopJoin? || s.callers[t] == Idle(StopSaid(false)) || (SaysOut(s, t) && s.c.worker.Exited?))
  }

  lemma JoinKeepsWell(s: State, a: Action, s': State, t: Tid)
    requires Next(s, a) == Some(s') && JoinedWell(s, t) && !Calls(a, t)
    ensures JoinedWell(s', t)
  {
    if s.c.worker.Exited? { ExitIsFinal(s, a, s'); }
  }

  /** A stop that finds the join handle there says true only with the worker out, then and after. */
  lemma {:induction false} FirstStopIsRight(run: seq<State>, acts: seq<Action>, i: nat, j: nat, t: Tid)
    requires IsRun(run, acts) && i < j < |run| && acts[i] == Step(t)
    requires t in run[i].callers && run[i].callers[t].StopNotify? && run[i].c.handle
    requires forall k :: i < k < j ==> !Calls(acts[k], t)
    ensures JoinedWell(run[j], t)
    decreases j
  {
    StepOf(run, acts, j - 1);
    if i < j - 1 {
      FirstStopIsRight(run, acts, i, j - 1, t);
      JoinKeepsWell(run[j - 1], acts[j - 1], run[j], t);
    }
  }

  // ----- a submission beside a stop

  /** Room in the queue decides, stopping or not. */
  lemma SubmitLooksOnlyAtRoom(s: State, t: Tid, s': State)
    requires t in s.callers && s.callers[t].SubmitHold? && Next(s, Step(t)) == Some(s')
    ensures var job := s.callers[t].job;
      if |s.c.d.pending| < s.c.d.maxDepth
      then s'.callers[t] == SubmitNotify(|s.c.d.pending|) && s'.c.d.pending == s.c.d.pending + [job]
           && s'.c.h.accepted == s.c.h.accepted + [job]
      else s'.callers[t] == Idle(Full(|s.c.d.pending|)) && s'.c.d == s.c.d && s'.c.h == s.c.h
  {
  }

  /** From every state a stop can leave behind, a new job is still accepted wherever there is room. */
  lemma StoppedQueueAccepts(run: seq<State>, acts: seq<Action>, t: Tid, job: JobId)
    returns (run': seq<State>, acts': seq<Action>)
    requires IsRun(run, acts) && Last(run).c.d.shutdown && PendingLock !in Last(run).locks
    requires t in Last(run).callers ==> Last(run).callers[t].Idle?
    requires job !in Last(run).c.h.claimant && |Last(run).c.d.pending| < Last(run).c.d.maxDepth
    ensures IsRun(run', acts') && |run| <= |run'| && run'[..|run|] == run
    ensures Last(run').c.d.shutdown && Last(run').c.d.pending == Last(run).c.d.pending + [job]
    ensures job in Last(run').c.h.accepted && t in Last(run').callers && Last(run').callers[t].SubmitNotify?
  {
    run', acts' := Extend(run, acts, Call(t, Submit(job)));
    run', acts' := Extend(run', acts', Step(t));
    run', acts' := Extend(run', acts', Step(t));
  }

  /**
   And it waits there for good: whatever had not started when a stop raised `shutdown` never
   starts, shows as queued, and leaves the queue only if a cancel drops it.
   */
  lemma StoppedQueueKeepsWaiting(run: seq<State>, acts: seq<Action>, i: nat, j: nat, job: JobId)
    requires IsRun(run, acts) && i <= j < |run| && run[i].c.d.shutdown
    requires job !in run[i].c.h.started && job in run[j].c.h.accepted
    ensures job !in run[j].c.h.started && job in run[j].c.cards && run[j].c.cards[job] == NEW_JOB
    ensures job in run[j].c.d.pending <==> job !in run[j].c.h.dropped
  {
    NothingStartsAfterStop(run, acts, i, j);
    UnstartedIsQueued(run, acts, j, job);
  }

  // ----- a second stop, and a submission after one, run by run

  lemma OneJobRunning() returns (run: seq<State>, acts: seq<Action>)
    ensures IsRun(run, acts) && Last(run).c.worker == Separating(7, 0) && Last(run).c.handle
    ensures Last(run).locks == map[] && Last(run).callers.Keys == {0}
    ensures Last(run).c.d.incoming.None?
  {
    run, acts := [Init(1, 0)], [];
    run, acts := Extend(run, acts, Call(0, Submit(7)));
    var submitted := SubmitGoesIn(Last(run));
    run, acts := ExtendTo(run, acts, Step(0), submitted);
    WorkerLooks(submitted);
    var looked := State(submitted.c.(worker := Choose), submitted.callers, map[PendingLock := TheWorker]);
    run, acts := ExtendTo(run, acts, Work(Onwards), looked);
    var popped := WorkerPops(looked);
    run, acts := ExtendTo(run, acts, Work(Onwards), popped);
  }

  lemma SubmitGoesIn(s: State) returns (s': State)
    requires s.callers == map[0 := SubmitWant(7)] && s.locks == map[]
    requires s.c.worker.WantPending? && s.c.d.pending == [] && s.c.d.maxDepth == 1
    ensures Leads(s, Step(0), s')
    ensures s'.callers.Keys == {0} && s'.callers[0].Idle? && s'.locks == map[] && s'.c.worker.WantPending?
    ensures s'.c.d == s.c.d.(pending := [7]) && s'.c.handle == s.c.handle
  {
    var s1 := Next(s, Step(0)).value;
    var s2 := Next(s1, Step(0)).value;
    s' := Next(s2, Step(0)).value;
    assert s'.locks == map[];
    LeadsOne(s, Step(0), s1);
    LeadsTwo(s1, Step(0), s2, s');
    LeadsOn(s, Step(0), s1, s');
  }

  /** One section of a stop, from wanting its lock to wanting the next one. */
  lemma StopSection(s: State, t: Tid, l: Lock, c: Core, pc: Pc)
    requires t in s.callers && Wants(s.callers[t]) == Some(l) && s.locks == map[]
    requires var hold := Granted(s.callers[t]);
      Wants(hold).None? && Do(s.c, t, hold) == Moved(c, pc) && forall k :: !Holds(pc, k)
    ensures Leads(s, Step(t), State(c, s.callers[t := pc], map[]))
  {
    var s1 := State(s.c, s.callers[t := Granted(s.callers[t])], map[l := Caller(t)]);
    assert Next(s, Step(t)) == Some(s1);
    var s2 := State(c, s.callers[t := pc], map[]);
    assert s1.callers[t := pc] == s2.callers;
    assert Settle(s1.locks, t, pc) == map[];
    assert Next(s1, Step(t)) == Some(s2);
    LeadsTwo(s, Step(t), s1, s2);
  }

  /** The middle section takes what is staged, and keeps the lock while it answers. */
  lemma StopTakes(s: State, t: Tid)
    requires t in s.callers && s.callers[t] == StopWantIncoming && s.locks == map[] && s.c.d.incoming.None?
    ensures Leads(s, Step(t), State(s.c, s.callers[t := StopReply(None)], map[IncomingLock := Caller(t)]))
  {
    var s1 := State(s.c, s.callers[t := StopHoldIncoming], map[IncomingLock := Caller(t)]);
    assert Next(s, Step(t)) == Some(s1);
    var s2 := State(s.c, s.callers[t := StopReply(None)], map[IncomingLock := Caller(t)]);
    assert s1.callers[t := StopReply(None)] == s2.callers;
    assert Settle(s1.locks, t, StopReply(None)) == s2.locks;
    assert Next(s1, Step(t)) == Some(s2);
    LeadsTwo(s, Step(t), s1, s2);
  }

  lemma StopAnswersNobody(s: State, t: Tid)
    requires t in s.callers && s.callers[t] == StopReply(None) && s.locks == map[IncomingLock := Caller(t)]
    ensures Leads(s, Step(t), State(s.c, s.callers[t := StopWantRunning], map[]))
  {
    assert Settle(s.locks, t, StopWantRunning) == map[];
    LeadsOne(s, Step(t), State(s.c, s.callers[t := StopWantRunning], map[]));
  }

  lemma StopRaises(s: State, t: Tid)
    requires t in s.callers && s.callers[t] == StopWantPending && s.locks == map[]
    ensures Leads(s, Step(t), State(s.c.(d := RaiseShutdown(s.c.d)), s.callers[t := StopWantIncoming], map[]))
  {
    StopSection(s, t, PendingLock, s.c.(d := RaiseShutdown(s.c.d)), StopWantIncoming);
  }

  lemma StopFindsNothingStaged(s: State, t: Tid)
    requires t in s.callers && s.callers[t] == StopWantIncoming && s.locks == map[] && s.c.d.incoming.None?
    ensures Leads(s, Step(t), State(s.c, s.callers[t := StopWantRunning], map[]))
  {
    StopTakes(s, t);
    var replying := State(s.c, s.callers[t := StopReply(None)], map[IncomingLock := Caller(t)]);
    StopAnswersNobody(replying, t);
    assert replying.callers[t := StopWantRunning] == s.callers[t := StopWantRunning];
    LeadsOn(s, Step(t), replying, State(s.c, s.callers[t := StopWantRunning], map[]));
  }

  lemma StopSignals(s: State, t: Tid) returns (s': State)
    requires t in s.callers && s.callers[t] == StopWantRunning && s.locks == map[]
    ensures Leads(s, Step(t), s')
    ensures s'.callers == s.callers[t := StopNotify] && s'.locks == map[] && s'.c.worker == s.c.worker
    ensures s'.c.handle == s.c.handle && s'.c.d == Signal(s.c.d)
    ensures s'.c.h.claimant == s.c.h.claimant
  {
    s' := State(DoStop(s.c, t, StopHoldRunning).c, s.callers[t := StopNotify], map[]);
    StopSection(s, t, RunningLock, s'.c, StopNotify);
  }

  /** A stop that starts with every lock free reaches its notify with them free again. */
  lemma StopGoesThrough(s: State, t: Tid) returns (s': State)
    requires t in s.callers && s.callers[t] == StopWantPending && s.locks == map[]
    requires s.c.d.incoming.None?
    ensures Leads(s, Step(t), s')
    ensures s'.callers == s.callers[t := StopNotify] && s'.locks == map[] && s'.c.worker == s.c.worker
    ensures s'.c.handle == s.c.handle && s'.c.d == Signal(RaiseShutdown(s.c.d))
    ensures s'.c.h.claimant == s.c.h.claimant
  {
    var raised := State(s.c.(d := RaiseShutdown(s.c.d)), s.callers[t := StopWantIncoming], map[]);
    var taken := State(raised.c, raised.callers[t := StopWantRunning], map[]);
    StopRaises(s, t);
    StopFindsNothingStaged(raised, t);
    s' := StopSignals(taken, t);
    LeadsOn(s, Step(t), raised, taken);
    LeadsOn(s, Step(t), taken, s');
    assert taken.callers[t := StopNotify] == s.callers[t := StopNotify];
  }

  /** A second stop reports the worker out while it is still inside the separator. */
  lemma SecondStopSaysOutTooEarly() returns (run: seq<State>, acts: seq<Action>)
    ensures IsRun(run, acts)
    ensures 2 in Last(run).callers && Last(run).callers[2] == Idle(StopSaid(true))
    ensures Last(run).c.worker.Separating?
  {
    run, acts := OneJobRunning();
    run, acts := StoppedUpToNotify(run, acts, 1);
    run, acts := Extend(run, acts, Step(1));
    run, acts := StoppedUpToNotify(run, acts, 2);
    run, acts := Extend(run, acts, Step(2));
  }

  /** A submission accepted by a queue that a stop has been through. */
  lemma SubmittedAfterStop() returns (run: seq<State>, acts: seq<Action>)
    ensures IsRun(run, acts) && Last(run).c.d.shutdown && Last(run).c.d.pending == [7]
    ensures 7 in Last(run).c.h.accepted && 0 in Last(run).callers && Last(run).callers[0].SubmitNotify?
  {
    run, acts := [Init(1, 0)], [];
    run, acts := Extend(run, acts, Call(1, Stop));
    var through := StopGoesThrough(Last(run), 1);
    run, acts := ExtendTo(run, acts, Step(1), through);
    run, acts := StoppedQueueAccepts(run, acts, 0, 7);
  }

  /** From every state in which a job waits and `pending` is free, a cancel can drop it. */
  lemma WaitingCanBeDropped(run: seq<State>, acts: seq<Action>, t: Tid, job: JobId)
    returns (run': seq<State>, acts': seq<Action>)
    requires IsRun(run, acts) && PendingLock !in Last(run).locks && job in Last(run).c.d.pending
    requires t in Last(run).callers ==> Last(run).callers[t].Idle?
    ensures IsRun(run', acts') && |run| <= |run'| && run'[..|run|] == run
    ensures t in Last(run').callers && Last(run').callers[t] == Idle(CancelSaid(true))
    ensures Last(run').c.d.pending == Without(Last(run).c.d.pending, job)
    ensures job in Last(run').c.h.accepted && job in Last(run').c.h.dropped
    ensures job in Last(run').c.cards && Last(run').c.cards[job] == NEW_JOB
  {
    hide Next, Inv, JobsOk;
    EveryStateIsGood(run, acts, |acts|);
    JobsOf(Last(run));
    QueueHasNoRepeats(Last(run).c);
    var s1, s2, s3 := CancelDrops(Last(run), t, job);
    run', acts' := Extend(run, acts, Call(t, Cancel(job)));
    run', acts' := Extend(run', acts', Step(t));
    run', acts' := Extend(run', acts', Step(t));
    UnstartedIsQueued(run', acts', |acts'|, job);
  }

  lemma JobsOf(s: State)
    requires Inv(s)
    ensures JobsOk(s.c)
  {
  }

  lemma CancelDrops(s: State, t: Tid, job: JobId) returns (s1: State, s2: State, s3: State)
    requires PendingLock !in s.locks && job in s.c.d.pending && (t in s.callers ==> s.callers[t].Idle?)
    ensures Next(s, Call(t, Cancel(job))) == Some(s1) && Next(s1, Step(t)) == Some(s2) && Next(s2, Step(t)) == Some(s3)
    ensures s3.c.d.pending == Without(s.c.d.pending, job) && s3.c.h.dropped == s.c.h.dropped + {job}
    ensures s3.c.h.accepted == s.c.h.accepted && s3.c.h.started == s.c.h.started
    ensures t in s3.callers && s3.callers[t] == Idle(CancelSaid(true))
  {
    s1 := Next(s, Call(t, Cancel(job))).value;
    s2 := Next(s1, Step(t)).value;
    s3 := Next(s2, Step(t)).value;
  }

  /** A job dropped while it waited, still shown as queued. */
  lemma DroppedWhileWaiting() returns (run: seq<State>, acts: seq<Action>)
    ensures IsRun(run, acts) && 7 in Last(run).c.h.accepted && 7 in Last(run).c.h.dropped
    ensures 7 in Last(run).c.cards && Last(run).c.cards[7].stage.Queued?
    ensures Last(run).c.d.pending == [] && 0 in Last(run).callers && Last(run).callers[0] == Idle(CancelSaid(true))
  {
    run, acts := [Init(1, 0)], [];
    run, acts := Extend(run, acts, Call(0, Submit(7)));
    var submitted := SubmitGoesIn(Last(run));
    run, acts := ExtendTo(run, acts, Step(0), submitted);
    run, acts := WaitingCanBeDropped(run, acts, 0, 7);
  }

  lemma StoppedUpToNotify(run: seq<State>, acts: seq<Action>, t: Tid)
    returns (run': seq<State>, acts': seq<Action>)
    requires IsRun(run, acts) && t !in Last(run).callers && Last(run).locks == map[]
    requires Last(run).c.worker.Separating? && Last(run).c.d.incoming.None?
    ensures IsRun(run', acts')
    ensures Last(run').callers == Last(run).callers[t := StopNotify] && Last(run').locks == map[]
    ensures Last(run').c.worker == Last(run).c.worker && Last(run').c.handle == Last(run).c.handle
    ensures Last(run').c.d.incoming.None?
  {
    run', acts' := Extend(run, acts, Call(t, Stop));
    var through := StopGoesThrough(Last(run'), t);
    run', acts' := ExtendTo(run', acts', Step(t), through);
    assert Last(run).callers[t := StopWantPending][t := StopNotify] == Last(run).callers[t := StopNotify];
  }
}
