/**
 Every call comes to an end: a measure that each action but a new call takes down, so that
 threads left to themselves arrive where `NoDeadlock` says everybody has been answered.
 */
module QueueMeasure {
  import opened Wrappers
  import opened QueueShared
  import opened QueueProtocol
  import opened QueueInvariant
  import opened QueueTheorems
  import opened QueueRuns

  /** Steps to the end of a pass that starts by wanting `pending`. */
  const PASS := 5
  /** Steps a waiting job, and a staged model, add to a pass. */
  const JOB := 18
  const SWAP := 8

  // ----- steps still due

  ghost function RestDue(rest: Rest): nat {
    match rest
    case SetWriting => 8
    case Filing => 7
    case SetEntry => 6
    case SetResult => 5
    case SetDone => 4
    case SetCancelled => 4
    case SetError => 5
    case SetFailed => 4
    case Returning => 3
    case CaughtError => 2
    case CaughtFailed => 1
  }

  ghost function WorkerDue(w: WorkerPc): nat {
    match w
    case WantPending => PASS
    case HoldPending => 4
    case WantIncoming => 3
    case HoldIncoming => 2
    case Choose => 1
    case Parked => 0
    case Exited => 0
    case WantRegister(_, _) => PASS + 13
    case HoldRegister(_, _) => PASS + 12
    case Separating(_, _) => PASS + 11
    case Ending(_, _, rest) => PASS + 2 + RestDue(rest)
    case WantClear(_, _) => PASS + 2
    case HoldClear(_, _) => PASS + 1
    case Building(_) => PASS + 4
    case Publishing(_) => PASS + 3
    case Replying(_, _) => PASS + 2
    case Swapping(_) => PASS + 1
  }

  /** Whoever notifies may send the worker round again, and pays for the pass. */
  ghost function CallerDue(pc: Pc): nat {
    match pc
    case Idle(_) => 0
    case SubmitWant(_) => PASS + JOB + 3
    case SubmitHold(_) => PASS + JOB + 2
    case SubmitNotify(_) => PASS + 1
    case CancelWantPending(_) => 4
    case CancelHoldPending(_) => 3
    case CancelWantRunning(_, _) => 2
    case CancelHoldRunning(_, _) => 1
    case InstallWantPending(_) => PASS + SWAP + 7
    case InstallHoldPending(_) => PASS + SWAP + 6
    case InstallWantIncoming(_) => PASS + SWAP + 5
    case InstallHoldIncoming(_) => PASS + SWAP + 4
    case InstallSupersede(_, _) => PASS + 3
    case InstallNotify(_) => PASS + 2
    case InstallReceive(_) => 1
    case StopWantPending => PASS + 9
    case StopHoldPending => PASS + 8
    case StopWantIncoming => PASS + 7
    case StopHoldIncoming => PASS + 6
    case StopReply(_) => PASS + 5
    case StopWantRunning => PASS + 4
    case StopHoldRunning => PASS + 3
    case StopNotify => PASS + 2
    case StopJoin => 1
    case PeekWant(_) => 2
    case PeekHold(_) => 1
  }

  ghost function CoreDue(c: Core): nat {
    WorkerDue(c.worker) + JOB * |c.d.pending| + (if c.d.incoming.Some? then SWAP else 0)
  }

  ghost function CallersDue(callers: map<Tid, Pc>): nat
    decreases |callers|
  {
    if callers == map[] then 0
    else
      var t :| t in callers;
      CallerDue(callers[t]) + CallersDue(callers - {t})
  }

  ghost function Due(s: State): nat {
    CoreDue(s.c) + CallersDue(s.callers)
  }

  /** Whichever caller is counted first. */
  lemma {:induction false} CallersDueWithout(callers: map<Tid, Pc>, t: Tid)
    requires t in callers
    ensures CallersDue(callers) == CallerDue(callers[t]) + CallersDue(callers - {t})
    decreases |callers|
  {
    var u :| u in callers && CallersDue(callers) == CallerDue(callers[u]) + CallersDue(callers - {u});
    if u != t {
      CallersDueWithout(callers - {u}, t);
      CallersDueWithout(callers - {t}, u);
      assert callers - {u} - {t} == callers - {t} - {u};
    }
  }

  lemma CallersDueAfter(callers: map<Tid, Pc>, t: Tid, pc: Pc)
    requires t in callers
    ensures CallersDue(callers[t := pc]) + CallerDue(callers[t]) == CallersDue(callers) + CallerDue(pc)
  {
    CallersDueWithout(callers, t);
    CallersDueWithout(callers[t := pc], t);
    assert callers[t := pc] - {t} == callers - {t};
  }

  // ----- every action takes it down

  lemma GrantedDue(pc: Pc)
    requires Wants(pc).Some?
    ensures CallerDue(Granted(pc)) < CallerDue(pc)
  {
  }

  lemma CancelDue(c: Core, pc: Pc)
    requires DoCancel(c, pc).Moved?
    ensures CoreDue(DoCancel(c, pc).c) + CallerDue(DoCancel(c, pc).pc) < CoreDue(c) + CallerDue(pc)
  {
    if pc.CancelHoldPending? { WithoutMembers(c.d.pending, pc.job, pc.job); }
  }

  lemma DoDue(c: Core, t: Tid, pc: Pc)
    requires Do(c, t, pc).Moved?
    ensures CoreDue(Do(c, t, pc).c) + CallerDue(Do(c, t, pc).pc) < CoreDue(c) + CallerDue(pc)
  {
    if Do(c, t, pc) == DoCancel(c, pc) { CancelDue(c, pc); }
  }

  lemma NextDue(c: Core)
    requires WorkNext(c).Some?
    ensures CoreDue(WorkNext(c).value) < CoreDue(c)
  {
  }

  lemma BuildDue(c: Core, turn: Turn)
    requires WorkInstall(c, turn).Some?
    ensures CoreDue(WorkInstall(c, turn).value) < CoreDue(c)
  {
  }

  lemma SeparateDue(c: Core, turn: Turn)
    requires WorkSeparate(c, turn).Some?
    ensures var c' := WorkSeparate(c, turn).value;
      if turn.Report? && c.worker.Separating? then CoreDue(c') == CoreDue(c) else CoreDue(c') < CoreDue(c)
  {
  }

  lemma EndDue(c: Core, turn: Turn)
    requires WorkEnd(c, turn).Some?
    ensures CoreDue(WorkEnd(c, turn).value) < CoreDue(c)
  {
  }

  lemma WorkDue(c: Core, turn: Turn)
    requires DoWork(c, turn).Some?
    ensures var c' := DoWork(c, turn).value;
      if turn.Report? && c.worker.Separating? then CoreDue(c') == CoreDue(c) else CoreDue(c') < CoreDue(c)
  {
    hide WorkNext, WorkInstall, WorkSeparate, WorkEnd, CoreDue;
    match c.worker
    case Separating(_, _) => SeparateDue(c, turn);
    case HoldClear(_, _) => SeparateDue(c, turn);
    case Ending(_, _, _) => EndDue(c, turn);
    case Building(_) => BuildDue(c, turn);
    case Publishing(_) => BuildDue(c, turn);
    case Replying(_, _) => BuildDue(c, turn);
    case Swapping(_) => BuildDue(c, turn);
    case _ => NextDue(c);
  }

  /** Only a new call adds to what is due; a report leaves it, and everything else takes from it. */
  lemma EveryActionCounts(s: State, a: Action, s': State)
    requires Next(s, a) == Some(s') && !a.Call?
    ensures if Reports(s, a) then Due(s') == Due(s) else Due(s') < Due(s)
  {
    hide Do, DoWork, CallersDue, CoreDue;
    match a
    case GraceOver(t) => CallersDueAfter(s.callers, t, s'.callers[t]);
    case Step(t) =>
      CallersDueAfter(s.callers, t, s'.callers[t]);
      if Wants(s.callers[t]).Some? { GrantedDue(s.callers[t]); } else { DoDue(s.c, t, s.callers[t]); }
    case Work(turn) =>
      if WorkerWants(s.c.worker).None? { WorkDue(s.c, turn); } else { WorkerGrantDue(s.c); }
  }

  lemma WorkerGrantDue(c: Core)
    requires WorkerWants(c.worker).Some?
    ensures CoreDue(c.(worker := WorkerGranted(c.worker))) < CoreDue(c)
  {
  }

  // ----- and so runs end

  /** How many of the actions from `i` up to `j` are more than a report. */
  ghost function Moves(run: seq<State>, acts: seq<Action>, i: nat, j: nat): nat
    requires i <= j <= |acts| < |run|
    decreases j
  {
    if i == j then 0 else Moves(run, acts, i, j - 1) + (if Reports(run[j - 1], acts[j - 1]) then 0 else 1)
  }

  /** Without new calls the threads take no more steps than are due. */
  lemma {:induction false} CallsRunOut(run: seq<State>, acts: seq<Action>, i: nat, j: nat)
    requires IsRun(run, acts) && i <= j <= |acts|
    requires forall k :: i <= k < j ==> !acts[k].Call?
    ensures Moves(run, acts, i, j) + Due(run[j]) <= Due(run[i])
    decreases j
  {
    hide Next, Due;
    if i < j {
      CallsRunOut(run, acts, i, j - 1);
      StepOf(run, acts, j - 1);
      EveryActionCounts(run[j - 1], acts[j - 1], run[j]);
    }
  }

  /**
   Every call comes back: a run goes on without new calls for at most the steps that are due,
   and wherever it then stops for want of a thread that can move, it is quiescent.
   */
  lemma EveryCallComesBack(run: seq<State>, acts: seq<Action>, i: nat)
    requires IsRun(run, acts) && i <= |acts|
    requires forall k :: i <= k < |acts| ==> !acts[k].Call?
    ensures Moves(run, acts, i, |acts|) <= Due(run[i])
    ensures Moves(run, acts, i, |acts|) == Due(run[i]) || !CanMove(Last(run)) ==> !CanMove(Last(run)) && Quiescent(Last(run))
  {
    hide Next, Due;
    CallsRunOut(run, acts, i, |acts|);
    assert Last(run) == run[|acts|];
    if CanMove(Last(run)) { MovingIsDue(Last(run)); } else { StuckIsQuiescent(run, acts); }
  }

  lemma StuckIsQuiescent(run: seq<State>, acts: seq<Action>)
    requires IsRun(run, acts) && !CanMove(Last(run))
    ensures Quiescent(Last(run))
  {
    hide CanMove, Quiescent, Next;
    NoDeadlock(run, acts, |acts|);
  }

  lemma MovingIsDue(s: State)
    requires CanMove(s)
    ensures Due(s) > 0
  {
    hide Next, Due;
    var a: Action :| (a.Step? || a.Work?) && !Reports(s, a) && Next(s, a).Some?;
    EveryActionCounts(s, a, Next(s, a).value);
  }

  /** Where a queue nobody stopped comes to rest, every job it accepted was dropped or has ended. */
  lemma EveryJobEnds(run: seq<State>, acts: seq<Action>, i: nat, job: JobId)
    requires IsRun(run, acts) && i < |run| && Quiescent(run[i]) && !run[i].c.d.shutdown
    requires job in run[i].c.h.accepted
    ensures job in run[i].c.cards
    ensures job in run[i].c.h.dropped || Settled(run[i].c.cards[job])
  {
    if job in run[i].c.h.started { LeftMeansTerminal(run, acts, i, job); } else { UnstartedIsQueued(run, acts, i, job); }
  }

  /** And it can always be brought there: no run is ever stuck with a caller still waiting. */
  lemma {:induction false} EveryRunCanFinish(run: seq<State>, acts: seq<Action>)
    returns (run': seq<State>, acts': seq<Action>)
    requires IsRun(run, acts)
    ensures IsRun(run', acts') && |acts| <= |acts'| && |run| <= |run'|
    ensures acts'[..|acts|] == acts && run'[..|run|] == run
    ensures forall k :: |acts| <= k < |acts'| ==> !acts'[k].Call?
    ensures Quiescent(Last(run'))
    decreases Due(Last(run))
  {
    hide Next, Due, Quiescent;
    run', acts' := run, acts;
    if CanMove(Last(run)) {
      var a: Action :| (a.Step? || a.Work?) && !Reports(Last(run), a) && Next(Last(run), a).Some?;
      EveryActionCounts(Last(run), a, Next(Last(run), a).value);
      run', acts' := Extend(run, acts, a);
      run', acts' := EveryRunCanFinish(run', acts');
    } else {
      EveryCallComesBack(run, acts, |acts|);
    }
  }
}
