/**
 What the queue promises over every run: every interleaving of any number of callers
 with the worker, from the moment `start` has loaded the first model.
 */
module QueueTheorems {
  import opened Wrappers
  import opened QueueShared
  import opened QueueProtocol
  import opened QueueInvariant
  import R = JobRegistry

  ghost predicate IsRun(run: seq<State>, acts: seq<Action>) {
    && |run| == |acts| + 1
    && (exists maxDepth, model :: run[0] == Init(maxDepth, model))
    && (forall i :: 0 <= i < |acts| ==> Next(run[i], acts[i]) == Some(run[i + 1]))
  }

  lemma {:induction false} EveryStateIsGood(run: seq<State>, acts: seq<Action>, i: nat)
    requires IsRun(run, acts) && i < |run|
    ensures Inv(run[i])
  {
    if i == 0 {
      var maxDepth, model :| run[0] == Init(maxDepth, model);
      InitIsGood(maxDepth, model);
    } else {
      EveryStateIsGood(run, acts, i - 1);
      InvKept(run[i - 1], acts[i - 1], run[i]);
    }
  }

  // ----- waking and waiting

  /** `t` has changed something the worker must see, and has yet to notify it. */
  ghost predicate YetToNotify(s: State, t: Tid) {
    t in s.callers
    && (s.callers[t].SubmitNotify? || InstallBeforeNotify(s.callers[t]) || StopBeforeNotify(s.callers[t]))
  }

  lemma NoLostWakeup(run: seq<State>, acts: seq<Action>, i: nat)
    requires IsRun(run, acts) && i < |run| && run[i].c.worker.Parked?
    ensures (run[i].c.d.pending == [] && run[i].c.d.incoming.None? && !run[i].c.d.shutdown)
            || exists t :: YetToNotify(run[i], t)
  {
    EveryStateIsGood(run, acts, i);
    if run[i].c.d.pending != [] || run[i].c.d.incoming.Some? || run[i].c.d.shutdown { SomebodyWillTell(run[i]); }
  }

  lemma SomebodyWillTell(s: State)
    requires WakeOk(s)
    requires (s.c.d.shutdown && s.c.d.incoming.Some?)
             || (s.c.worker.Parked? && (s.c.d.pending != [] || s.c.d.incoming.Some? || s.c.d.shutdown))
    ensures exists t :: YetToNotify(s, t)
  {
    if s.c.d.shutdown && s.c.d.incoming.Some? {
      var t :| t in s.callers && StopBeforeTake(s.callers[t]);
      assert YetToNotify(s, t);
    } else if s.c.d.pending != [] {
      var t :| t in s.callers && s.callers[t].SubmitNotify?;
      assert YetToNotify(s, t);
    } else if s.c.d.incoming.Some? {
      var t :| t in s.callers && InstallBeforeNotify(s.callers[t]);
      assert YetToNotify(s, t);
    } else {
      var t :| t in s.callers && StopBeforeNotify(s.callers[t]);
      assert YetToNotify(s, t);
    }
  }

  ghost predicate WaitsFor(s: State, o: Owner, l: Lock) {
    match o
    case TheWorker => WorkerWants(s.c.worker) == Some(l)
    case Caller(t) => t in s.callers && Wants(s.callers[t]) == Some(l)
  }

  /** `pending` comes first: whoever waits for it holds nothing, and whoever holds one of
      the other two waits for nothing.  So a chain of waiting threads never closes. */
  lemma LocksAreOrdered(s: State, o: Owner, l: Lock, held: Lock)
    requires Inv(s) && WaitsFor(s, o, l) && held in s.locks && s.locks[held] == o
    ensures held == PendingLock && l != PendingLock
  {
    match o
    case TheWorker =>
    case Caller(t) =>
      assert Holds(s.callers[t], held);
  }

  /** A separator at work says how far it is. */
  ghost predicate Reports(s: State, a: Action) {
    a.Work? && a.turn.Report? && s.c.worker.Separating?
  }

  /** Somebody can get on; a report is not getting on. */
  ghost predicate CanMove(s: State) {
    exists a: Action :: (a.Step? || a.Work?) && !Reports(s, a) && Next(s, a).Some?
  }

  /** The worker moves wherever it is not parked or gone and no lock it wants is held. */
  lemma WorkerSteps(s: State)
    requires InstallsOk(s.c) && !s.c.worker.Parked? && !s.c.worker.Exited?
    requires WorkerWants(s.c.worker).Some? ==> WorkerWants(s.c.worker).value !in s.locks
    ensures CanMove(s)
  {
    var w := s.c.worker;
    if w.Building? { assert Next(s, Work(BuildOk)).Some?; }
    else if w.Separating? { assert Next(s, Work(SeparateErr)).Some?; }
    else if w.Ending? { assert Next(s, Work(WriteErr)).Some?; }
    else { assert Next(s, Work(Onwards)).Some?; }
  }

  lemma InnerWorkerWantsNothing(w: WorkerPc, l: Lock)
    requires WorkerHolds(w, l) && l != PendingLock
    ensures WorkerWants(w).None? && !w.Parked? && !w.Exited?
  {
  }

  lemma InnerCallerIsBusy(pc: Pc, l: Lock)
    requires Holds(pc, l) && l != PendingLock
    ensures !pc.Idle? && Wants(pc).None? && !pc.InstallReceive? && !pc.StopJoin?
  {
  }

  /** Whatever holds a lock other than `pending` can move; so can whatever waits for a free one. */
  lemma InnerHolderMoves(s: State, l: Lock)
    requires Inv(s) && l in s.locks && l != PendingLock
    ensures CanMove(s)
  {
    hide CanMove, CoreOk, CallersOk, WakeOk, HandedOk, Holds, WorkerHolds;
    match s.locks[l]
    case TheWorker =>
      InnerWorkerWantsNothing(s.c.worker, l);
      InstallsOf(s);
      WorkerSteps(s);
    case Caller(t) =>
      InnerCallerIsBusy(s.callers[t], l);
      CallerMoves(s, t);
  }

  lemma InstallsOf(s: State)
    requires Inv(s)
    ensures InstallsOk(s.c) && LocksOk(s)
  {
  }

  /** A caller that waits for no lock and no answer can always take its next step. */
  lemma CallerMoves(s: State, t: Tid)
    requires Inv(s) && t in s.callers
    requires !s.callers[t].Idle? && Wants(s.callers[t]).None?
    requires !s.callers[t].InstallReceive? && !s.callers[t].StopJoin?
    ensures Next(s, Step(t)).Some? && CanMove(s)
  {
    assert CallerOk(s.c, t, s.callers[t]);
    assert Do(s.c, t, s.callers[t]).Moved?;
    assert Next(s, Step(t)).Some?;
  }

  lemma PendingHolderMoves(s: State)
    requires Inv(s) && PendingLock in s.locks
    ensures CanMove(s)
  {
    hide CanMove, CoreOk, CallersOk, WakeOk, HandedOk, Next;
    match s.locks[PendingLock]
    case TheWorker =>
      assert WorkerHolds(s.c.worker, PendingLock);
      if WorkerWants(s.c.worker).Some? && WorkerWants(s.c.worker).value in s.locks {
        InnerHolderMoves(s, WorkerWants(s.c.worker).value);
      } else {
        InstallsOf(s);
        WorkerSteps(s);
      }
    case Caller(t) =>
      assert Holds(s.callers[t], PendingLock);
      if Wants(s.callers[t]).None? { CallerMoves(s, t); }
      else if Wants(s.callers[t]).value in s.locks { InnerHolderMoves(s, Wants(s.callers[t]).value); }
      else { WantingMoves(s, t); }
  }

  lemma WantingMoves(s: State, t: Tid)
    requires t in s.callers && Wants(s.callers[t]).Some? && Wants(s.callers[t]).value !in s.locks
    ensures CanMove(s)
  {
    assert Next(s, Step(t)).Some?;
  }

  lemma LockedMeansMoving(s: State)
    requires Inv(s) && s.locks != map[]
    ensures CanMove(s)
  {
    var l :| l in s.locks;
    if l == PendingLock { PendingHolderMoves(s); } else { InnerHolderMoves(s, l); }
  }

  /** The worker is blocked only when it is parked, has left, or waits for a held lock. */
  lemma WorkerMoves(s: State)
    requires Inv(s) && !s.c.worker.Parked? && !s.c.worker.Exited? && s.locks == map[]
    ensures CanMove(s)
  {
    WorkerSteps(s);
  }

  /** With every lock free, so is any caller that still has to notify the worker. */
  lemma NotifierMoves(s: State, t: Tid)
    requires Inv(s) && s.locks == map[] && YetToNotify(s, t)
    ensures CanMove(s)
  {
    if Wants(s.callers[t]).None? { CallerMoves(s, t); } else { assert Next(s, Step(t)).Some?; }
  }

  lemma SomebodyToldMoves(s: State)
    requires Inv(s) && s.locks == map[]
    requires (s.c.d.shutdown && s.c.d.incoming.Some?)
             || (s.c.worker.Parked? && (s.c.d.pending != [] || s.c.d.incoming.Some? || s.c.d.shutdown))
    ensures CanMove(s)
  {
    SomebodyWillTell(s);
    var t :| YetToNotify(s, t);
    NotifierMoves(s, t);
  }

  lemma RequestMoves(s: State, r: nat)
    requires Inv(s) && s.locks == map[] && r < |s.c.h.requests| && s.c.h.places[r].Handed?
    ensures CanMove(s)
  {
    assert InHand(s.callers[s.c.h.places[r].t], r);
    NotifierMoves(s, s.c.h.places[r].t);
  }

  lemma BusyCallerMoves(s: State, t: Tid)
    requires Inv(s) && s.locks == map[] && t in s.callers && !s.callers[t].Idle?
    requires forall r: nat :: r < |s.c.h.requests| ==> s.c.h.places[r].Answered?
    requires s.c.d.shutdown ==> s.c.worker.Exited?
    ensures CanMove(s)
  {
    assert CallerOk(s.c, t, s.callers[t]);
    if Wants(s.callers[t]).Some? { assert Next(s, Step(t)).Some?; }
    else if s.callers[t].InstallReceive? {
      assert |s.c.h.replies[s.callers[t].mine]| == 1;
      assert Next(s, Step(t)).Some?;
    }
    else if s.callers[t].StopJoin? { assert Next(s, Step(t)).Some?; }
    else { CallerMoves(s, t); }
  }

  /** Where nothing is under way: nobody is inside a call, every install has had its one answer, and
      the worker is parked over an empty queue, or gone after a stop. */
  ghost predicate Quiescent(s: State) {
    && (forall t :: t in s.callers ==> s.callers[t].Idle?)
    && s.locks == map[]
    && (forall r: nat :: r < |s.c.h.requests| ==> r < |s.c.h.replies| && |s.c.h.replies[r]| == 1)
    && (if s.c.d.shutdown then s.c.worker.Exited?
        else s.c.worker.Parked? && s.c.d.pending == [] && s.c.d.incoming.None?)
  }

  /** No deadlock: neither the worker nor any caller can move only where nothing is under way. */
  lemma NoDeadlock(run: seq<State>, acts: seq<Action>, i: nat)
    requires IsRun(run, acts) && i < |run| && !CanMove(run[i])
    ensures Quiescent(run[i])
  {
    EveryStateIsGood(run, acts, i);
    var s := run[i];
    if s.locks != map[] { LockedMeansMoving(s); }
    if !s.c.worker.Parked? && !s.c.worker.Exited? { WorkerMoves(s); }
    if (s.c.d.shutdown && s.c.d.incoming.Some?)
       || (s.c.worker.Parked? && (s.c.d.pending != [] || s.c.d.incoming.Some? || s.c.d.shutdown))
    { SomebodyToldMoves(s); }
    forall r: nat | r < |s.c.h.requests| ensures s.c.h.places[r].Answered? {
      if s.c.h.places[r].Handed? { RequestMoves(s, r); }
    }
    forall t | t in s.callers ensures s.callers[t].Idle? {
      if !s.callers[t].Idle? { BusyCallerMoves(s, t); }
    }
  }

  // ----- installs

  /** Every request is staged, with the worker, in one caller's hand, or answered once. */
  lemma InstallsAreConserved(run: seq<State>, acts: seq<Action>, i: nat, r: nat)
    requires IsRun(run, acts) && i < |run| && r < |run[i].c.h.requests|
    ensures r < |run[i].c.h.places| && r < |run[i].c.h.replies|
    ensures
      var s := run[i];
      match s.c.h.places[r]
      case Staged => s.c.h.replies[r] == [] && s.c.d.incoming == Some(Request(r, s.c.h.requests[r]))
      case AtWorker => s.c.h.replies[r] == [] && WorkerHas(s.c.worker, r) && s.c.worker.request.model == s.c.h.requests[r]
      case Handed(t) => s.c.h.replies[r] == [] && t in s.callers && InHand(s.callers[t], r)
      case Answered => |s.c.h.replies[r]| == 1
  {
    EveryStateIsGood(run, acts, i);
  }

  lemma DoKeepsAnswers(c: Core, t: Tid, pc: Pc, r: nat)
    requires Do(c, t, pc).Moved? && r < |c.h.replies| && c.h.replies[r] != []
    ensures var c' := Do(c, t, pc).c; r < |c'.h.replies| && c'.h.replies[r] == c.h.replies[r]
  {
  }

  lemma WorkKeepsAnswers(c: Core, turn: Turn, r: nat)
    requires DoWork(c, turn).Some? && r < |c.h.replies| && c.h.replies[r] != []
    ensures var c' := DoWork(c, turn).value; r < |c'.h.replies| && c'.h.replies[r] == c.h.replies[r]
  {
  }

  lemma StepKeepsAnswers(s: State, a: Action, s': State, r: nat)
    requires Next(s, a) == Some(s') && r < |s.c.h.replies| && s.c.h.replies[r] != []
    ensures r < |s'.c.h.replies| && s'.c.h.replies[r] == s.c.h.replies[r]
  {
    match a
    case Call(t, op) =>
    case GraceOver(t) =>
    case Step(t) => if Wants(s.callers[t]).None? { DoKeepsAnswers(s.c, t, s.callers[t], r); }
    case Work(turn) => if WorkerWants(s.c.worker).None? { WorkKeepsAnswers(s.c, turn, r); }
  }

  /** An answer, once given, is never changed or joined by a second. */
  lemma {:induction false} AnswersAreFinal(run: seq<State>, acts: seq<Action>, i: nat, j: nat, r: nat)
    requires IsRun(run, acts) && i <= j < |run|
    requires r < |run[i].c.h.replies| && run[i].c.h.replies[r] != []
    ensures r < |run[j].c.h.replies| && run[j].c.h.replies[r] == run[i].c.h.replies[r]
    decreases j
  {
    hide Next;
    if i < j {
      AnswersAreFinal(run, acts, i, j - 1, r);
      StepOf(run, acts, j - 1);
      StepKeepsAnswers(run[j - 1], acts[j - 1], run[j], r);
    }
  }

  lemma StepOf(run: seq<State>, acts: seq<Action>, i: nat)
    requires IsRun(run, acts) && i < |acts|
    ensures i + 1 < |run| && Next(run[i], acts[i]) == Some(run[i + 1])
  {
  }

  /** A model reported as built is the one that caller asked for; the rest say why not. */
  lemma AnswersAreTrue(run: seq<State>, acts: seq<Action>, i: nat, r: nat)
    requires IsRun(run, acts) && i < |run| && r < |run[i].c.h.requests|
    ensures var s := run[i]; r < |s.c.h.replies| && (s.c.h.replies[r] != [] ==>
      match s.c.h.replies[r][0]
      case Built(model) => model == s.c.h.requests[r]
      case BuildFailed => true
      case BuildPanicked => true
      case Superseded => r + 1 < |s.c.h.requests|
      case ShuttingDown => s.c.d.shutdown)
  {
    EveryStateIsGood(run, acts, i);
    var s := run[i];
    if s.c.h.replies[r] != [] { assert s.c.h.replies[r] == [s.c.h.replies[r][0]]; }
  }

  /** The channel holds one answer, and nobody ever sends it a second: no send can block. */
  lemma RepliesNeverBlock(run: seq<State>, acts: seq<Action>, i: nat)
    requires IsRun(run, acts) && i < |run|
    ensures run[i].c.worker.Replying? ==> Unanswered(run[i].c.h, run[i].c.worker.request.id)
    ensures forall t, r: nat :: t in run[i].callers && InHand(run[i].callers[t], r) ==> Unanswered(run[i].c.h, r)
  {
    EveryStateIsGood(run, acts, i);
    var s := run[i];
    forall t, r: nat | t in s.callers && InHand(s.callers[t], r) ensures Unanswered(s.c.h, r) {
      assert CallerOk(s.c, t, s.callers[t]);
    }
  }

  /** Whenever a job runs, what is published describes the separator running it. */
  lemma InfoDescribesWhatRuns(run: seq<State>, acts: seq<Action>, i: nat)
    requires IsRun(run, acts) && i < |run|
    ensures !run[i].c.worker.Replying? && !run[i].c.worker.Swapping? ==> run[i].c.d.info == run[i].c.separator
    ensures AtJob(run[i].c.worker) ==> run[i].c.d.info == run[i].c.separator
    ensures run[i].c.worker.Replying? && run[i].c.worker.answer.Built? ==> run[i].c.d.info == run[i].c.worker.answer.model
  {
    EveryStateIsGood(run, acts, i);
  }

  lemma DoInstallsNothing(c: Core, t: Tid, pc: Pc)
    requires Do(c, t, pc).Moved?
    ensures var c' := Do(c, t, pc).c;
      c'.d.info == c.d.info && c'.separator == c.separator
      && (c'.worker == c.worker || (c.worker.Parked? && c'.worker.WantPending?))
  {
  }

  /** The model published or run changes only as the next step of a build that succeeded. */
  ghost predicate BuiltOnly(c: Core, ok: bool, c': Core) {
    && (c'.d.info != c.d.info ==> c.worker.Publishing? && c'.d.info == c.worker.request.model)
    && (c'.separator != c.separator ==> c.worker.Swapping? && c'.separator == c.worker.model)
    && (c'.worker.Publishing? && c'.worker != c.worker ==> ok && c.worker == Building(c'.worker.request))
    && (c'.worker.Swapping? && c'.worker != c.worker ==>
          c.worker.Replying? && c.worker.answer == Built(c'.worker.model))
  }

  lemma NextInstallsNothing(c: Core)
    requires WorkNext(c).Some?
    ensures BuiltOnly(c, false, WorkNext(c).value)
  {
  }

  lemma BuildInstallsBuilt(c: Core, turn: Turn)
    requires WorkInstall(c, turn).Some?
    ensures BuiltOnly(c, turn.BuildOk?, WorkInstall(c, turn).value)
  {
  }

  lemma JobsInstallNothing(c: Core, turn: Turn)
    ensures WorkSeparate(c, turn).Some? ==> BuiltOnly(c, false, WorkSeparate(c, turn).value)
    ensures WorkEnd(c, turn).Some? ==> BuiltOnly(c, false, WorkEnd(c, turn).value)
  {
  }

  lemma WorkInstallsBuilt(c: Core, turn: Turn)
    requires DoWork(c, turn).Some?
    ensures BuiltOnly(c, turn.BuildOk?, DoWork(c, turn).value)
  {
    hide WorkNext, WorkInstall, WorkSeparate, WorkEnd;
    JobsInstallNothing(c, turn);
    if DoWork(c, turn) == WorkNext(c) { NextInstallsNothing(c); }
    else if DoWork(c, turn) == WorkInstall(c, turn) { BuildInstallsBuilt(c, turn); }
  }

  /** Only a build that succeeded changes what is published, and then what is run. */
  lemma OnlyABuiltModelIsInstalled(s: State, a: Action, s': State)
    requires Next(s, a) == Some(s')
    ensures BuiltOnly(s.c, a == Work(BuildOk), s'.c)
  {
    hide Do, DoWork;
    match a
    case Call(t, op) =>
    case GraceOver(t) =>
    case Step(t) => if Wants(s.callers[t]).None? { DoInstallsNothing(s.c, t, s.callers[t]); }
    case Work(turn) => if WorkerWants(s.c.worker).None? { WorkInstallsBuilt(s.c, turn); }
  }

  // ----- jobs

  /** Where an accepted job is: four places, and `JobsAreConserved` says it is in exactly one. */
  ghost predicate Waiting(s: State, job: JobId) { job in s.c.d.pending }

  ghost predicate InWorkersHands(s: State, job: JobId) { OnJob(s.c.worker, job) }

  ghost predicate Finished(s: State, job: JobId) {
    job in s.c.cards && s.c.cards[job].stage.Terminal() && !OnJob(s.c.worker, job)
  }

  ghost predicate DroppedByCancel(s: State, job: JobId) { job in s.c.h.dropped }

  ghost function Count(a: bool, b: bool, c: bool, d: bool): nat {
    (if a then 1 else 0) + (if b then 1 else 0) + (if c then 1 else 0) + (if d then 1 else 0)
  }

  lemma JobsAreConserved(run: seq<State>, acts: seq<Action>, i: nat, job: JobId)
    requires IsRun(run, acts) && i < |run| && job in run[i].c.h.accepted
    ensures Count(Waiting(run[i], job), InWorkersHands(run[i], job),
                  Finished(run[i], job), DroppedByCancel(run[i], job)) == 1
    ensures |run[i].c.d.pending| <= run[i].c.d.maxDepth
  {
    EveryStateIsGood(run, acts, i);
    var c := run[i].c;
    QueueHasNoRepeats(c);
    KeptMembers(c.h.accepted, c.h.dropped, job);
    assert job in c.h.started + c.d.pending <==> job in c.h.started || job in c.d.pending;
  }

  /** FIFO: what has started is a prefix of what was accepted, less what was dropped. */
  lemma StartedInOrder(run: seq<State>, acts: seq<Action>, i: nat)
    requires IsRun(run, acts) && i < |run|
    ensures run[i].c.h.started <= Kept(run[i].c.h.accepted, run[i].c.h.dropped)
    ensures Kept(run[i].c.h.accepted, run[i].c.h.dropped)[|run[i].c.h.started|..] == run[i].c.d.pending
    ensures NoRepeats(run[i].c.h.started)
  {
    EveryStateIsGood(run, acts, i);
    var c := run[i].c;
    QueueHasNoRepeats(c);
    var all := c.h.started + c.d.pending;
    assert forall k :: 0 <= k < |c.h.started| ==> all[k] == c.h.started[k];
    assert all[|c.h.started|..] == c.d.pending;
  }

  // ----- what a client reads of its job

  /** Every job the worker has left, panics included, shows a terminal stage and what goes with it. */
  lemma LeftMeansTerminal(run: seq<State>, acts: seq<Action>, i: nat, job: JobId)
    requires IsRun(run, acts) && i < |run|
    requires job in run[i].c.h.started && !OnJob(run[i].c.worker, job)
    ensures job in run[i].c.cards && Settled(run[i].c.cards[job])
  {
    EveryStateIsGood(run, acts, i);
    QueueHasNoRepeats(run[i].c);
  }

  lemma MidwayIsHonest(w: WorkerPc, card: Card)
    requires HasJob(w) && !JobOver(w) && AtWork(w, card)
    ensures Honest(card)
  {
  }

  /** At every step a job shown as done has its entry and result, and one shown as failed its error. */
  lemma StagesAreHonest(run: seq<State>, acts: seq<Action>, i: nat, job: JobId)
    requires IsRun(run, acts) && i < |run| && job in run[i].c.cards
    ensures Honest(run[i].c.cards[job])
  {
    EveryStateIsGood(run, acts, i);
    if OnJob(run[i].c.worker, job) { MidwayIsHonest(run[i].c.worker, run[i].c.cards[job]); }
  }

  /** Whose card an action may write: a job nobody had claimed or accepted, or the worker's. */
  lemma WritesOneCard(s: State, a: Action, s': State, job: JobId)
    requires JobsOk(s.c) && CallersOk(s) && Next(s, a) == Some(s') && job in s.c.cards && job in s.c.h.claimant
    requires job in s.c.h.accepted && !OnJob(s.c.worker, job)
    ensures job in s'.c.cards && s'.c.cards[job] == s.c.cards[job]
    ensures job in s.c.h.started ==> job in s'.c.h.started && !OnJob(s'.c.worker, job)
  {
    match a
    case Call(t, op) =>
    case GraceOver(t) =>
    case Step(t) => if Wants(s.callers[t]).None? { DoWritesNoAccepted(s.c, t, s.callers[t], job); }
    case Work(turn) => if WorkerWants(s.c.worker).None? { WorkWritesItsOwn(s.c, turn, job); }
  }

  lemma DoWritesNoAccepted(c: Core, t: Tid, pc: Pc, job: JobId)
    requires CallerOk(c, t, pc) && Do(c, t, pc).Moved? && job in c.cards && job in c.h.accepted
    ensures var c' := Do(c, t, pc).c;
      && job in c'.cards && c'.cards[job] == c.cards[job] && c'.h.started == c.h.started
      && (c'.worker == c.worker || (c.worker.Parked? && c'.worker.WantPending?))
  {
    if Do(c, t, pc) != DoSubmit(c, pc) { hide Do; OthersWriteNoCard(c, t, pc); }
  }

  lemma WorkWritesItsOwn(c: Core, turn: Turn, job: JobId)
    requires JobsOk(c) && DoWork(c, turn).Some? && job in c.cards && !OnJob(c.worker, job)
    ensures LeftAlone(c, DoWork(c, turn).value, job)
  {
    hide JobsOk, LeftAlone, WorkNext, WorkInstall, WorkSeparate, WorkEnd;
    if DoWork(c, turn) == WorkNext(c) { NextLeavesAlone(c, job); }
    else if DoWork(c, turn) == WorkInstall(c, turn) { BuildLeavesAlone(c, turn, job); }
    else if DoWork(c, turn) == WorkSeparate(c, turn) { SeparateLeavesAlone(c, turn, job); }
    else { EndLeavesAlone(c, turn, job); }
  }

  /** The worker, not on the job, neither writes its card nor takes it up again. */
  ghost predicate LeftAlone(c: Core, c': Core, job: JobId)
    requires job in c.cards
  {
    && job in c'.cards && c'.cards[job] == c.cards[job]
    && (job in c.h.started ==> job in c'.h.started && !OnJob(c'.worker, job))
  }

  lemma NextLeavesAlone(c: Core, job: JobId)
    requires JobsOk(c) && WorkNext(c).Some? && job in c.cards && !OnJob(c.worker, job)
    ensures LeftAlone(c, WorkNext(c).value, job)
  {
    QueueHasNoRepeats(c);
    if c.worker.Choose? && c.d.pending != [] { assert c.d.pending[0] in c.d.pending; }
  }

  lemma BuildLeavesAlone(c: Core, turn: Turn, job: JobId)
    requires WorkInstall(c, turn).Some? && job in c.cards
    ensures LeftAlone(c, WorkInstall(c, turn).value, job)
  {
  }

  lemma SeparateLeavesAlone(c: Core, turn: Turn, job: JobId)
    requires WorkSeparate(c, turn).Some? && job in c.cards && !OnJob(c.worker, job)
    ensures LeftAlone(c, WorkSeparate(c, turn).value, job)
  {
  }

  lemma EndLeavesAlone(c: Core, turn: Turn, job: JobId)
    requires WorkEnd(c, turn).Some? && job in c.cards && !OnJob(c.worker, job)
    ensures LeftAlone(c, WorkEnd(c, turn).value, job)
  {
  }

  /** And it stays: nothing the queue does changes the card of a job the worker has left. */
  lemma {:induction false} LeftIsFinal(run: seq<State>, acts: seq<Action>, i: nat, j: nat, job: JobId)
    requires IsRun(run, acts) && i <= j < |run|
    requires job in run[i].c.h.started && !OnJob(run[i].c.worker, job)
    ensures job in run[j].c.h.started && !OnJob(run[j].c.worker, job)
    ensures job in run[i].c.cards && job in run[j].c.cards && run[j].c.cards[job] == run[i].c.cards[job]
    decreases j
  {
    hide Next, OnJob, Settled;
    if i < j {
      LeftIsFinal(run, acts, i, j - 1, job);
      LeftStepIsFinal(run, acts, j - 1, job);
    } else {
      LeftMeansTerminal(run, acts, i, job);
    }
  }

  lemma LeftStepIsFinal(run: seq<State>, acts: seq<Action>, i: nat, job: JobId)
    requires IsRun(run, acts) && i < |acts| && job in run[i].c.h.started && !OnJob(run[i].c.worker, job)
    ensures job in run[i + 1].c.h.started && !OnJob(run[i + 1].c.worker, job)
    ensures job in run[i].c.cards && job in run[i + 1].c.cards && run[i + 1].c.cards[job] == run[i].c.cards[job]
  {
    hide Next, OnJob, Settled;
    EveryStateIsGood(run, acts, i);
    StepOf(run, acts, i);
    QueueHasNoRepeats(run[i].c);
    LeftMeansTerminal(run, acts, i, job);
    WritesOneCard(run[i], acts[i], run[i + 1], job);
  }

  lemma WrittenStaysTerminal(rest: Rest, card: Card)
    requires Midway(rest, card) && card.stage.Terminal()
    ensures Written(rest, card).stage.Terminal()
  {
  }

  lemma WorkKeepsTerminal(c: Core, turn: Turn, job: JobId)
    requires JobsOk(c) && CardsOk(c) && DoWork(c, turn).Some? && job in c.cards && c.cards[job].stage.Terminal()
    ensures var c' := DoWork(c, turn).value; job in c'.cards && c'.cards[job].stage.Terminal()
  {
    if OnJob(c.worker, job) {
      OwnStaysTerminal(c, turn);
    } else {
      hide JobsOk, CardsOk, DoWork;
      WorkWritesItsOwn(c, turn, job);
    }
  }

  lemma OwnStaysTerminal(c: Core, turn: Turn)
    requires JobsOk(c) && CardsOk(c) && DoWork(c, turn).Some? && HasJob(c.worker) && !JobOver(c.worker)
    requires c.worker.job in c.cards && c.cards[c.worker.job].stage.Terminal()
    ensures var c' := DoWork(c, turn).value; c.worker.job in c'.cards && c'.cards[c.worker.job].stage.Terminal()
  {
    hide JobsOk, CardsOk;
    WorkersCard(c);
    if c.worker.Ending? { WrittenStaysTerminal(c.worker.rest, c.cards[c.worker.job]); }
  }

  /** A terminal stage absorbs: no action of anybody's sets a job back from one. */
  lemma TerminalAbsorbs(s: State, a: Action, s': State, job: JobId)
    requires Inv(s) && Next(s, a) == Some(s') && job in s.c.cards && s.c.cards[job].stage.Terminal()
    ensures job in s'.c.cards && s'.c.cards[job].stage.Terminal()
  {
    QueueHasNoRepeats(s.c);
    match a
    case Call(t, op) =>
    case GraceOver(t) =>
    case Step(t) => if Wants(s.callers[t]).None? { DoWritesNoAccepted(s.c, t, s.callers[t], job); }
    case Work(turn) => if WorkerWants(s.c.worker).None? { WorkKeepsTerminal(s.c, turn, job); }
  }

  lemma {:induction false} TerminalIsForever(run: seq<State>, acts: seq<Action>, i: nat, j: nat, job: JobId)
    requires IsRun(run, acts) && i <= j < |run|
    requires job in run[i].c.cards && run[i].c.cards[job].stage.Terminal()
    ensures job in run[j].c.cards && run[j].c.cards[job].stage.Terminal()
    decreases j
  {
    hide Next, Inv;
    if i < j {
      TerminalIsForever(run, acts, i, j - 1, job);
      EveryStateIsGood(run, acts, j - 1);
      StepOf(run, acts, j - 1);
      TerminalAbsorbs(run[j - 1], acts[j - 1], run[j], job);
    }
  }

  /** So what the queue writes to a registered job is an operation `JobRegistry.Run` allows. */
  lemma QueueWritesAbsorb<E>(
    run: seq<State>, acts: seq<Action>, i: nat, job: JobId, r: R.Registry<E>, id: string, entry: Option<E>)
    requires IsRun(run, acts) && i < |acts| && job in run[i].c.cards
    requires id in r.byId ==> r.byId[id].stage == run[i].c.cards[job].stage
    ensures job in run[i + 1].c.cards
    ensures R.Absorbing(r, R.UpdateOp(id, run[i + 1].c.cards[job].stage, entry))
  {
    EveryStateIsGood(run, acts, i);
    StepOf(run, acts, i);
    if run[i].c.cards[job].stage.Terminal() { TerminalAbsorbs(run[i], acts[i], run[i + 1], job); }
    else { CardsStay(run[i], acts[i], run[i + 1], job); }
  }

  lemma CardsStay(s: State, a: Action, s': State, job: JobId)
    requires Inv(s) && Next(s, a) == Some(s') && job in s.c.cards
    ensures job in s'.c.cards
  {
    hide CoreOk, CallersOk, LocksOk, WakeOk, HandedOk;
  }

  /** A job that never started shows what it showed when it was claimed, dropped or not. */
  lemma UnstartedIsQueued(run: seq<State>, acts: seq<Action>, i: nat, job: JobId)
    requires IsRun(run, acts) && i < |run| && job in run[i].c.h.accepted && job !in run[i].c.h.started
    ensures job in run[i].c.cards && run[i].c.cards[job] == NEW_JOB
    ensures job in run[i].c.d.pending <==> job !in run[i].c.h.dropped
  {
    EveryStateIsGood(run, acts, i);
    var c := run[i].c;
    KeptMembers(c.h.accepted, c.h.dropped, job);
    assert job in c.h.started + c.d.pending <==> job in c.d.pending;
  }

  // ----- cancelling and stopping

  /** A flag is set only by a `cancel` of that very job, or by a stop that found it running;
      and a job ends as cancelled only when its own flag was set. */
  lemma FlagsReachOnlyTheirJob(run: seq<State>, acts: seq<Action>, i: nat, k: nat)
    requires IsRun(run, acts) && i < |run| && k < |run[i].c.h.started|
    ensures k < |run[i].c.d.flags|
    ensures run[i].c.d.flags[k] ==>
              run[i].c.h.started[k] in run[i].c.h.cancelHit || run[i].c.h.started[k] in run[i].c.h.stopHit
    ensures run[i].c.h.started[k] in run[i].c.cards && run[i].c.cards[run[i].c.h.started[k]].stage.Cancelled? ==>
              run[i].c.d.flags[k]
    ensures AtJob(run[i].c.worker) ==>
              run[i].c.worker.flag < |run[i].c.h.started|
              && run[i].c.h.started[run[i].c.worker.flag] == run[i].c.worker.job
  {
    EveryStateIsGood(run, acts, i);
  }

  /** Inside a `cancel` of the job. */
  ghost predicate InCancel(s: State, t: Tid, job: JobId) {
    t in s.callers
    && (s.callers[t] == CancelHoldPending(job)
        || ((s.callers[t].CancelWantRunning? || s.callers[t].CancelHoldRunning?) && s.callers[t].job == job))
  }

  /** Past its first section, it remembers whether the job was absent as that ended. */
  ghost predicate Remembers(s: State, t: Tid, job: JobId) {
    t in s.callers && (s.callers[t] == CancelWantRunning(job, true) || s.callers[t] == CancelHoldRunning(job, true))
  }

  /** And it does so only because the job was absent then: neither waiting, running nor in between. */
  lemma CancelRemembersAbsence(s: State, a: Action, s': State, t: Tid, job: JobId)
    requires Next(s, a) == Some(s') && Remembers(s', t, job)
    ensures Remembers(s, t, job) || (InCancel(s, t, job) && Absent(s.c, job))
  {
    if a == Step(t) && Wants(s.callers[t]).None? { hide Do; CancelStepRemembers(s.c, t, s.callers[t], job); }
  }

  lemma CancelStepRemembers(c: Core, t: Tid, pc: Pc, job: JobId)
    requires Do(c, t, pc).Moved?
    requires Do(c, t, pc).pc == CancelWantRunning(job, true) || Do(c, t, pc).pc == CancelHoldRunning(job, true)
    ensures pc == CancelHoldPending(job) && Absent(c, job)
  {
  }

  lemma {:induction false} AbsenceWasSeen(run: seq<State>, acts: seq<Action>, i: nat, t: Tid, job: JobId) returns (k: nat)
    requires IsRun(run, acts) && i < |run| && Remembers(run[i], t, job)
    ensures k <= i && Absent(run[k].c, job)
    ensures forall j :: k <= j <= i ==> InCancel(run[j], t, job)
  {
    hide Next;
    if i == 0 {
      assert false;
    } else {
      StepOf(run, acts, i - 1);
      CancelRemembersAbsence(run[i - 1], acts[i - 1], run[i], t, job);
      if Remembers(run[i - 1], t, job) { k := AbsenceWasSeen(run, acts, i - 1, t, job); } else { k := i - 1; }
    }
  }

  /** A `cancel` that says no: there was an instant inside the call at which its job was absent. */
  lemma CancelSaysNoOnlyWhenAbsent(run: seq<State>, acts: seq<Action>, i: nat, t: Tid, job: JobId)
    requires IsRun(run, acts) && i < |acts| && acts[i] == Step(t)
    requires t in run[i].callers && run[i].callers[t].CancelHoldRunning? && run[i].callers[t].job == job
    requires t in run[i + 1].callers && run[i + 1].callers[t] == Idle(CancelSaid(false))
    ensures exists k :: 0 <= k <= i && Absent(run[k].c, job) && forall j :: k <= j <= i ==> InCancel(run[j], t, job)
    ensures exists k :: 0 <= k <= i && job !in run[k].c.d.pending && !OnJob(run[k].c.worker, job)
                        && forall j :: k <= j <= i ==> InCancel(run[j], t, job)
  {
    hide Next, Absent, OnJob;
    var k := i;
    if Remembers(run[i], t, job) {
      k := AbsenceWasSeen(run, acts, i, t, job);
    } else {
      AbsentNow(run, acts, i, t, job);
    }
    EveryStateIsGood(run, acts, k);
    AbsentMeans(run[k].c, job);
  }

  /** Absent, a job neither waits nor is the one the worker has in hand. */
  lemma AbsentMeans(c: Core, job: JobId)
    requires FlagsOk(c) && Absent(c, job)
    ensures job !in c.d.pending && !OnJob(c.worker, job)
  {
  }

  /** One that remembers no absence left the job with the worker, so it is absent by now if not running. */
  lemma AbsentNow(run: seq<State>, acts: seq<Action>, i: nat, t: Tid, job: JobId)
    requires IsRun(run, acts) && i < |acts| && acts[i] == Step(t)
    requires t in run[i].callers && run[i].callers[t] == CancelHoldRunning(job, false)
    requires t in run[i + 1].callers && run[i + 1].callers[t] == Idle(CancelSaid(false))
    ensures Absent(run[i].c, job)
  {
    EveryStateIsGood(run, acts, i);
    var s := run[i];
    assert CallerOk(s.c, t, s.callers[t]);
    QueueHasNoRepeats(s.c);
  }

  lemma DoStartsNothing(c: Core, t: Tid, pc: Pc)
    requires Do(c, t, pc).Moved?
    ensures Do(c, t, pc).c.h.started == c.h.started
    ensures c.d.shutdown ==> Do(c, t, pc).c.d.shutdown
  {
  }

  lemma WorkStartsNothing(c: Core, turn: Turn)
    requires StopsOk(c) && c.d.shutdown && DoWork(c, turn).Some?
    ensures DoWork(c, turn).value.h.started == c.h.started
    ensures DoWork(c, turn).value.d.shutdown
  {
  }

  lemma StopIsForever(s: State, a: Action, s': State)
    requires StopsOk(s.c) && Next(s, a) == Some(s') && s.c.d.shutdown
    ensures s'.c.d.shutdown && s'.c.h.started == s.c.h.started
  {
    match a
    case Call(t, op) =>
    case GraceOver(t) =>
    case Step(t) => if Wants(s.callers[t]).None? { DoStartsNothing(s.c, t, s.callers[t]); }
    case Work(turn) => if WorkerWants(s.c.worker).None? { WorkStartsNothing(s.c, turn); }
  }

  lemma StopsAreGood(run: seq<State>, acts: seq<Action>, i: nat)
    requires IsRun(run, acts) && i < |run|
    ensures StopsOk(run[i].c)
  {
    EveryStateIsGood(run, acts, i);
  }

  lemma NothingStartsNext(run: seq<State>, acts: seq<Action>, j: nat)
    requires IsRun(run, acts) && j < |acts| && run[j].c.d.shutdown
    ensures run[j + 1].c.d.shutdown && run[j + 1].c.h.started == run[j].c.h.started
  {
    StopsAreGood(run, acts, j);
    StopIsForever(run[j], acts[j], run[j + 1]);
  }

  /** Once `stop` has left its first section no job is ever started. */
  lemma {:induction false} NothingStartsAfterStop(run: seq<State>, acts: seq<Action>, i: nat, j: nat)
    requires IsRun(run, acts) && i <= j < |run| && run[i].c.d.shutdown
    ensures run[j].c.d.shutdown && run[j].c.h.started == run[i].c.h.started
    decreases j
  {
    hide Next;
    if i < j {
      NothingStartsAfterStop(run, acts, i, j - 1);
      NothingStartsNext(run, acts, j - 1);
    }
  }

  /** And once it has been to the running slot, the job in flight is told, or already over. */
  lemma StopReachesTheJobInFlight(run: seq<State>, acts: seq<Action>, i: nat, t: Tid)
    requires IsRun(run, acts) && i < |run| && t in run[i].callers
    requires run[i].callers[t].StopNotify? || run[i].callers[t].StopJoin?
    ensures AtJob(run[i].c.worker) ==>
              run[i].c.worker.flag < |run[i].c.d.flags| && run[i].c.d.flags[run[i].c.worker.flag]
    ensures HasJob(run[i].c.worker) ==> AtJob(run[i].c.worker) || JobOver(run[i].c.worker)
    ensures run[i].c.d.shutdown
  {
    EveryStateIsGood(run, acts, i);
    assert CallerOk(run[i].c, t, run[i].callers[t]);
  }
}
