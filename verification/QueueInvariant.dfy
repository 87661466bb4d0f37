/**
 What every step of the queue keeps.

 Split by subject: the locks, the jobs, the flags, the cards, stopping, installs, waking.  Facts
 about one caller's counter are stated per thread and shown stable under everybody
 else's steps, so no proof looks at two step bodies at once.
 */
module QueueInvariant {
  import opened Wrappers
  import opened QueueShared
  import opened QueueProtocol
  import P = Progress

  // ----- who owns which lock

  ghost predicate LocksOk(s: State) {
    && (forall l :: (l in s.locks && s.locks[l] == TheWorker) <==> WorkerHolds(s.c.worker, l))
    && (forall l, t: Tid ::
          (l in s.locks && s.locks[l] == Caller(t)) <==> (t in s.callers && Holds(s.callers[t], l)))
  }

  lemma GrantedHolds(pc: Pc, l: Lock)
    requires Wants(pc).Some?
    ensures Holds(Granted(pc), l) <==> Holds(pc, l) || l == Wants(pc).value
    ensures !Holds(pc, Wants(pc).value)
  {
  }

  lemma WorkerGrantedHolds(w: WorkerPc, l: Lock)
    requires WorkerWants(w).Some?
    ensures WorkerHolds(WorkerGranted(w), l) <==> WorkerHolds(w, l) || l == WorkerWants(w).value
    ensures !WorkerHolds(w, WorkerWants(w).value)
  {
  }

  /** Between acquisitions a caller only gives locks back, and leaves the worker's alone. */
  lemma DoHolds(c: Core, t: Tid, pc: Pc, l: Lock)
    requires Do(c, t, pc).Moved?
    ensures Holds(Do(c, t, pc).pc, l) ==> Holds(pc, l)
    ensures WorkerHolds(Do(c, t, pc).c.worker, l) == WorkerHolds(c.worker, l)
  {
  }

  lemma NextHolds(c: Core, l: Lock)
    requires WorkNext(c).Some?
    ensures WorkerHolds(WorkNext(c).value.worker, l) ==> WorkerHolds(c.worker, l)
  {
  }

  lemma BuildHolds(c: Core, turn: Turn, l: Lock)
    requires WorkInstall(c, turn).Some?
    ensures !WorkerHolds(WorkInstall(c, turn).value.worker, l)
  {
  }

  lemma SeparateHolds(c: Core, turn: Turn, l: Lock)
    requires WorkSeparate(c, turn).Some?
    ensures !WorkerHolds(WorkSeparate(c, turn).value.worker, l)
  {
  }

  lemma EndHolds(c: Core, turn: Turn, l: Lock)
    requires WorkEnd(c, turn).Some?
    ensures !WorkerHolds(WorkEnd(c, turn).value.worker, l)
  {
  }

  lemma DoWorkHolds(c: Core, turn: Turn, l: Lock)
    requires DoWork(c, turn).Some?
    ensures WorkerHolds(DoWork(c, turn).value.worker, l) ==> WorkerHolds(c.worker, l)
  {
    if DoWork(c, turn) == WorkNext(c) { NextHolds(c, l); }
    else if DoWork(c, turn) == WorkInstall(c, turn) { BuildHolds(c, turn, l); }
    else if DoWork(c, turn) == WorkSeparate(c, turn) { SeparateHolds(c, turn, l); }
    else { EndHolds(c, turn, l); }
  }

  lemma GrantKeepsLocks(s: State, t: Tid, s': State)
    requires LocksOk(s) && t in s.callers && Wants(s.callers[t]).Some? && Wants(s.callers[t]).value !in s.locks
    requires s' == s.(locks := s.locks[Wants(s.callers[t]).value := Caller(t)],
                      callers := s.callers[t := Granted(s.callers[t])])
    ensures LocksOk(s')
  {
    hide Holds, WorkerHolds, Wants, Granted;
    forall l { GrantedHolds(s.callers[t], l); }
  }

  lemma MoveKeepsLocks(s: State, t: Tid, c: Core, pc: Pc)
    requires LocksOk(s) && t in s.callers && Do(s.c, t, s.callers[t]) == Moved(c, pc)
    ensures LocksOk(State(c, s.callers[t := pc], Settle(s.locks, t, pc)))
  {
    hide Holds, WorkerHolds, Do;
    forall l { DoHolds(s.c, t, s.callers[t], l); }
  }

  lemma CallerKeepsLocks(s: State, t: Tid, s': State)
    requires LocksOk(s) && StepCaller(s, t) == Some(s')
    ensures LocksOk(s')
  {
    hide LocksOk, Do, Settle, Holds;
    var pc := s.callers[t];
    if Wants(pc).Some? { GrantKeepsLocks(s, t, s'); } else { MoveKeepsLocks(s, t, Do(s.c, t, pc).c, Do(s.c, t, pc).pc); }
  }

  lemma WorkerKeepsLocks(s: State, turn: Turn, s': State)
    requires LocksOk(s) && StepWorker(s, turn) == Some(s')
    ensures LocksOk(s')
  {
    if WorkerWants(s.c.worker).Some? {
      forall l { WorkerGrantedHolds(s.c.worker, l); }
    } else {
      forall l { DoWorkHolds(s.c, turn, l); }
    }
  }

  lemma LocksKept(s: State, a: Action, s': State)
    requires LocksOk(s) && Next(s, a) == Some(s')
    ensures LocksOk(s')
  {
    hide StepCaller, StepWorker;
    match a
    case Call(t, op) =>
    case GraceOver(t) =>
    case Step(t) => CallerKeepsLocks(s, t, s');
    case Work(turn) => WorkerKeepsLocks(s, turn, s');
  }

  /** No two threads are inside one lock. */
  lemma Exclusive(s: State, t: Tid, l: Lock)
    requires LocksOk(s) && t in s.callers && Holds(s.callers[t], l)
    ensures !WorkerHolds(s.c.worker, l)
    ensures forall u :: u in s.callers && u != t ==> !Holds(s.callers[u], l)
  {
    assert s.locks[l] == Caller(t);
  }

  // ----- jobs

  ghost predicate NoRepeats(q: seq<JobId>) {
    forall i, j :: 0 <= i < j < |q| ==> q[i] != q[j]
  }

  /** `accepted` with the dropped jobs left out, order kept. */
  ghost function Kept(accepted: seq<JobId>, dropped: set<JobId>): seq<JobId> {
    if accepted == [] then []
    else
      var rest := Kept(accepted[..|accepted| - 1], dropped);
      if accepted[|accepted| - 1] in dropped then rest else rest + [accepted[|accepted| - 1]]
  }

  lemma {:induction false} KeptMembers(accepted: seq<JobId>, dropped: set<JobId>, j: JobId)
    ensures j in Kept(accepted, dropped) <==> j in accepted && j !in dropped
  {
    if accepted != [] {
      KeptMembers(accepted[..|accepted| - 1], dropped, j);
      assert accepted == accepted[..|accepted| - 1] + [accepted[|accepted| - 1]];
    }
  }

  lemma {:induction false} KeptHasNoRepeats(accepted: seq<JobId>, dropped: set<JobId>)
    requires NoRepeats(accepted)
    ensures NoRepeats(Kept(accepted, dropped))
  {
    if accepted != [] {
      var front := accepted[..|accepted| - 1];
      KeptHasNoRepeats(front, dropped);
      KeptMembers(front, dropped, accepted[|accepted| - 1]);
    }
  }

  lemma {:induction false} WithoutMembers(q: seq<JobId>, job: JobId, j: JobId)
    ensures j in Without(q, job) <==> j in q && j != job
    ensures |Without(q, job)| <= |q|
  {
    if q != [] {
      WithoutMembers(q[..|q| - 1], job, j);
      assert q == q[..|q| - 1] + [q[|q| - 1]];
    }
  }

  lemma {:induction false} WithoutPrefix(q: seq<JobId>, tail: seq<JobId>, job: JobId)
    requires job !in q
    ensures Without(q + tail, job) == q + Without(tail, job)
  {
    if tail == [] {
      assert q + tail == q;
      WithoutNothing(q, job);
    } else {
      assert (q + tail)[..|q + tail| - 1] == q + tail[..|tail| - 1];
      WithoutPrefix(q, tail[..|tail| - 1], job);
    }
  }

  lemma {:induction false} WithoutNothing(q: seq<JobId>, job: JobId)
    requires job !in q
    ensures Without(q, job) == q
  {
    if q != [] {
      WithoutNothing(q[..|q| - 1], job);
      assert q == q[..|q| - 1] + [q[|q| - 1]];
    }
  }

  /** Dropping one more job from the accepted ones is removing it from what was kept. */
  lemma {:induction false} KeptDrops(accepted: seq<JobId>, dropped: set<JobId>, job: JobId)
    ensures Kept(accepted, dropped + {job}) == Without(Kept(accepted, dropped), job)
  {
    if accepted != [] {
      var front, x := accepted[..|accepted| - 1], accepted[|accepted| - 1];
      KeptDrops(front, dropped, job);
      var rest := Kept(front, dropped);
      if x !in dropped { assert (rest + [x])[..|rest|] == rest; }
    }
  }

  ghost predicate HasJob(w: WorkerPc) {
    w.WantRegister? || w.HoldRegister? || AtJob(w) || JobOver(w)
  }

  /** Inside the separator, or on what comes of it. */
  ghost predicate AtJob(w: WorkerPc) {
    w.Separating? || w.Ending?
  }

  ghost predicate JobOver(w: WorkerPc) {
    w.WantClear? || w.HoldClear?
  }

  /** Conservation and FIFO in one equation, and the worker's place in it. */
  ghost predicate JobsOk(c: Core) {
    && Kept(c.h.accepted, c.h.dropped) == c.h.started + c.d.pending
    && NoRepeats(c.h.accepted)
    && |c.d.pending| <= c.d.maxDepth
    && (forall j :: j in c.h.accepted ==> j in c.h.claimant)
    && (forall j :: j in c.h.dropped ==> j in c.h.accepted)
    && (HasJob(c.worker) ==>
          && |c.h.started| > 0
          && c.worker.job == c.h.started[|c.h.started| - 1]
          && c.worker.flag == |c.h.started| - 1)
    && |c.d.flags| == |c.h.started|
  }

  lemma QueueHasNoRepeats(c: Core)
    requires JobsOk(c)
    ensures NoRepeats(c.h.started + c.d.pending)
    ensures forall j :: j in c.h.started ==> j !in c.d.pending && j in c.h.accepted && j !in c.h.dropped
    ensures forall j :: j in c.d.pending ==> j in c.h.accepted && j !in c.h.dropped
  {
    KeptHasNoRepeats(c.h.accepted, c.h.dropped);
    var all := c.h.started + c.d.pending;
    forall j | j in all ensures j in c.h.accepted && j !in c.h.dropped {
      KeptMembers(c.h.accepted, c.h.dropped, j);
    }
    forall j | j in c.h.started ensures j in all && j !in c.d.pending {
      var i :| 0 <= i < |c.h.started| && c.h.started[i] == j;
      assert all[i] == j;
      assert forall k :: 0 <= k < |c.d.pending| ==> c.d.pending[k] == all[|c.h.started| + k];
    }
    forall j | j in c.d.pending ensures j in all { }
  }

  // ----- what is true of one caller

  ghost predicate CallerOk(c: Core, t: Tid, pc: Pc) {
    match pc
    case SubmitWant(job) => job in c.h.claimant && c.h.claimant[job] == t && job !in c.h.accepted
    case SubmitHold(job) => job in c.h.claimant && c.h.claimant[job] == t && job !in c.h.accepted
    case CancelWantRunning(job, absent) => !absent ==> Started(c, job)
    case CancelHoldRunning(job, absent) => !absent ==> Started(c, job)
    case InstallWantIncoming(_) => !c.d.shutdown
    case InstallHoldIncoming(_) => !c.d.shutdown
    case InstallSupersede(prior, mine) =>
      prior < mine < |c.h.places| && c.h.places[prior] == Handed(t)
    case InstallNotify(mine) => mine < |c.h.places|
    case InstallReceive(mine) => mine < |c.h.places|
    case StopWantIncoming => c.d.shutdown
    case StopHoldIncoming => c.d.shutdown
    case StopReply(taken) =>
      c.d.shutdown && (taken.Some? ==> taken.value.id < |c.h.places| && c.h.places[taken.value.id] == Handed(t))
    case StopWantRunning => c.d.shutdown
    case StopHoldRunning => c.d.shutdown
    case StopNotify => c.d.shutdown && c.h.signalled
    case StopJoin => c.d.shutdown && c.h.signalled
    case _ => true
  }

  /** The job left the queue for the worker and has been registered as running. */
  ghost predicate Started(c: Core, job: JobId) {
    job in c.h.started && (c.worker.WantRegister? || c.worker.HoldRegister? ==> c.worker.job != job)
  }

  // ----- the running slot and its flags

  ghost predicate FlagsOk(c: Core) {
    && (c.d.running.Some? <==> AtJob(c.worker) || JobOver(c.worker))
    && (c.d.running.Some? ==> c.d.running.value == Running(c.worker.job, c.worker.flag))
    && |c.d.flags| == |c.h.started|
    && (forall i :: 0 <= i < |c.d.flags| && c.d.flags[i] ==>
          c.h.started[i] in c.h.cancelHit || c.h.started[i] in c.h.stopHit)
  }

  // ----- what a job's handle shows

  predicate Clean(card: Card) {
    !card.entry && !card.result && !card.error
  }

  /** Done only with its stems attached, failed only with its error. */
  predicate Honest(card: Card) {
    (card.stage.Done? ==> card.entry && card.result) && (card.stage.Failed? ==> card.error)
  }

  /** What a job is left with: a terminal stage, and what goes with that one alone. */
  predicate Settled(card: Card) {
    && card.stage.Terminal() && Honest(card)
    && (card.stage.Done? ==> !card.error)
    && (card.stage.Cancelled? ==> Clean(card))
  }

  /** What a card shows before each of the worker's writes. */
  ghost predicate Midway(rest: Rest, card: Card) {
    match rest
    case SetWriting => Clean(card) && !card.stage.Terminal()
    case Filing => Clean(card) && card.stage.Writing?
    case SetEntry => Clean(card) && card.stage.Writing?
    case SetResult => card == Card(P.Writing, true, false, false)
    case SetDone => card == Card(P.Writing, true, true, false)
    case SetCancelled => Clean(card) && !card.stage.Terminal()
    case SetError => Clean(card) && !card.stage.Terminal()
    case SetFailed => card.error && !card.stage.Terminal()
    case Returning => Settled(card)
    case CaughtError => Honest(card)
    case CaughtFailed => Honest(card) && card.error
  }

  ghost predicate AtWork(w: WorkerPc, card: Card) {
    match w
    case WantRegister(_, _) => card == NEW_JOB
    case HoldRegister(_, _) => card == NEW_JOB
    case Separating(_, _) => Clean(card) && !card.stage.Terminal()
    case Ending(_, _, rest) => Midway(rest, card)
    case _ => true
  }

  ghost predicate OnJob(w: WorkerPc, job: JobId) {
    HasJob(w) && !JobOver(w) && w.job == job
  }

  ghost predicate CardsOk(c: Core) {
    && (forall j :: j in c.cards <==> j in c.h.claimant)
    && (forall j :: j in c.cards && j !in c.h.started ==> c.cards[j] == NEW_JOB)
    && (forall j :: j in c.cards && j in c.h.started && !OnJob(c.worker, j) ==> Settled(c.cards[j]))
    && (forall j :: j in c.cards && OnJob(c.worker, j) ==> AtWork(c.worker, c.cards[j]))
  }

  /** A job shown as cancelled had its own flag set. */
  ghost predicate CancelsOk(c: Core) {
    && |c.d.flags| == |c.h.started|
    && (forall i :: 0 <= i < |c.h.started| && c.h.started[i] in c.cards && c.cards[c.h.started[i]].stage.Cancelled? ==>
          c.d.flags[i])
    && (c.worker.Ending? && c.worker.rest.SetCancelled? ==> c.worker.flag < |c.d.flags| && c.d.flags[c.worker.flag])
  }

  // ----- stopping

  ghost predicate PastShutdownCheck(w: WorkerPc) {
    w.WantIncoming? || w.HoldIncoming? || w.Choose? || w.WantRegister? || w.HoldRegister?
  }

  ghost predicate StopsOk(c: Core) {
    && (PastShutdownCheck(c.worker) ==> !c.d.shutdown)
    && (c.worker.Exited? ==> c.d.shutdown)
    && (c.h.signalled ==> c.d.shutdown)
    && (!c.handle ==> c.h.signalled)
    && (c.h.signalled && AtJob(c.worker) ==>
          c.worker.flag < |c.d.flags| && c.d.flags[c.worker.flag])
  }

  // ----- installs

  ghost predicate WorkerHas(w: WorkerPc, r: nat) {
    (w.Building? || w.Publishing? || w.Replying?) && w.request.id == r
  }

  ghost predicate InstallsOk(c: Core) {
    && |c.h.requests| == |c.h.places| == |c.h.replies|
    && (c.d.incoming.Some? ==>
          && c.d.incoming.value.id < |c.h.places|
          && c.h.places[c.d.incoming.value.id].Staged?
          && c.d.incoming.value.model == c.h.requests[c.d.incoming.value.id])
    && (c.worker.Building? || c.worker.Publishing? || c.worker.Replying? ==>
          && c.worker.request.id < |c.h.places|
          && c.h.places[c.worker.request.id].AtWorker?
          && c.worker.request.model == c.h.requests[c.worker.request.id])
    && (c.worker.Replying? ==> !c.worker.answer.Superseded? && !c.worker.answer.ShuttingDown?)
    && (c.worker.Replying? && c.worker.answer.Built? ==> c.worker.answer.model == c.worker.request.model)
    && (forall r: nat :: r < |c.h.places| && c.h.places[r].Staged? ==>
          c.d.incoming.Some? && c.d.incoming.value.id == r)
    && (forall r: nat :: r < |c.h.places| && c.h.places[r].AtWorker? ==> WorkerHas(c.worker, r))
    && (forall r: nat :: r < |c.h.replies| ==> |c.h.replies[r]| == (if c.h.places[r].Answered? then 1 else 0))
    && (forall r: nat, m :: r < |c.h.replies| && c.h.replies[r] == [Built(m)] ==> m == c.h.requests[r])
    && (forall r: nat :: r < |c.h.replies| && c.h.replies[r] == [Superseded] ==> r + 1 < |c.h.requests|)
    && (forall r: nat :: r < |c.h.replies| && c.h.replies[r] == [ShuttingDown] ==> c.d.shutdown)
  }

  /** What is published describes the separator, except while the worker is between the two. */
  ghost predicate InfoOk(c: Core) {
    c.d.info == (if c.worker.Swapping? then c.worker.model
                 else if c.worker.Replying? && c.worker.answer.Built? then c.worker.answer.model
                 else c.separator)
  }

  // ----- waking, and requests in a caller's hand

  ghost predicate StopBeforeNotify(pc: Pc) {
    || pc.StopWantIncoming? || pc.StopHoldIncoming? || pc.StopReply?
    || pc.StopWantRunning? || pc.StopHoldRunning? || pc.StopNotify?
  }

  ghost predicate StopBeforeTake(pc: Pc) {
    pc.StopWantIncoming? || pc.StopHoldIncoming?
  }

  ghost predicate InstallBeforeNotify(pc: Pc) {
    pc.InstallSupersede? || pc.InstallNotify?
  }

  /** No lost wakeup: a parked worker has nothing to do, or somebody is about to tell it. */
  ghost predicate WakeOk(s: State) {
    && (s.c.worker.Choose? ==> s.c.d.incoming.None?)
    && (s.c.worker.Parked? && s.c.d.pending != [] ==>
          exists t :: t in s.callers && s.callers[t].SubmitNotify?)
    && (s.c.worker.Parked? && s.c.d.incoming.Some? ==>
          exists t :: t in s.callers && InstallBeforeNotify(s.callers[t]))
    && (s.c.worker.Parked? && s.c.d.shutdown ==>
          exists t :: t in s.callers && StopBeforeNotify(s.callers[t]))
    && (s.c.d.shutdown && s.c.d.incoming.Some? ==>
          exists t :: t in s.callers && StopBeforeTake(s.callers[t]))
  }

  ghost predicate InHand(pc: Pc, r: nat) {
    || (pc.InstallSupersede? && pc.prior == r)
    || (pc.StopReply? && pc.taken.Some? && pc.taken.value.id == r)
  }

  ghost predicate HandedOk(s: State) {
    forall r: nat :: r < |s.c.h.places| && s.c.h.places[r].Handed? ==>
      s.c.h.places[r].t in s.callers && InHand(s.callers[s.c.h.places[r].t], r)
  }

  ghost predicate CoreOk(c: Core) {
    JobsOk(c) && FlagsOk(c) && CardsOk(c) && CancelsOk(c) && StopsOk(c) && InstallsOk(c) && InfoOk(c)
  }

  ghost predicate CallersOk(s: State) {
    forall t :: t in s.callers ==> CallerOk(s.c, t, s.callers[t])
  }

  ghost predicate Inv(s: State) {
    LocksOk(s) && CoreOk(s.c) && CallersOk(s) && WakeOk(s) && HandedOk(s)
  }

  lemma InitIsGood(maxDepth: nat, model: Model)
    ensures Inv(Init(maxDepth, model))
  {
  }

  // ----- each core part is kept by a caller's step

  /** What a caller inside its section may rely on: the worker is not in the same one. */
  ghost predicate Alone(c: Core, pc: Pc) {
    forall l :: Holds(pc, l) ==> !WorkerHolds(c.worker, l)
  }

  lemma SubmitKeepsJobs(c: Core, t: Tid, pc: Pc)
    requires JobsOk(c) && CallerOk(c, t, pc) && DoSubmit(c, pc).Moved?
    ensures JobsOk(DoSubmit(c, pc).c)
  {
    if pc.SubmitHold? && |c.d.pending| < c.d.maxDepth {
      var c' := DoSubmit(c, pc).c;
      assert c'.h.accepted[..|c.h.accepted|] == c.h.accepted;
      assert c.h.started + (c.d.pending + [pc.job]) == c.h.started + c.d.pending + [pc.job];
      assert pc.job !in c.h.dropped;
    }
  }

  lemma CancelKeepsJobs(c: Core, pc: Pc)
    requires JobsOk(c) && DoCancel(c, pc).Moved?
    ensures JobsOk(DoCancel(c, pc).c)
  {
    if pc.CancelHoldPending? && pc.job in c.d.pending {
      QueueHasNoRepeats(c);
      KeptDrops(c.h.accepted, c.h.dropped, pc.job);
      WithoutPrefix(c.h.started, c.d.pending, pc.job);
      WithoutMembers(c.d.pending, pc.job, pc.job);
    }
  }

  lemma InstallKeepsJobs(c: Core, t: Tid, pc: Pc)
    requires JobsOk(c) && DoInstall(c, t, pc).Moved?
    ensures JobsOk(DoInstall(c, t, pc).c)
  {
  }

  lemma StopKeepsJobs(c: Core, t: Tid, pc: Pc)
    requires JobsOk(c) && DoStop(c, t, pc).Moved?
    ensures JobsOk(DoStop(c, t, pc).c)
  {
  }

  lemma DoKeepsJobs(c: Core, t: Tid, pc: Pc)
    requires JobsOk(c) && CallerOk(c, t, pc) && Do(c, t, pc).Moved?
    ensures JobsOk(Do(c, t, pc).c)
  {
    if pc.SubmitHold? || pc.SubmitNotify? { SubmitKeepsJobs(c, t, pc); }
    else if pc.CancelHoldPending? || pc.CancelHoldRunning? { CancelKeepsJobs(c, pc); }
    else if Do(c, t, pc) == DoStop(c, t, pc) && DoStop(c, t, pc).Moved? { StopKeepsJobs(c, t, pc); }
    else if Do(c, t, pc) == DoInstall(c, t, pc) { InstallKeepsJobs(c, t, pc); }
  }

  lemma SubmitKeepsFlags(c: Core, pc: Pc)
    requires FlagsOk(c) && DoSubmit(c, pc).Moved?
    ensures FlagsOk(DoSubmit(c, pc).c)
  {
  }

  lemma SignalKeepsFlags(c: Core, c': Core)
    requires JobsOk(c) && FlagsOk(c)
    requires c'.worker == c.worker && c'.d == Signal(c.d)
    requires c'.h.started == c.h.started
    requires c.h.cancelHit <= c'.h.cancelHit && c.h.stopHit <= c'.h.stopHit
    requires c.d.running.Some? ==> c.d.running.value.id in c'.h.cancelHit + c'.h.stopHit
    ensures FlagsOk(c')
  {
  }

  lemma CancelKeepsFlags(c: Core, pc: Pc)
    requires JobsOk(c) && FlagsOk(c) && DoCancel(c, pc).Moved?
    ensures FlagsOk(DoCancel(c, pc).c)
  {
    if pc.CancelHoldRunning? && RunningIs(c.d, pc.job) { SignalKeepsFlags(c, DoCancel(c, pc).c); }
  }

  lemma InstallKeepsFlags(c: Core, t: Tid, pc: Pc)
    requires FlagsOk(c) && DoInstall(c, t, pc).Moved?
    ensures FlagsOk(DoInstall(c, t, pc).c)
  {
  }

  lemma StopKeepsFlags(c: Core, t: Tid, pc: Pc)
    requires JobsOk(c) && FlagsOk(c) && DoStop(c, t, pc).Moved?
    ensures FlagsOk(DoStop(c, t, pc).c)
  {
    if pc.StopHoldRunning? { SignalKeepsFlags(c, DoStop(c, t, pc).c); }
  }

  lemma DoKeepsFlags(c: Core, t: Tid, pc: Pc)
    requires JobsOk(c) && FlagsOk(c) && Do(c, t, pc).Moved?
    ensures FlagsOk(Do(c, t, pc).c)
  {
    if pc.SubmitHold? || pc.SubmitNotify? { SubmitKeepsFlags(c, pc); }
    else if pc.CancelHoldPending? || pc.CancelHoldRunning? { CancelKeepsFlags(c, pc); }
    else if Do(c, t, pc) == DoStop(c, t, pc) && DoStop(c, t, pc).Moved? { StopKeepsFlags(c, t, pc); }
    else if Do(c, t, pc) == DoInstall(c, t, pc) { InstallKeepsFlags(c, t, pc); }
  }

  lemma StopKeepsStops(c: Core, t: Tid, pc: Pc)
    requires JobsOk(c) && FlagsOk(c) && StopsOk(c) && CallerOk(c, t, pc) && Alone(c, pc) && DoStop(c, t, pc).Moved?
    ensures StopsOk(DoStop(c, t, pc).c)
  {
    assert Holds(pc, PendingLock) ==> !WorkerHolds(c.worker, PendingLock);
  }

  /** Every other step leaves shutdown, the signal and the handle alone, and only sets flags. */
  lemma OthersKeepStops(c: Core, c': Core)
    requires StopsOk(c) && c'.d.shutdown == c.d.shutdown && c'.h.signalled == c.h.signalled && c'.handle == c.handle
    requires c'.worker == c.worker || c'.worker == Wake(c.worker)
    requires |c'.d.flags| == |c.d.flags| && forall i :: 0 <= i < |c.d.flags| && c.d.flags[i] ==> c'.d.flags[i]
    ensures StopsOk(c')
  {
  }

  lemma QuietForStops(c: Core, t: Tid, pc: Pc)
    requires Do(c, t, pc).Moved? && Do(c, t, pc) != DoStop(c, t, pc)
    ensures var c' := Do(c, t, pc).c;
      && c'.d.shutdown == c.d.shutdown && c'.h.signalled == c.h.signalled && c'.handle == c.handle
      && (c'.worker == c.worker || c'.worker == Wake(c.worker))
      && |c'.d.flags| == |c.d.flags| && forall i :: 0 <= i < |c.d.flags| && c.d.flags[i] ==> c'.d.flags[i]
  {
  }

  lemma DoKeepsStops(c: Core, t: Tid, pc: Pc)
    requires JobsOk(c) && FlagsOk(c) && StopsOk(c) && CallerOk(c, t, pc) && Alone(c, pc) && Do(c, t, pc).Moved?
    ensures StopsOk(Do(c, t, pc).c)
  {
    if Do(c, t, pc) == DoStop(c, t, pc) { StopKeepsStops(c, t, pc); }
    else {
      QuietForStops(c, t, pc);
      OthersKeepStops(c, Do(c, t, pc).c);
    }
  }

  lemma ReplyKeepsInstalls(c: Core, r: nat, answer: Answer, c': Core)
    requires InstallsOk(c) && r < |c.h.places| && Unanswered(c.h, r)
    requires c.h.places[r].Handed? || (c.h.places[r].AtWorker? && !WorkerHas(c'.worker, r))
    requires c'.d == c.d && c'.h == Reply(c.h, r, answer)
    requires c.h.places[r].Handed? ==> c'.worker == c.worker
    requires c.h.places[r].AtWorker? ==> c'.worker.Swapping? || c'.worker.WantPending?
    requires answer.Built? ==> answer.model == c.h.requests[r]
    requires answer.Superseded? ==> r + 1 < |c.h.requests|
    requires answer.ShuttingDown? ==> c.d.shutdown
    ensures InstallsOk(c')
  {
    assert c'.h.replies[r] == [answer];
  }

  lemma StagingKeepsInstalls(c: Core, t: Tid, model: Model)
    requires InstallsOk(c) && !c.d.shutdown
    ensures InstallsOk(DoInstall(c, t, InstallHoldIncoming(model)).c)
  {
  }

  lemma InstallKeepsInstalls(c: Core, t: Tid, pc: Pc)
    requires InstallsOk(c) && CallerOk(c, t, pc) && DoInstall(c, t, pc).Moved?
    ensures InstallsOk(DoInstall(c, t, pc).c)
  {
    if pc.InstallHoldIncoming? { StagingKeepsInstalls(c, t, pc.model); }
    else if pc.InstallSupersede? { ReplyKeepsInstalls(c, pc.prior, Superseded, DoInstall(c, t, pc).c); }
  }

  lemma StopKeepsInstalls(c: Core, t: Tid, pc: Pc)
    requires InstallsOk(c) && CallerOk(c, t, pc) && DoStop(c, t, pc).Moved?
    ensures InstallsOk(DoStop(c, t, pc).c)
  {
    if pc.StopReply? && pc.taken.Some? { ReplyKeepsInstalls(c, pc.taken.value.id, ShuttingDown, DoStop(c, t, pc).c); }
  }

  /** Submits and cancels, which stage, take and answer nothing. */
  lemma JobCallsKeepInstalls(c: Core, pc: Pc)
    requires InstallsOk(c)
    ensures DoSubmit(c, pc).Moved? ==> InstallsOk(DoSubmit(c, pc).c)
    ensures DoCancel(c, pc).Moved? ==> InstallsOk(DoCancel(c, pc).c)
  {
  }

  lemma DoKeepsInstalls(c: Core, t: Tid, pc: Pc)
    requires InstallsOk(c) && CallerOk(c, t, pc) && Do(c, t, pc).Moved?
    ensures InstallsOk(Do(c, t, pc).c)
  {
    hide InstallsOk, CallerOk, DoSubmit, DoCancel, DoInstall, DoStop;
    JobCallsKeepInstalls(c, pc);
    if Do(c, t, pc) == DoStop(c, t, pc) { StopKeepsInstalls(c, t, pc); }
    else if Do(c, t, pc) == DoInstall(c, t, pc) { InstallKeepsInstalls(c, t, pc); }
  }

  lemma DoKeepsInfo(c: Core, t: Tid, pc: Pc)
    requires InfoOk(c) && Do(c, t, pc).Moved?
    ensures InfoOk(Do(c, t, pc).c)
  {
  }

  // ----- and by a step of the worker

  lemma PopKeepsJobs(c: Core)
    requires JobsOk(c) && c.worker.Choose? && c.d.pending != []
    ensures JobsOk(WorkNext(c).value)
  {
    assert c.h.started + c.d.pending == (c.h.started + [c.d.pending[0]]) + c.d.pending[1..];
  }

  /** The worker moves on without a job changing hands. */
  lemma IdleKeepsJobs(c: Core, c': Core)
    requires JobsOk(c)
    requires c'.h.accepted == c.h.accepted && c'.h.dropped == c.h.dropped && c'.h.started == c.h.started
    requires c'.h.claimant == c.h.claimant
    requires c'.d.pending == c.d.pending && c'.d.maxDepth == c.d.maxDepth && c'.d.flags == c.d.flags
    requires HasJob(c'.worker) ==> HasJob(c.worker)
    requires HasJob(c'.worker) ==> c'.worker.job == c.worker.job && c'.worker.flag == c.worker.flag
    ensures JobsOk(c')
  {
  }

  lemma NextKeepsJobs(c: Core)
    requires JobsOk(c) && WorkNext(c).Some?
    ensures JobsOk(WorkNext(c).value)
  {
    if c.worker.Choose? && c.d.pending != [] { PopKeepsJobs(c); } else { IdleKeepsJobs(c, WorkNext(c).value); }
  }

  lemma BuildTouchesNoJob(c: Core, turn: Turn)
    requires WorkInstall(c, turn).Some?
    ensures var c' := WorkInstall(c, turn).value;
      && c'.h.accepted == c.h.accepted && c'.h.dropped == c.h.dropped && c'.h.started == c.h.started
      && c'.h.claimant == c.h.claimant
      && c'.d.pending == c.d.pending && c'.d.maxDepth == c.d.maxDepth && c'.d.flags == c.d.flags
      && !HasJob(c.worker) && !HasJob(c'.worker)
  {
  }

  lemma BuildKeepsJobs(c: Core, turn: Turn)
    requires JobsOk(c) && WorkInstall(c, turn).Some?
    ensures JobsOk(WorkInstall(c, turn).value)
  {
    BuildTouchesNoJob(c, turn);
    IdleKeepsJobs(c, WorkInstall(c, turn).value);
  }

  lemma SeparateKeepsJobs(c: Core, turn: Turn)
    requires JobsOk(c) && WorkSeparate(c, turn).Some?
    ensures JobsOk(WorkSeparate(c, turn).value)
  {
    IdleKeepsJobs(c, WorkSeparate(c, turn).value);
  }

  lemma EndKeepsJobs(c: Core, turn: Turn)
    requires JobsOk(c) && WorkEnd(c, turn).Some?
    ensures JobsOk(WorkEnd(c, turn).value)
  {
    IdleKeepsJobs(c, WorkEnd(c, turn).value);
  }

  lemma PopKeepsFlags(c: Core)
    requires JobsOk(c) && FlagsOk(c) && c.worker.Choose? && c.d.pending != []
    ensures FlagsOk(WorkNext(c).value)
  {
  }

  lemma NextKeepsFlags(c: Core)
    requires JobsOk(c) && FlagsOk(c) && WorkNext(c).Some?
    ensures FlagsOk(WorkNext(c).value)
  {
    if c.worker.Choose? && c.d.pending != [] { PopKeepsFlags(c); }
  }

  lemma BuildKeepsFlags(c: Core, turn: Turn)
    requires FlagsOk(c) && WorkInstall(c, turn).Some?
    ensures FlagsOk(WorkInstall(c, turn).value)
  {
  }

  lemma SeparateKeepsFlags(c: Core, turn: Turn)
    requires JobsOk(c) && FlagsOk(c) && WorkSeparate(c, turn).Some?
    ensures FlagsOk(WorkSeparate(c, turn).value)
  {
  }

  lemma EndKeepsFlags(c: Core, turn: Turn)
    requires FlagsOk(c) && WorkEnd(c, turn).Some?
    ensures FlagsOk(WorkEnd(c, turn).value)
  {
  }

  lemma TakingKeepsInstalls(c: Core)
    requires InstallsOk(c) && c.worker.HoldIncoming? && c.d.incoming.Some?
    ensures InstallsOk(WorkNext(c).value)
  {
  }

  /** The worker moves without touching the books, and with no request in hand. */
  lemma IdleKeepsInstalls(c: Core, c': Core)
    requires InstallsOk(c) && !(c.worker.Building? || c.worker.Publishing? || c.worker.Replying?)
    requires !(c'.worker.Building? || c'.worker.Publishing? || c'.worker.Replying?)
    requires c'.d.incoming == c.d.incoming && c'.d.shutdown == c.d.shutdown
    requires c'.h.requests == c.h.requests && c'.h.places == c.h.places && c'.h.replies == c.h.replies
    ensures InstallsOk(c')
  {
  }

  lemma NextKeepsInstalls(c: Core)
    requires InstallsOk(c) && WorkNext(c).Some?
    ensures InstallsOk(WorkNext(c).value)
  {
    if c.worker.HoldIncoming? && c.d.incoming.Some? { TakingKeepsInstalls(c); }
    else { IdleKeepsInstalls(c, WorkNext(c).value); }
  }

  lemma BuildKeepsInstalls(c: Core, turn: Turn)
    requires InstallsOk(c) && WorkInstall(c, turn).Some?
    ensures InstallsOk(WorkInstall(c, turn).value)
  {
    if c.worker.Replying? { ReplyKeepsInstalls(c, c.worker.request.id, c.worker.answer, WorkInstall(c, turn).value); }
  }

  lemma SeparateKeepsInstalls(c: Core, turn: Turn)
    requires InstallsOk(c) && WorkSeparate(c, turn).Some?
    ensures InstallsOk(WorkSeparate(c, turn).value)
  {
    IdleKeepsInstalls(c, WorkSeparate(c, turn).value);
  }

  lemma EndKeepsInstalls(c: Core, turn: Turn)
    requires InstallsOk(c) && WorkEnd(c, turn).Some?
    ensures InstallsOk(WorkEnd(c, turn).value)
  {
    IdleKeepsInstalls(c, WorkEnd(c, turn).value);
  }

  lemma NextKeepsStops(c: Core)
    requires StopsOk(c) && WorkNext(c).Some?
    ensures StopsOk(WorkNext(c).value)
  {
  }

  lemma BuildKeepsStops(c: Core, turn: Turn)
    requires StopsOk(c) && WorkInstall(c, turn).Some?
    ensures StopsOk(WorkInstall(c, turn).value)
  {
  }

  lemma SeparateKeepsStops(c: Core, turn: Turn)
    requires StopsOk(c) && WorkSeparate(c, turn).Some?
    ensures StopsOk(WorkSeparate(c, turn).value)
  {
  }

  lemma EndKeepsStops(c: Core, turn: Turn)
    requires StopsOk(c) && WorkEnd(c, turn).Some?
    ensures StopsOk(WorkEnd(c, turn).value)
  {
  }

  lemma WorkKeepsStops(c: Core, turn: Turn)
    requires StopsOk(c) && DoWork(c, turn).Some?
    ensures StopsOk(DoWork(c, turn).value)
  {
    if DoWork(c, turn) == WorkNext(c) { NextKeepsStops(c); }
    else if DoWork(c, turn) == WorkInstall(c, turn) { BuildKeepsStops(c, turn); }
    else if DoWork(c, turn) == WorkSeparate(c, turn) { SeparateKeepsStops(c, turn); }
    else { EndKeepsStops(c, turn); }
  }

  lemma IdleKeepsInfo(c: Core, c': Core)
    requires InfoOk(c) && c'.d.info == c.d.info && c'.separator == c.separator
    requires !(c.worker.Replying? || c.worker.Swapping?) && !(c'.worker.Replying? || c'.worker.Swapping?)
    ensures InfoOk(c')
  {
  }

  lemma BuildKeepsInfo(c: Core, turn: Turn)
    requires InfoOk(c) && WorkInstall(c, turn).Some?
    ensures InfoOk(WorkInstall(c, turn).value)
  {
  }

  lemma SeparateKeepsInfo(c: Core, turn: Turn)
    requires InfoOk(c) && WorkSeparate(c, turn).Some?
    ensures InfoOk(WorkSeparate(c, turn).value)
  {
    IdleKeepsInfo(c, WorkSeparate(c, turn).value);
  }

  lemma EndKeepsInfo(c: Core, turn: Turn)
    requires InfoOk(c) && WorkEnd(c, turn).Some?
    ensures InfoOk(WorkEnd(c, turn).value)
  {
    IdleKeepsInfo(c, WorkEnd(c, turn).value);
  }

  lemma NextKeepsInfo(c: Core)
    requires InfoOk(c) && WorkNext(c).Some?
    ensures InfoOk(WorkNext(c).value)
  {
    IdleKeepsInfo(c, WorkNext(c).value);
  }

  lemma WorkKeepsInfo(c: Core, turn: Turn)
    requires InfoOk(c) && DoWork(c, turn).Some?
    ensures InfoOk(DoWork(c, turn).value)
  {
    hide WorkNext, WorkInstall, WorkSeparate, WorkEnd, InfoOk;
    if DoWork(c, turn) == WorkNext(c) { NextKeepsInfo(c); }
    else if DoWork(c, turn) == WorkInstall(c, turn) { BuildKeepsInfo(c, turn); }
    else if DoWork(c, turn) == WorkSeparate(c, turn) { SeparateKeepsInfo(c, turn); }
    else { EndKeepsInfo(c, turn); }
  }

  // ----- what the cards show

  /** The worker is where it was as far as cards go, which nobody wrote. */
  lemma SameCards(c: Core, c': Core)
    requires CardsOk(c) && CancelsOk(c)
    requires c'.cards == c.cards && c'.h.claimant == c.h.claimant && c'.h.started == c.h.started
    requires c'.worker == c.worker || (!HasJob(c'.worker) && (HasJob(c.worker) ==> JobOver(c.worker)))
             || c'.worker == WorkerGranted(c.worker)
             || (c.worker.HoldRegister? && c'.worker == Separating(c.worker.job, c.worker.flag))
    requires |c'.d.flags| == |c.d.flags| && forall i :: 0 <= i < |c.d.flags| && c.d.flags[i] ==> c'.d.flags[i]
    ensures CardsOk(c') && CancelsOk(c')
  {
  }

  lemma SubmitKeepsCards(c: Core, t: Tid, pc: Pc)
    requires JobsOk(c) && CardsOk(c) && CancelsOk(c) && CallerOk(c, t, pc) && DoSubmit(c, pc).Moved?
    ensures CardsOk(DoSubmit(c, pc).c) && CancelsOk(DoSubmit(c, pc).c)
  {
    QueueHasNoRepeats(c);
    var c' := DoSubmit(c, pc).c;
    if pc.SubmitHold? {
      assert pc.job !in c.h.started;
      assert c.cards[pc.job] == NEW_JOB;
      assert c'.cards == c.cards;
    }
    SameCards(c, c');
  }

  /** No card has been written, nothing started, and flags at most set. */
  ghost predicate NoCardWritten(c: Core, c': Core) {
    && c'.cards == c.cards && c'.h.claimant == c.h.claimant && c'.h.started == c.h.started
    && (c'.worker == c.worker || (c.worker.Parked? && c'.worker.WantPending?))
    && |c'.d.flags| == |c.d.flags| && forall i :: 0 <= i < |c.d.flags| && c.d.flags[i] ==> c'.d.flags[i]
  }

  lemma CancelWritesNoCard(c: Core, pc: Pc)
    requires DoCancel(c, pc).Moved?
    ensures NoCardWritten(c, DoCancel(c, pc).c)
  {
  }

  lemma InstallWritesNoCard(c: Core, t: Tid, pc: Pc)
    requires DoInstall(c, t, pc).Moved?
    ensures NoCardWritten(c, DoInstall(c, t, pc).c)
  {
  }

  lemma StopWritesNoCard(c: Core, t: Tid, pc: Pc)
    requires DoStop(c, t, pc).Moved?
    ensures NoCardWritten(c, DoStop(c, t, pc).c)
  {
  }

  lemma OthersWriteNoCard(c: Core, t: Tid, pc: Pc)
    requires Do(c, t, pc).Moved? && Do(c, t, pc) != DoSubmit(c, pc)
    ensures NoCardWritten(c, Do(c, t, pc).c)
  {
    hide DoSubmit, DoCancel, DoInstall, DoStop;
    if Do(c, t, pc) == DoCancel(c, pc) { CancelWritesNoCard(c, pc); }
    else if Do(c, t, pc) == DoInstall(c, t, pc) { InstallWritesNoCard(c, t, pc); }
    else if Do(c, t, pc) == DoStop(c, t, pc) { StopWritesNoCard(c, t, pc); }
  }

  lemma DoKeepsCards(c: Core, t: Tid, pc: Pc)
    requires JobsOk(c) && CardsOk(c) && CancelsOk(c) && CallerOk(c, t, pc) && Do(c, t, pc).Moved?
    ensures CardsOk(Do(c, t, pc).c) && CancelsOk(Do(c, t, pc).c)
  {
    hide CardsOk, CancelsOk, JobsOk;
    if Do(c, t, pc) == DoSubmit(c, pc) { SubmitKeepsCards(c, t, pc); }
    else {
      OthersWriteNoCard(c, t, pc);
      SameCards(c, Do(c, t, pc).c);
    }
  }

  lemma PopKeepsCards(c: Core)
    requires JobsOk(c) && CardsOk(c) && CancelsOk(c) && c.worker.Choose? && c.d.pending != []
    ensures CardsOk(WorkNext(c).value) && CancelsOk(WorkNext(c).value)
  {
    hide JobsOk, CardsOk, CancelsOk;
    QueueHasNoRepeats(c);
    assert c.d.pending[0] in c.d.pending;
    StartingKeepsCards(c, c.d.pending[0], WorkNext(c).value);
    StartingKeepsCancels(c, c.d.pending[0], WorkNext(c).value);
  }

  lemma StartingKeepsCards(c: Core, job: JobId, c': Core)
    requires CardsOk(c) && c.worker.Choose? && job !in c.h.started
    requires c'.cards == c.cards && c'.h.claimant == c.h.claimant && c'.h.started == c.h.started + [job]
    requires c'.worker.WantRegister? && c'.worker.job == job
    ensures CardsOk(c')
  {
    assert forall j :: j in c'.h.started <==> j in c.h.started || j == job;
  }

  lemma StartingKeepsCancels(c: Core, job: JobId, c': Core)
    requires CardsOk(c) && CancelsOk(c) && c.worker.Choose? && job !in c.h.started
    requires c'.cards == c.cards && c'.h.started == c.h.started + [job] && c'.d.flags == c.d.flags + [false]
    requires c'.worker.WantRegister?
    ensures CancelsOk(c')
  {
    assert forall i :: 0 <= i < |c.h.started| ==> c'.h.started[i] == c.h.started[i];
  }

  /** The worker writes the card of the job it is on. */
  lemma WritingKeepsCards(c: Core, card: Card, w: WorkerPc)
    requires JobsOk(c) && CardsOk(c) && CancelsOk(c) && AtJob(c.worker) && HasJob(w)
    requires w.job == c.worker.job && w.flag == c.worker.flag && !w.WantRegister? && !w.HoldRegister?
    requires if JobOver(w) then Settled(card) else AtWork(w, card)
    requires card.stage.Cancelled? || (w.Ending? && w.rest.SetCancelled?) ==> c.worker.flag < |c.d.flags| && c.d.flags[c.worker.flag]
    ensures var c' := c.(worker := w, cards := Show(c, c.worker.job, card)); CardsOk(c') && CancelsOk(c')
  {
    QueueHasNoRepeats(c);
    var c' := c.(worker := w, cards := Show(c, c.worker.job, card));
    assert c.worker.job in c.h.started && c.worker.job in c.cards;
    forall i | 0 <= i < |c.h.started| && c'.cards[c.h.started[i]].stage.Cancelled?
      ensures c.d.flags[i]
    {
      var all := c.h.started + c.d.pending;
      assert all[i] == c.h.started[i] && all[c.worker.flag] == c.worker.job;
    }
  }

  lemma WorkersCard(c: Core)
    requires JobsOk(c) && CardsOk(c) && HasJob(c.worker) && !JobOver(c.worker)
    ensures c.worker.job in c.cards && AtWork(c.worker, c.cards[c.worker.job])
  {
    QueueHasNoRepeats(c);
    assert c.worker.job in c.h.started;
    assert OnJob(c.worker, c.worker.job);
  }

  lemma SeparateKeepsCards(c: Core, turn: Turn)
    requires JobsOk(c) && CardsOk(c) && CancelsOk(c) && WorkSeparate(c, turn).Some?
    ensures CardsOk(WorkSeparate(c, turn).value) && CancelsOk(WorkSeparate(c, turn).value)
  {
    var c' := WorkSeparate(c, turn).value;
    if c.worker.Separating? {
      hide CardsOk, JobsOk, WorkSeparate, Settled;
      WorkersCard(c);
      SeparationSteps(c, turn);
      WritingKeepsCards(c, Seen(c', c.worker.job), c'.worker);
    } else {
      hide CardsOk, CancelsOk, JobsOk;
      SameCards(c, c');
    }
  }

  /** A report changes the stage shown; the separator's end, only where the worker is. */
  lemma SeparationSteps(c: Core, turn: Turn)
    requires c.worker.Separating? && WorkSeparate(c, turn).Some?
    requires c.worker.job in c.cards && AtWork(c.worker, c.cards[c.worker.job])
    ensures var c' := WorkSeparate(c, turn).value;
      && c'.worker.job == c.worker.job && c'.worker.flag == c.worker.flag && AtJob(c'.worker)
      && c' == c.(worker := c'.worker, cards := Show(c, c.worker.job, Seen(c', c.worker.job)))
      && AtWork(c'.worker, Seen(c', c.worker.job)) && !Seen(c', c.worker.job).stage.Cancelled?
      && (c'.worker.Ending? && c'.worker.rest.SetCancelled? ==>
            c.worker.flag < |c.d.flags| && c.d.flags[c.worker.flag])
  {
    assert c.cards == Show(c, c.worker.job, c.cards[c.worker.job]);
  }

  /** Every write leaves the card as the next one expects it. */
  lemma EndSteps(c: Core, turn: Turn)
    requires WorkEnd(c, turn).Some? && c.worker.job in c.cards && Midway(c.worker.rest, c.cards[c.worker.job])
    ensures var c' := WorkEnd(c, turn).value;
      && c'.worker.job == c.worker.job && c'.worker.flag == c.worker.flag && (c'.worker.Ending? || c'.worker.WantClear?)
      && c'.cards == Show(c, c.worker.job, Seen(c', c.worker.job))
      && (if JobOver(c'.worker) then Settled(Seen(c', c.worker.job)) else AtWork(c'.worker, Seen(c', c.worker.job)))
      && (Seen(c', c.worker.job).stage.Cancelled? ==> c.cards[c.worker.job].stage.Cancelled? || c.worker.rest.SetCancelled?)
      && !(c'.worker.Ending? && c'.worker.rest.SetCancelled?)
      && c' == c.(worker := c'.worker, cards := c'.cards)
  {
  }

  lemma CancelledIsFlagged(c: Core)
    requires JobsOk(c) && CancelsOk(c) && AtJob(c.worker) && c.worker.job in c.cards && c.cards[c.worker.job].stage.Cancelled?
    ensures c.worker.flag < |c.d.flags| && c.d.flags[c.worker.flag]
  {
    assert c.h.started[c.worker.flag] == c.worker.job;
  }

  lemma EndKeepsCards(c: Core, turn: Turn)
    requires JobsOk(c) && CardsOk(c) && CancelsOk(c) && WorkEnd(c, turn).Some?
    ensures CardsOk(WorkEnd(c, turn).value) && CancelsOk(WorkEnd(c, turn).value)
  {
    hide CardsOk, JobsOk, WorkEnd, Settled, Midway;
    var c' := WorkEnd(c, turn).value;
    EndIsAtItsJob(c, turn);
    WorkersCard(c);
    EndSteps(c, turn);
    if c.cards[c.worker.job].stage.Cancelled? { CancelledIsFlagged(c); }
    WritingKeepsCards(c, Seen(c', c.worker.job), c'.worker);
  }

  lemma EndIsAtItsJob(c: Core, turn: Turn)
    requires WorkEnd(c, turn).Some?
    ensures c.worker.Ending?
  {
  }

  lemma NextKeepsCards(c: Core)
    requires JobsOk(c) && CardsOk(c) && CancelsOk(c) && WorkNext(c).Some?
    ensures CardsOk(WorkNext(c).value) && CancelsOk(WorkNext(c).value)
  {
    hide CardsOk, CancelsOk, JobsOk;
    if c.worker.Choose? && c.d.pending != [] { PopKeepsCards(c); } else { SameCards(c, WorkNext(c).value); }
  }

  lemma BuildKeepsCards(c: Core, turn: Turn)
    requires CardsOk(c) && CancelsOk(c) && WorkInstall(c, turn).Some?
    ensures CardsOk(WorkInstall(c, turn).value) && CancelsOk(WorkInstall(c, turn).value)
  {
    hide CardsOk, CancelsOk;
    SameCards(c, WorkInstall(c, turn).value);
  }

  lemma WorkKeepsCards(c: Core, turn: Turn)
    requires JobsOk(c) && CardsOk(c) && CancelsOk(c) && DoWork(c, turn).Some?
    ensures CardsOk(DoWork(c, turn).value) && CancelsOk(DoWork(c, turn).value)
  {
    hide CardsOk, CancelsOk, JobsOk, WorkNext, WorkInstall, WorkSeparate, WorkEnd;
    if DoWork(c, turn) == WorkEnd(c, turn) { EndKeepsCards(c, turn); }
    else if DoWork(c, turn) == WorkSeparate(c, turn) { SeparateKeepsCards(c, turn); }
    else if DoWork(c, turn) == WorkInstall(c, turn) { BuildKeepsCards(c, turn); }
    else { NextKeepsCards(c); }
  }

  // ----- putting the core together

  lemma DoKeepsCore(c: Core, t: Tid, pc: Pc)
    requires CoreOk(c) && CallerOk(c, t, pc) && Alone(c, pc) && Do(c, t, pc).Moved?
    ensures CoreOk(Do(c, t, pc).c)
  {
    DoKeepsJobs(c, t, pc);
    DoKeepsCards(c, t, pc);
    DoKeepsFlags(c, t, pc);
    DoKeepsStops(c, t, pc);
    DoKeepsInstalls(c, t, pc);
    DoKeepsInfo(c, t, pc);
  }

  lemma WorkKeepsCore(c: Core, turn: Turn)
    requires CoreOk(c) && DoWork(c, turn).Some?
    ensures CoreOk(DoWork(c, turn).value)
  {
    WorkKeepsCards(c, turn);
    WorkKeepsStops(c, turn);
    WorkKeepsInfo(c, turn);
    if DoWork(c, turn) == WorkNext(c) {
      NextKeepsJobs(c);
      NextKeepsFlags(c);
      NextKeepsInstalls(c);
    } else if DoWork(c, turn) == WorkInstall(c, turn) {
      BuildKeepsJobs(c, turn);
      BuildKeepsFlags(c, turn);
      BuildKeepsInstalls(c, turn);
    } else if DoWork(c, turn) == WorkSeparate(c, turn) {
      SeparateKeepsJobs(c, turn);
      SeparateKeepsFlags(c, turn);
      SeparateKeepsInstalls(c, turn);
    } else {
      EndKeepsJobs(c, turn);
      EndKeepsFlags(c, turn);
      EndKeepsInstalls(c, turn);
    }
  }

  /** Being granted a lock changes nothing the core speaks of. */
  lemma GrantKeepsCore(c: Core)
    requires CoreOk(c) && WorkerWants(c.worker).Some?
    ensures CoreOk(c.(worker := WorkerGranted(c.worker)))
  {
    hide JobsOk, CardsOk, CancelsOk, InstallsOk;
    var c' := c.(worker := WorkerGranted(c.worker));
    IdleKeepsJobs(c, c');
    IdleKeepsInstalls(c, c');
    SameCards(c, c');
  }

  /** A new call adds at most a claimed job that nobody has accepted. */
  lemma BeginKeepsCore(s: State, t: Tid, op: Op)
    requires CoreOk(s.c) && Begin(s, t, op).Some?
    ensures CoreOk(Begin(s, t, op).value.c)
  {
    hide InstallsOk, CardsOk, CancelsOk, JobsOk;
    var c, c' := s.c, Begin(s, t, op).value.c;
    SameInstalls(c, c');
    if op.Submit? { ClaimKeepsCards(c, c', op.job, t); } else { assert c' == c; }
  }

  lemma ClaimKeepsCards(c: Core, c': Core, job: JobId, t: Tid)
    requires JobsOk(c) && CardsOk(c) && CancelsOk(c) && job !in c.h.claimant
    requires c' == c.(h := c.h.(claimant := c.h.claimant[job := t]), cards := Show(c, job, NEW_JOB))
    ensures JobsOk(c') && CardsOk(c') && CancelsOk(c')
  {
    QueueHasNoRepeats(c);
    assert job !in c.h.accepted && job !in c.h.started;
    assert forall j :: OnJob(c'.worker, j) <==> OnJob(c.worker, j);
  }

  lemma SameInstalls(c: Core, c': Core)
    requires InstallsOk(c) && c'.d == c.d && c'.worker == c.worker
    requires c'.h.requests == c.h.requests && c'.h.places == c.h.places && c'.h.replies == c.h.replies
    ensures InstallsOk(c')
  {
  }

  // ----- what a caller relies on is not disturbed by the others

  lemma SubmitKeepsOther(c: Core, t: Tid, pc: Pc, u: Tid, other: Pc)
    requires t != u && CallerOk(c, t, pc) && DoSubmit(c, pc).Moved? && CallerOk(c, u, other)
    requires Holds(pc, PendingLock) ==> !Holds(other, PendingLock)
    ensures CallerOk(DoSubmit(c, pc).c, u, other)
  {
  }

  lemma CancelKeepsOther(c: Core, t: Tid, pc: Pc, u: Tid, other: Pc)
    requires t != u && DoCancel(c, pc).Moved? && CallerOk(c, u, other)
    ensures CallerOk(DoCancel(c, pc).c, u, other)
  {
  }

  lemma InstallKeepsOther(c: Core, t: Tid, pc: Pc, u: Tid, other: Pc)
    requires InstallsOk(c) && t != u && CallerOk(c, t, pc) && DoInstall(c, t, pc).Moved? && CallerOk(c, u, other)
    ensures CallerOk(DoInstall(c, t, pc).c, u, other)
  {
  }

  lemma StopKeepsOther(c: Core, t: Tid, pc: Pc, u: Tid, other: Pc)
    requires InstallsOk(c) && t != u && CallerOk(c, t, pc) && DoStop(c, t, pc).Moved? && CallerOk(c, u, other)
    requires Holds(pc, PendingLock) ==> !Holds(other, PendingLock)
    ensures CallerOk(DoStop(c, t, pc).c, u, other)
  {
  }

  lemma OthersKeepCaller(c: Core, t: Tid, pc: Pc, u: Tid, other: Pc)
    requires InstallsOk(c) && t != u
    requires CallerOk(c, t, pc) && Do(c, t, pc).Moved?
    requires CallerOk(c, u, other)
    requires Holds(pc, PendingLock) ==> !Holds(other, PendingLock)
    ensures CallerOk(Do(c, t, pc).c, u, other)
  {
    if Do(c, t, pc) == DoSubmit(c, pc) { SubmitKeepsOther(c, t, pc, u, other); }
    else if Do(c, t, pc) == DoCancel(c, pc) { CancelKeepsOther(c, t, pc, u, other); }
    else if Do(c, t, pc) == DoStop(c, t, pc) { StopKeepsOther(c, t, pc, u, other); }
    else if Do(c, t, pc) == DoInstall(c, t, pc) { InstallKeepsOther(c, t, pc, u, other); }
  }

  /** All a caller can notice of a step of the worker. */
  ghost predicate Unnoticed(c: Core, c': Core) {
    && c'.h.claimant == c.h.claimant && c'.h.accepted == c.h.accepted
    && c'.d.shutdown == c.d.shutdown && c'.h.signalled == c.h.signalled
    && |c'.h.places| == |c.h.places|
    && (forall r: nat :: r < |c.h.places| && (c.h.places[r].Handed? || c'.h.places[r].Handed?) ==>
          c'.h.places[r] == c.h.places[r])
    && (forall j :: Started(c, j) ==> Started(c', j))
  }

  lemma NextUnnoticed(c: Core)
    requires JobsOk(c) && InstallsOk(c) && WorkNext(c).Some?
    ensures Unnoticed(c, WorkNext(c).value)
  {
    if c.worker.Choose? && c.d.pending != [] { QueueHasNoRepeats(c); }
  }

  lemma BuildUnnoticed(c: Core, turn: Turn)
    requires InstallsOk(c) && WorkInstall(c, turn).Some?
    ensures Unnoticed(c, WorkInstall(c, turn).value)
  {
  }

  lemma SeparateUnnoticed(c: Core, turn: Turn)
    requires InstallsOk(c) && WorkSeparate(c, turn).Some?
    ensures Unnoticed(c, WorkSeparate(c, turn).value)
  {
  }

  lemma EndUnnoticed(c: Core, turn: Turn)
    requires InstallsOk(c) && WorkEnd(c, turn).Some?
    ensures Unnoticed(c, WorkEnd(c, turn).value)
  {
  }

  lemma WorkUnnoticed(c: Core, turn: Turn)
    requires JobsOk(c) && InstallsOk(c) && DoWork(c, turn).Some?
    ensures Unnoticed(c, DoWork(c, turn).value)
  {
    if DoWork(c, turn) == WorkNext(c) { NextUnnoticed(c); }
    else if DoWork(c, turn) == WorkInstall(c, turn) { BuildUnnoticed(c, turn); }
    else if DoWork(c, turn) == WorkSeparate(c, turn) { SeparateUnnoticed(c, turn); }
    else { EndUnnoticed(c, turn); }
  }

  lemma WorkerKeepsCaller(c: Core, c': Core, u: Tid, other: Pc)
    requires Unnoticed(c, c') && CallerOk(c, u, other)
    ensures CallerOk(c', u, other)
  {
  }

  lemma CancelKeepsOwn(c: Core, t: Tid, pc: Pc)
    requires JobsOk(c) && FlagsOk(c) && CallerOk(c, t, pc) && DoCancel(c, pc).Moved?
    requires Holds(pc, PendingLock) ==> !WorkerHolds(c.worker, PendingLock)
    ensures CallerOk(DoCancel(c, pc).c, t, DoCancel(c, pc).pc)
  {
    if c.d.running.Some? { assert c.d.running.value.id == c.h.started[|c.h.started| - 1]; }
  }

  lemma InstallKeepsOwn(c: Core, t: Tid, pc: Pc)
    requires InstallsOk(c) && CallerOk(c, t, pc) && DoInstall(c, t, pc).Moved?
    ensures CallerOk(DoInstall(c, t, pc).c, t, DoInstall(c, t, pc).pc)
  {
  }

  lemma StopKeepsOwn(c: Core, t: Tid, pc: Pc)
    requires InstallsOk(c) && CallerOk(c, t, pc) && DoStop(c, t, pc).Moved?
    ensures CallerOk(DoStop(c, t, pc).c, t, DoStop(c, t, pc).pc)
  {
  }

  lemma OwnStepKeepsCaller(c: Core, t: Tid, pc: Pc)
    requires JobsOk(c) && FlagsOk(c) && InstallsOk(c) && CallerOk(c, t, pc) && Do(c, t, pc).Moved? && Alone(c, pc)
    ensures CallerOk(Do(c, t, pc).c, t, Do(c, t, pc).pc)
  {
    assert Holds(pc, PendingLock) ==> !WorkerHolds(c.worker, PendingLock);
    if Do(c, t, pc) == DoCancel(c, pc) { CancelKeepsOwn(c, t, pc); }
    else if Do(c, t, pc) == DoStop(c, t, pc) { StopKeepsOwn(c, t, pc); }
    else if Do(c, t, pc) == DoInstall(c, t, pc) { InstallKeepsOwn(c, t, pc); }
  }

  // ----- waking, and requests in somebody's hand

  /** A request changes hands only to or from the caller that moves. */
  ghost predicate HandsOk(c: Core, t: Tid, pc: Pc, c': Core, pc': Pc) {
    forall r: nat :: r < |c'.h.places| && c'.h.places[r].Handed? ==>
      if c'.h.places[r].t == t then InHand(pc', r)
      else r < |c.h.places| && c'.h.places[r] == c.h.places[r]
  }

  lemma InstallHands(c: Core, t: Tid, pc: Pc)
    requires InstallsOk(c) && CallerOk(c, t, pc) && DoInstall(c, t, pc).Moved?
    requires forall r: nat :: r < |c.h.places| && c.h.places[r] == Handed(t) ==> InHand(pc, r)
    ensures HandsOk(c, t, pc, DoInstall(c, t, pc).c, DoInstall(c, t, pc).pc)
  {
  }

  lemma StopHands(c: Core, t: Tid, pc: Pc)
    requires InstallsOk(c) && CallerOk(c, t, pc) && DoStop(c, t, pc).Moved?
    requires forall r: nat :: r < |c.h.places| && c.h.places[r] == Handed(t) ==> InHand(pc, r)
    ensures HandsOk(c, t, pc, DoStop(c, t, pc).c, DoStop(c, t, pc).pc)
  {
  }

  lemma DoHands(c: Core, t: Tid, pc: Pc)
    requires InstallsOk(c) && CallerOk(c, t, pc) && Do(c, t, pc).Moved?
    requires forall r: nat :: r < |c.h.places| && c.h.places[r] == Handed(t) ==> InHand(pc, r)
    ensures HandsOk(c, t, pc, Do(c, t, pc).c, Do(c, t, pc).pc)
  {
    if Do(c, t, pc) == DoStop(c, t, pc) && DoStop(c, t, pc).Moved? { StopHands(c, t, pc); }
    else if Do(c, t, pc) == DoInstall(c, t, pc) { InstallHands(c, t, pc); }
  }

  lemma StepKeepsHanded(s: State, t: Tid, s': State)
    requires InstallsOk(s.c) && CallersOk(s) && HandedOk(s) && StepCaller(s, t) == Some(s')
    ensures HandedOk(s')
  {
    if Wants(s.callers[t]).None? { DoHands(s.c, t, s.callers[t]); }
  }

  lemma WorkKeepsHanded(s: State, turn: Turn, s': State)
    requires JobsOk(s.c) && InstallsOk(s.c) && HandedOk(s) && StepWorker(s, turn) == Some(s')
    ensures HandedOk(s')
  {
    if WorkerWants(s.c.worker).None? { WorkUnnoticed(s.c, turn); }
  }

  lemma HandedKept(s: State, a: Action, s': State)
    requires CoreOk(s.c) && CallersOk(s) && HandedOk(s) && Next(s, a) == Some(s')
    ensures HandedOk(s')
  {
    hide StepCaller, StepWorker;
    match a
    case Call(t, op) =>
    case GraceOver(t) =>
    case Step(t) => StepKeepsHanded(s, t, s');
    case Work(turn) => WorkKeepsHanded(s, turn, s');
  }

  /** A caller that leaves the worker parked has not left it anything to do untold. */
  ghost predicate StillTold(c: Core, pc: Pc, c': Core, pc': Pc) {
    && (c'.worker.Choose? ==> c.worker.Choose? && (c'.d.incoming.None? || c'.d.incoming == c.d.incoming))
    && (c'.worker.Parked? ==> c.worker.Parked?)
    && (c'.worker.Parked? && c'.d.pending != [] ==>
          pc'.SubmitNotify? || (c.d.pending != [] && !pc.SubmitNotify?))
    && (c'.worker.Parked? && c'.d.incoming.Some? ==>
          InstallBeforeNotify(pc') || (c.d.incoming.Some? && !InstallBeforeNotify(pc)))
    && (c'.worker.Parked? && c'.d.shutdown ==>
          StopBeforeNotify(pc') || (c.d.shutdown && !StopBeforeNotify(pc)))
    && (c'.d.shutdown && c'.d.incoming.Some? ==>
          StopBeforeTake(pc') || (c.d.shutdown && c.d.incoming.Some? && !StopBeforeTake(pc)))
  }

  lemma DoTells(c: Core, t: Tid, pc: Pc)
    requires CallerOk(c, t, pc) && Alone(c, pc) && Do(c, t, pc).Moved?
    ensures StillTold(c, pc, Do(c, t, pc).c, Do(c, t, pc).pc)
  {
    assert Holds(pc, PendingLock) ==> !WorkerHolds(c.worker, PendingLock);
    if pc.CancelHoldPending? && c.d.pending == [] { assert DoCancel(c, pc).c.d.pending == []; }
  }

  lemma CallerWakeKept(s: State, t: Tid, s': State)
    requires LocksOk(s) && CallersOk(s) && WakeOk(s) && StepCaller(s, t) == Some(s')
    ensures WakeOk(s')
  {
    var pc, pc' := s.callers[t], s'.callers[t];
    if Wants(pc).None? {
      forall l | Holds(pc, l) ensures !WorkerHolds(s.c.worker, l) { Exclusive(s, t, l); }
      DoTells(s.c, t, pc);
    }
    assert StillTold(s.c, pc, s'.c, pc') || Wants(pc).Some?;
    if s'.c.worker.Parked? && s'.c.d.pending != [] && !pc'.SubmitNotify? {
      var u :| u in s.callers && s.callers[u].SubmitNotify?;
      assert s'.callers[u].SubmitNotify?;
    }
    if s'.c.worker.Parked? && s'.c.d.incoming.Some? && !InstallBeforeNotify(pc') {
      var u :| u in s.callers && InstallBeforeNotify(s.callers[u]);
      assert InstallBeforeNotify(s'.callers[u]);
    }
    if s'.c.worker.Parked? && s'.c.d.shutdown && !StopBeforeNotify(pc') {
      var u :| u in s.callers && StopBeforeNotify(s.callers[u]);
      assert StopBeforeNotify(s'.callers[u]);
    }
    if s'.c.d.shutdown && s'.c.d.incoming.Some? && !StopBeforeTake(pc') {
      var u :| u in s.callers && StopBeforeTake(s.callers[u]);
      assert StopBeforeTake(s'.callers[u]);
    }
  }

  /** The worker parks over nothing, and neither stages a model nor raises shutdown. */
  ghost predicate ParksOverNothing(c: Core, c': Core) {
    && (c'.worker.Choose? ==> c'.d.incoming.None?)
    && (c'.worker.Parked? ==> c'.d.pending == [] && c'.d.incoming.None? && !c'.d.shutdown)
    && c'.d.shutdown == c.d.shutdown && (c'.d.incoming.Some? ==> c.d.incoming.Some?)
  }

  lemma NextTells(c: Core)
    requires StopsOk(c) && (c.worker.Choose? ==> c.d.incoming.None?) && WorkNext(c).Some?
    ensures ParksOverNothing(c, WorkNext(c).value)
  {
  }

  lemma BuildTells(c: Core, turn: Turn)
    requires WorkInstall(c, turn).Some?
    ensures ParksOverNothing(c, WorkInstall(c, turn).value)
  {
  }

  lemma SeparateTells(c: Core, turn: Turn)
    requires WorkSeparate(c, turn).Some?
    ensures ParksOverNothing(c, WorkSeparate(c, turn).value)
  {
  }

  lemma EndTells(c: Core, turn: Turn)
    requires WorkEnd(c, turn).Some?
    ensures ParksOverNothing(c, WorkEnd(c, turn).value)
  {
  }

  lemma WorkTells(c: Core, turn: Turn)
    requires StopsOk(c) && (c.worker.Choose? ==> c.d.incoming.None?) && DoWork(c, turn).Some?
    ensures ParksOverNothing(c, DoWork(c, turn).value)
  {
    hide WorkNext, WorkInstall, WorkSeparate, WorkEnd, ParksOverNothing, StopsOk;
    if DoWork(c, turn) == WorkNext(c) { NextTells(c); }
    else if DoWork(c, turn) == WorkInstall(c, turn) { BuildTells(c, turn); }
    else if DoWork(c, turn) == WorkSeparate(c, turn) { SeparateTells(c, turn); }
    else { EndTells(c, turn); }
  }

  lemma WakeKept(s: State, a: Action, s': State)
    requires LocksOk(s) && StopsOk(s.c) && CallersOk(s) && WakeOk(s) && Next(s, a) == Some(s')
    ensures WakeOk(s')
  {
    hide LocksOk, CallersOk, StopsOk, WakeOk, StepCaller, StepWorker, Begin, GiveUp;
    match a
    case Call(t, op) => CallWakeKept(s, t, op, s');
    case GraceOver(t) => GraceWakeKept(s, t, s');
    case Step(t) => CallerWakeKept(s, t, s');
    case Work(turn) => WorkerWakeKept(s, turn, s');
  }

  lemma CallWakeKept(s: State, t: Tid, op: Op, s': State)
    requires WakeOk(s) && Begin(s, t, op) == Some(s')
    ensures WakeOk(s')
  {
    assert forall u :: u in s.callers && u != t ==> s'.callers[u] == s.callers[u];
    assert t in s.callers ==> s.callers[t].Idle?;
  }

  lemma GraceWakeKept(s: State, t: Tid, s': State)
    requires WakeOk(s) && GiveUp(s, t) == Some(s')
    ensures WakeOk(s')
  {
    assert forall u :: u in s.callers && u != t ==> s'.callers[u] == s.callers[u];
  }

  lemma WorkerWakeKept(s: State, turn: Turn, s': State)
    requires StopsOk(s.c) && WakeOk(s) && StepWorker(s, turn) == Some(s')
    ensures WakeOk(s')
  {
    hide DoWork;
    if WorkerWants(s.c.worker).None? { WorkTells(s.c, turn); }
  }

  // ----- the invariant

  lemma BeginKeepsCallers(s: State, t: Tid, op: Op, s': State)
    requires JobsOk(s.c) && CallersOk(s) && Begin(s, t, op) == Some(s')
    ensures CallersOk(s')
  {
  }

  lemma StepKeepsCallers(s: State, t: Tid, s': State)
    requires LocksOk(s) && JobsOk(s.c) && FlagsOk(s.c) && InstallsOk(s.c) && CallersOk(s)
    requires StepCaller(s, t) == Some(s') && Wants(s.callers[t]).None?
    ensures CallersOk(s')
  {
    var pc := s.callers[t];
    forall l | Holds(pc, l) ensures !WorkerHolds(s.c.worker, l) { Exclusive(s, t, l); }
    OwnStepKeepsCaller(s.c, t, pc);
    forall u | u in s.callers && u != t ensures CallerOk(s'.c, u, s'.callers[u]) {
      forall l | Holds(pc, l) ensures !Holds(s.callers[u], l) { Exclusive(s, t, l); }
      OthersKeepCaller(s.c, t, pc, u, s.callers[u]);
    }
  }

  lemma GrantKeepsCallers(s: State, t: Tid, s': State)
    requires CallersOk(s) && StepCaller(s, t) == Some(s') && Wants(s.callers[t]).Some?
    ensures CallersOk(s')
  {
  }

  lemma GraceKeepsCallers(s: State, t: Tid, s': State)
    requires CallersOk(s) && GiveUp(s, t) == Some(s')
    ensures CallersOk(s')
  {
  }

  lemma WorkerGrantUnnoticed(c: Core)
    ensures Unnoticed(c, c.(worker := WorkerGranted(c.worker)))
  {
  }

  lemma WorkerKeepsCallers(s: State, turn: Turn, s': State)
    requires JobsOk(s.c) && InstallsOk(s.c) && CallersOk(s) && StepWorker(s, turn) == Some(s')
    ensures CallersOk(s')
  {
    hide JobsOk, InstallsOk, DoWork, CallerOk, Unnoticed;
    if WorkerWants(s.c.worker).None? { WorkUnnoticed(s.c, turn); } else { WorkerGrantUnnoticed(s.c); }
    forall u | u in s.callers { WorkerKeepsCaller(s.c, s'.c, u, s.callers[u]); }
  }

  lemma CallersKept(s: State, a: Action, s': State)
    requires LocksOk(s) && CoreOk(s.c) && CallersOk(s) && Next(s, a) == Some(s')
    ensures CallersOk(s')
  {
    hide LocksOk, CallersOk, StepWorker, StepCaller, GiveUp, Begin, JobsOk, FlagsOk, CardsOk, CancelsOk, InstallsOk;
    match a
    case Call(t, op) => BeginKeepsCallers(s, t, op, s');
    case GraceOver(t) => GraceKeepsCallers(s, t, s');
    case Step(t) =>
      IsCaller(s, t);
      if Wants(s.callers[t]).Some? { GrantKeepsCallers(s, t, s'); } else { StepKeepsCallers(s, t, s'); }
    case Work(turn) => WorkerKeepsCallers(s, turn, s');
  }

  lemma IsCaller(s: State, t: Tid)
    requires StepCaller(s, t).Some?
    ensures t in s.callers
  {
  }

  lemma CoreKept(s: State, a: Action, s': State)
    requires LocksOk(s) && CoreOk(s.c) && CallersOk(s) && Next(s, a) == Some(s')
    ensures CoreOk(s'.c)
  {
    hide CoreOk;
    match a
    case Call(t, op) => BeginKeepsCore(s, t, op);
    case GraceOver(t) =>
    case Step(t) =>
      var pc := s.callers[t];
      if Wants(pc).None? {
        forall l | Holds(pc, l) ensures !WorkerHolds(s.c.worker, l) { Exclusive(s, t, l); }
        DoKeepsCore(s.c, t, pc);
      }
    case Work(turn) =>
      if WorkerWants(s.c.worker).None? { WorkKeepsCore(s.c, turn); }
      else { GrantKeepsCore(s.c); }
  }

  /** Every step keeps the whole invariant. */
  lemma InvKept(s: State, a: Action, s': State)
    requires Inv(s) && Next(s, a) == Some(s')
    ensures Inv(s')
  {
    LocksKept(s, a, s');
    CoreKept(s, a, s');
    CallersKept(s, a, s');
    WakeKept(s, a, s');
    HandedKept(s, a, s');
  }
}
