/**
 The queue's worker and its callers, interleaved.

 Every thread has a program counter, every lock an owner, and the worker an explicit
 parked state that only a notify ends.  An action is one lock acquisition, or what a
 thread does between two of them.
 */
module QueueProtocol {
  import opened Wrappers
  import opened QueueShared
  import P = Progress

  type Tid = nat

  datatype Lock = PendingLock | IncomingLock | RunningLock
  datatype Owner = TheWorker | Caller(t: Tid)

  /** What an `install` hears back. */
  datatype Answer = Built(model: Model) | BuildFailed | BuildPanicked | Superseded | ShuttingDown

  /** What a job's handle shows: its stage, and whether an entry, a result and an error are attached. */
  datatype Card = Card(stage: P.Stage, entry: bool, result: bool, error: bool)

  datatype Op = Submit(job: JobId) | Cancel(job: JobId) | Install(model: Model) | Stop | Peek(lock: Lock)

  datatype Ret =
    | Nothing
    | Position(at: nat)
    | Full(depth: nat)
    | CancelSaid(hit: bool)
    | InstallSaid(answer: Answer)
    | InstallRefused
    | StopSaid(out: bool)

  /** Where a caller is.  `Want` is before a lock is granted, `Hold` inside its section. */
  datatype Pc =
    | Idle(ret: Ret)
    | SubmitWant(job: JobId)
    | SubmitHold(job: JobId)
    | SubmitNotify(at: nat)
    | CancelWantPending(job: JobId)
    | CancelHoldPending(job: JobId)
    | CancelWantRunning(job: JobId, absent: bool)
    | CancelHoldRunning(job: JobId, absent: bool)
    | InstallWantPending(model: Model)
    | InstallHoldPending(model: Model)
    | InstallWantIncoming(model: Model)
    | InstallHoldIncoming(model: Model)
    | InstallSupersede(prior: nat, mine: nat)
    | InstallNotify(mine: nat)
    | InstallReceive(mine: nat)
    | StopWantPending
    | StopHoldPending
    | StopWantIncoming
    | StopHoldIncoming
    | StopReply(taken: Option<Request>)
    | StopWantRunning
    | StopHoldRunning
    | StopNotify
    | StopJoin
    | PeekWant(lock: Lock)
    | PeekHold(lock: Lock)

  /** What is left to do to a job once the separator has returned or panicked: the steps of
      `publish`, `complete`, `cancelled` and `fail`, and `fail` again from the handler of a panic. */
  datatype Rest =
    | SetWriting | Filing | SetEntry | SetResult | SetDone
    | SetCancelled
    | SetError | SetFailed
    | Returning
    | CaughtError | CaughtFailed

  datatype WorkerPc =
    | WantPending
    | HoldPending
    | WantIncoming
    | HoldIncoming
    | Choose
    | WantRegister(job: JobId, flag: nat)
    | HoldRegister(job: JobId, flag: nat)
    | Parked
    | Building(request: Request)
    | Publishing(request: Request)
    | Replying(request: Request, answer: Answer)
    | Swapping(model: Model)
    | Separating(job: JobId, flag: nat)
    | Ending(job: JobId, flag: nat, rest: Rest)
    | WantClear(job: JobId, flag: nat)
    | HoldClear(job: JobId, flag: nat)
    | Exited

  /** How the code the worker calls out to turns out. */
  datatype Turn =
    | Onwards
    | BuildOk | BuildErr | BuildPanic
    | Report(stage: P.Stage)
    | SeparateOk | SeparateErr | SeparateCancelled
    | WriteOk | WriteErr
    | Panic

  datatype Action = Call(t: Tid, op: Op) | Step(t: Tid) | GraceOver(t: Tid) | Work(turn: Turn)

  /** Where an install request is until it is answered. */
  datatype Place = Staged | AtWorker | Handed(t: Tid) | Answered

  /** What has happened so far.  Only `claimant` is ever consulted, and only by `Begin`. */
  datatype History = History(
    claimant: map<JobId, Tid>,
    accepted: seq<JobId>,
    dropped: set<JobId>,
    started: seq<JobId>,
    requests: seq<Model>,
    places: seq<Place>,
    replies: seq<seq<Answer>>,
    cancelHit: set<JobId>,
    stopHit: set<JobId>,
    signalled: bool)

  /** Everything but the callers' counters and the locks. */
  datatype Core = Core(
    d: Shared, h: History, worker: WorkerPc, separator: Model, handle: bool, cards: map<JobId, Card>)

  datatype State = State(c: Core, callers: map<Tid, Pc>, locks: map<Lock, Owner>)

  // ----- locks

  predicate Holds(pc: Pc, lock: Lock) {
    match lock
    case PendingLock =>
      || pc.SubmitHold? || pc.SubmitNotify? || pc.CancelHoldPending?
      || pc.InstallHoldPending? || pc.InstallWantIncoming? || pc.InstallHoldIncoming?
      || pc.StopHoldPending? || pc == PeekHold(PendingLock)
    case IncomingLock =>
      || pc.InstallHoldIncoming? || pc.StopHoldIncoming? || pc.StopReply?
      || pc == PeekHold(IncomingLock)
    case RunningLock =>
      pc.CancelHoldRunning? || pc.StopHoldRunning? || pc == PeekHold(RunningLock)
  }

  predicate WorkerHolds(w: WorkerPc, lock: Lock) {
    match lock
    case PendingLock =>
      || w.HoldPending? || w.WantIncoming? || w.HoldIncoming? || w.Choose?
      || w.WantRegister? || w.HoldRegister?
    case IncomingLock => w.HoldIncoming?
    case RunningLock => w.HoldRegister? || w.HoldClear?
  }

  function Wants(pc: Pc): Option<Lock> {
    match pc
    case SubmitWant(_) => Some(PendingLock)
    case CancelWantPending(_) => Some(PendingLock)
    case CancelWantRunning(_, _) => Some(RunningLock)
    case InstallWantPending(_) => Some(PendingLock)
    case InstallWantIncoming(_) => Some(IncomingLock)
    case StopWantPending => Some(PendingLock)
    case StopWantIncoming => Some(IncomingLock)
    case StopWantRunning => Some(RunningLock)
    case PeekWant(lock) => Some(lock)
    case _ => None
  }

  function Granted(pc: Pc): Pc {
    match pc
    case SubmitWant(job) => SubmitHold(job)
    case CancelWantPending(job) => CancelHoldPending(job)
    case CancelWantRunning(job, absent) => CancelHoldRunning(job, absent)
    case InstallWantPending(model) => InstallHoldPending(model)
    case InstallWantIncoming(model) => InstallHoldIncoming(model)
    case StopWantPending => StopHoldPending
    case StopWantIncoming => StopHoldIncoming
    case StopWantRunning => StopHoldRunning
    case PeekWant(lock) => PeekHold(lock)
    case _ => pc
  }

  function WorkerWants(w: WorkerPc): Option<Lock> {
    match w
    case WantPending => Some(PendingLock)
    case WantIncoming => Some(IncomingLock)
    case WantRegister(_, _) => Some(RunningLock)
    case WantClear(_, _) => Some(RunningLock)
    case _ => None
  }

  function WorkerGranted(w: WorkerPc): WorkerPc {
    match w
    case WantPending => HoldPending
    case WantIncoming => HoldIncoming
    case WantRegister(job, flag) => HoldRegister(job, flag)
    case WantClear(job, flag) => HoldClear(job, flag)
    case _ => w
  }

  // ----- what a caller does between locks

  function Wake(w: WorkerPc): WorkerPc {
    if w.Parked? then WantPending else w
  }

  function Reply(h: History, r: nat, answer: Answer): History {
    if r < |h.replies|
    then h.(replies := Put(h.replies, r, h.replies[r] + [answer]), places := Put(h.places, r, Answered))
    else h
  }

  /** A reply channel holds one answer; a second send would block. */
  predicate Unanswered(h: History, r: nat) {
    r < |h.replies| && h.replies[r] == []
  }

  function HandOver(h: History, request: Option<Request>, place: Place): History {
    if request.Some? then h.(places := Put(h.places, request.value.id, place)) else h
  }

  /** Neither waiting, nor running, nor popped and about to be registered as running. */
  predicate Absent(c: Core, job: JobId) {
    && job !in c.d.pending
    && !RunningIs(c.d, job)
    && !((c.worker.WantRegister? || c.worker.HoldRegister?) && c.worker.job == job)
  }

  /** A claimed job: queued, with nothing attached. */
  const NEW_JOB := Card(P.Queued, false, false, false)

  function Seen(c: Core, job: JobId): Card {
    if job in c.cards then c.cards[job] else NEW_JOB
  }

  function Show(c: Core, job: JobId, card: Card): map<JobId, Card> {
    c.cards[job := card]
  }

  datatype Effect = Blocked | Moved(c: Core, pc: Pc)

  function DoSubmit(c: Core, pc: Pc): Effect {
    match pc
    case SubmitHold(job) =>
      if |c.d.pending| >= c.d.maxDepth then Moved(c, Idle(Full(|c.d.pending|)))
      else Moved(c.(d := Push(c.d, job), h := c.h.(accepted := c.h.accepted + [job]),
                    cards := Show(c, job, Seen(c, job).(stage := P.Queued))),
                 SubmitNotify(|c.d.pending|))
    case SubmitNotify(at) => Moved(c.(worker := Wake(c.worker)), Idle(Position(at)))
    case _ => Blocked
  }

  function DoCancel(c: Core, pc: Pc): Effect {
    match pc
    case CancelHoldPending(job) =>
      if job in c.d.pending
      then Moved(c.(d := DropWaiting(c.d, job), h := c.h.(dropped := c.h.dropped + {job})),
                 Idle(CancelSaid(true)))
      else Moved(c, CancelWantRunning(job, Absent(c, job)))
    case CancelHoldRunning(job, _) =>
      if RunningIs(c.d, job)
      then Moved(c.(d := Signal(c.d), h := c.h.(cancelHit := c.h.cancelHit + {job})),
                 Idle(CancelSaid(true)))
      else Moved(c, Idle(CancelSaid(false)))
    case _ => Blocked
  }

  function DoInstall(c: Core, t: Tid, pc: Pc): Effect {
    match pc
    case InstallHoldPending(model) =>
      if c.d.shutdown then Moved(c, Idle(InstallRefused)) else Moved(c, InstallWantIncoming(model))
    case InstallHoldIncoming(model) =>
      var mine := |c.h.requests|;
      var h := HandOver(c.h, c.d.incoming, Handed(t));
      Moved(c.(d := StageModel(c.d, Request(mine, model)),
               h := h.(requests := h.requests + [model],
                       places := h.places + [Staged],
                       replies := h.replies + [[]])),
            if c.d.incoming.Some? then InstallSupersede(c.d.incoming.value.id, mine) else InstallNotify(mine))
    case InstallSupersede(prior, mine) =>
      if Unanswered(c.h, prior) then Moved(c.(h := Reply(c.h, prior, Superseded)), InstallNotify(mine))
      else Blocked
    case InstallNotify(mine) => Moved(c.(worker := Wake(c.worker)), InstallReceive(mine))
    case InstallReceive(mine) =>
      if mine < |c.h.replies| && c.h.replies[mine] != []
      then Moved(c, Idle(InstallSaid(c.h.replies[mine][0])))
      else Blocked
    case _ => Blocked
  }

  function DoStop(c: Core, t: Tid, pc: Pc): Effect {
    match pc
    case StopHoldPending => Moved(c.(d := RaiseShutdown(c.d)), StopWantIncoming)
    case StopHoldIncoming =>
      Moved(c.(d := TakeIncoming(c.d), h := HandOver(c.h, c.d.incoming, Handed(t))), StopReply(c.d.incoming))
    case StopReply(taken) =>
      // The guard outlives the reply: a send that blocked would block with the lock held.
      if taken.None? then Moved(c, StopWantRunning)
      else if Unanswered(c.h, taken.value.id)
      then Moved(c.(h := Reply(c.h, taken.value.id, ShuttingDown)), StopWantRunning)
      else Blocked
    case StopHoldRunning =>
      var hit := if c.d.running.Some? then {c.d.running.value.id} else {};
      Moved(c.(d := Signal(c.d), h := c.h.(stopHit := c.h.stopHit + hit, signalled := true)), StopNotify)
    case StopNotify =>
      var woken := c.(worker := Wake(c.worker));
      if c.handle then Moved(woken.(handle := false), StopJoin) else Moved(woken, Idle(StopSaid(true)))
    case StopJoin => if c.worker.Exited? then Moved(c, Idle(StopSaid(true))) else Blocked
    case _ => Blocked
  }

  function Do(c: Core, t: Tid, pc: Pc): Effect {
    match pc
    case SubmitHold(_) => DoSubmit(c, pc)
    case SubmitNotify(_) => DoSubmit(c, pc)
    case CancelHoldPending(_) => DoCancel(c, pc)
    case CancelHoldRunning(_, _) => DoCancel(c, pc)
    case PeekHold(_) => Moved(c, Idle(Nothing))
    case StopHoldPending => DoStop(c, t, pc)
    case StopHoldIncoming => DoStop(c, t, pc)
    case StopReply(_) => DoStop(c, t, pc)
    case StopHoldRunning => DoStop(c, t, pc)
    case StopNotify => DoStop(c, t, pc)
    case StopJoin => DoStop(c, t, pc)
    case _ => DoInstall(c, t, pc)
  }

  // ----- what the worker does between locks

  /** Inside `next`: leave, take a staged model, take a job, or park. */
  function WorkNext(c: Core): Option<Core> {
    match c.worker
    case HoldPending => Some(c.(worker := if c.d.shutdown then Exited else WantIncoming))
    case HoldIncoming =>
      if c.d.incoming.Some?
      then Some(c.(d := TakeIncoming(c.d), worker := Building(c.d.incoming.value),
                   h := HandOver(c.h, c.d.incoming, AtWorker)))
      else Some(c.(worker := Choose))
    case Choose =>
      if c.d.pending != []
      then Some(c.(d := PopFront(c.d), worker := WantRegister(c.d.pending[0], |c.d.flags|),
                   h := c.h.(started := c.h.started + [c.d.pending[0]])))
      else Some(c.(worker := Parked))
    case HoldRegister(job, flag) =>
      Some(c.(d := Register(c.d, job, flag), worker := Separating(job, flag)))
    case _ => None
  }

  /** Building a staged model: publish, answer, and only then swap. */
  function WorkInstall(c: Core, turn: Turn): Option<Core> {
    match c.worker
    case Building(request) =>
      (match turn
       case BuildOk => Some(c.(worker := Publishing(request)))
       case BuildErr => Some(c.(worker := Replying(request, BuildFailed)))
       case BuildPanic => Some(c.(worker := Replying(request, BuildPanicked)))
       case _ => None)
    case Publishing(request) =>
      Some(c.(d := PublishInfo(c.d, request.model), worker := Replying(request, Built(request.model))))
    case Replying(request, answer) =>
      if Unanswered(c.h, request.id)
      then Some(c.(h := Reply(c.h, request.id, answer),
                   worker := if answer.Built? then Swapping(answer.model) else WantPending))
      else None
    case Swapping(model) => Some(c.(separator := model, worker := WantPending))
    case _ => None
  }

  /** The one thing a step writes to the job's card. */
  function Written(rest: Rest, card: Card): Card {
    match rest
    case SetWriting => card.(stage := P.Writing)
    case SetEntry => card.(entry := true)
    case SetResult => card.(result := true)
    case SetDone => card.(stage := P.Done)
    case SetCancelled => card.(stage := P.Cancelled)
    case SetError => card.(error := true)
    case SetFailed => card.(stage := P.Failed)
    case CaughtError => card.(error := true)
    case CaughtFailed => card.(stage := P.Failed)
    case _ => card
  }

  /** Where the worker is after it. */
  function Onward(job: JobId, flag: nat, rest: Rest, turn: Turn): Option<WorkerPc> {
    match rest
    case SetWriting => Some(Ending(job, flag, Filing))
    case Filing =>
      if turn.WriteOk? then Some(Ending(job, flag, SetEntry))
      else if turn.WriteErr? then Some(Ending(job, flag, SetError))
      else None
    case SetEntry => Some(Ending(job, flag, SetResult))
    case SetResult => Some(Ending(job, flag, SetDone))
    case SetDone => Some(Ending(job, flag, Returning))
    case SetCancelled => Some(Ending(job, flag, Returning))
    case SetError => Some(Ending(job, flag, SetFailed))
    case SetFailed => Some(Ending(job, flag, Returning))
    case Returning => Some(WantClear(job, flag))
    case CaughtError => Some(Ending(job, flag, CaughtFailed))
    case CaughtFailed => Some(WantClear(job, flag))
  }

  predicate Caught(rest: Rest) {
    rest.CaughtError? || rest.CaughtFailed?
  }

  /** Separating: reports along the way, and then how it came out. */
  function WorkSeparate(c: Core, turn: Turn): Option<Core> {
    match c.worker
    case Separating(job, flag) =>
      (match turn
       case Report(stage) =>
         if stage.Terminal() then None else Some(c.(cards := Show(c, job, Seen(c, job).(stage := stage))))
       case SeparateOk => Some(c.(worker := Ending(job, flag, SetWriting)))
       case SeparateErr => Some(c.(worker := Ending(job, flag, SetError)))
       case SeparateCancelled =>
         // A separator reports a cancellation only after reading its own flag as set.
         if flag < |c.d.flags| && c.d.flags[flag] then Some(c.(worker := Ending(job, flag, SetCancelled))) else None
       case Panic => Some(c.(worker := Ending(job, flag, CaughtError)))
       case _ => None)
    case HoldClear(job, flag) => Some(c.(d := ClearRunning(c.d), worker := WantPending))
    case _ => None
  }

  /** After it: one write at a time, and a panic before any of them goes to the handler. */
  function WorkEnd(c: Core, turn: Turn): Option<Core> {
    match c.worker
    case Ending(job, flag, rest) =>
      if turn.Panic? && !Caught(rest) then Some(c.(worker := Ending(job, flag, CaughtError)))
      else
        (match Onward(job, flag, rest, turn)
         case None => None
         case Some(w) => Some(c.(worker := w, cards := Show(c, job, Written(rest, Seen(c, job))))))
    case _ => None
  }

  function DoWork(c: Core, turn: Turn): Option<Core> {
    match c.worker
    case Building(_) => WorkInstall(c, turn)
    case Publishing(_) => WorkInstall(c, turn)
    case Replying(_, _) => WorkInstall(c, turn)
    case Swapping(_) => WorkInstall(c, turn)
    case Separating(_, _) => WorkSeparate(c, turn)
    case Ending(_, _, _) => WorkEnd(c, turn)
    case HoldClear(_, _) => WorkSeparate(c, turn)
    case _ => WorkNext(c)
  }

  // ----- the transition function

  function Init(maxDepth: nat, model: Model): State {
    State(Core(Shared([], maxDepth, false, None, None, model, []),
               History(map[], [], {}, [], [], [], [], {}, {}, false),
               WantPending, model, true, map[]),
          map[], map[])
  }

  function Opening(op: Op): Pc {
    match op
    case Submit(job) => SubmitWant(job)
    case Cancel(job) => CancelWantPending(job)
    case Install(model) => InstallWantPending(model)
    case Stop => StopWantPending
    case Peek(lock) => PeekWant(lock)
  }

  /** A job is submitted once, by whoever claimed its key. */
  function Begin(s: State, t: Tid, op: Op): Option<State> {
    if t in s.callers && !s.callers[t].Idle? then None
    else if op.Submit? && op.job in s.c.h.claimant then None
    else
      var c := if op.Submit?
               then s.c.(h := s.c.h.(claimant := s.c.h.claimant[op.job := t]), cards := Show(s.c, op.job, NEW_JOB))
               else s.c;
      Some(s.(c := c, callers := s.callers[t := Opening(op)]))
  }

  /** The locks once thread `t` is at `pc`: whatever it no longer holds is free. */
  function Settle(locks: map<Lock, Owner>, t: Tid, pc: Pc): map<Lock, Owner> {
    map lock | lock in locks && (locks[lock] == Caller(t) ==> Holds(pc, lock)) :: locks[lock]
  }

  function SettleWorker(locks: map<Lock, Owner>, w: WorkerPc): map<Lock, Owner> {
    map lock | lock in locks && (locks[lock] == TheWorker ==> WorkerHolds(w, lock)) :: locks[lock]
  }

  function StepCaller(s: State, t: Tid): Option<State> {
    if t !in s.callers then None
    else
      var pc := s.callers[t];
      var want := Wants(pc);
      if want.Some? then
        if want.value in s.locks then None
        else Some(s.(locks := s.locks[want.value := Caller(t)], callers := s.callers[t := Granted(pc)]))
      else
        match Do(s.c, t, pc)
        case Blocked => None
        case Moved(c, pc') => Some(State(c, s.callers[t := pc'], Settle(s.locks, t, pc')))
  }

  function StepWorker(s: State, turn: Turn): Option<State> {
    var want := WorkerWants(s.c.worker);
    if want.Some? then
      if want.value in s.locks then None
      else Some(s.(locks := s.locks[want.value := TheWorker],
                   c := s.c.(worker := WorkerGranted(s.c.worker))))
    else
      match DoWork(s.c, turn)
      case None => None
      case Some(c) => Some(s.(c := c, locks := SettleWorker(s.locks, c.worker)))
  }

  function GiveUp(s: State, t: Tid): Option<State> {
    if t in s.callers && s.callers[t].StopJoin?
    then Some(s.(callers := s.callers[t := Idle(StopSaid(false))]))
    else None
  }

  /** One action, or `None` where the thread named cannot move. */
  function Next(s: State, a: Action): Option<State> {
    match a
    case Call(t, op) => Begin(s, t, op)
    case Step(t) => StepCaller(s, t)
    case GraceOver(t) => GiveUp(s, t)
    case Work(turn) => StepWorker(s, turn)
  }
}
