/**
 The queue's shared object, its fields updated in place.

 Each method is one critical section, run with the lock it is named for held; its
 postcondition is the section `QueueShared` specifies and `QueueProtocol` interleaves.
 */
module QueueObject {
  import opened Wrappers
  import opened QueueShared
  import opened QueueProtocol
  import opened QueueRuns

  class Inner {
    var pending: seq<JobId>
    const maxDepth: nat
    var shutdown: bool
    var incoming: Option<Request>
    var running: Option<Running>
    var info: Model
    var flags: seq<bool>

    ghost function View(): Shared
      reads this
    {
      Shared(pending, maxDepth, shutdown, incoming, running, info, flags)
    }

    constructor (maxDepth: nat, info: Model)
      ensures View() == Init(maxDepth, info).c.d
    {
      this.maxDepth := maxDepth;
      this.pending, this.shutdown, this.incoming, this.running := [], false, None, None;
      this.info, this.flags := info, [];
    }

    /** `submit`, under `pending`: refused at the depth limit, else last in line. */
    method Submit(job: JobId) returns (r: Result<nat, nat>)
      modifies this
      ensures View() == Push(old(View()), job)
      ensures r == if old(|pending|) >= maxDepth then Err(old(|pending|)) else Ok(old(|pending|))
      ensures r.Ok? ==> r.value < |pending| && pending[r.value] == job
    {
      if |pending| >= maxDepth {
        return Err(|pending|);
      }
      r := Ok(|pending|);
      pending := pending + [job];
    }

    /** The first section of `cancel`, under `pending`. */
    method CancelWaiting(job: JobId) returns (hit: bool)
      modifies this
      ensures View() == DropWaiting(old(View()), job)
      ensures hit <==> job in old(pending)
    {
      var kept, i := [], 0;
      while i < |pending|
        invariant 0 <= i <= |pending|
        invariant kept == Without(pending[..i], job)
        invariant |kept| <= i
        invariant |kept| < i <==> job in pending[..i]
      {
        assert pending[..i + 1][..i] == pending[..i];
        if pending[i] != job { kept := kept + [pending[i]]; }
        i := i + 1;
      }
      assert pending[..i] == pending;
      hit := |kept| != |pending|;
      pending := kept;
    }

    /** The second section of `cancel`, under `running`. */
    method CancelRunning(job: JobId) returns (hit: bool)
      modifies this`flags
      ensures View() == if hit then Signal(old(View())) else old(View())
      ensures hit <==> RunningIs(old(View()), job)
    {
      hit := running.Some? && running.value.id == job;
      if hit && running.value.flag < |flags| {
        flags := flags[running.value.flag := true];
      }
    }

    /** `install`, under `pending` and then `incoming`: refused once the queue is stopping. */
    method Stage(request: Request) returns (r: Result<Option<Request>, ()>)
      modifies this`incoming
      ensures r.Err? <==> shutdown
      ensures View() == if r.Ok? then StageModel(old(View()), request) else old(View())
      ensures r.Ok? ==> r.value == old(incoming)
    {
      if shutdown {
        return Err(());
      }
      r := Ok(incoming);
      incoming := Some(request);
    }

    /** The three sections of `stop`, under `pending`, `incoming` and `running`. */
    method StopRaise()
      modifies this`shutdown
      ensures View() == RaiseShutdown(old(View()))
    {
      shutdown := true;
    }

    method StopTake() returns (taken: Option<Request>)
      modifies this`incoming
      ensures taken == old(incoming) && View() == TakeIncoming(old(View()))
    {
      taken := incoming;
      incoming := None;
    }

    method StopSignal()
      modifies this`flags
      ensures View() == Signal(old(View()))
    {
      if running.Some? && running.value.flag < |flags| {
        flags := flags[running.value.flag := true];
      }
    }

    /** One pass of `next`, the worker holding `pending` throughout. */
    method Next() returns (found: Found)
      modifies this
      ensures found == QueueShared.Look(old(View()))
      ensures View() == AfterLook(old(View()))
    {
      if shutdown {
        return Leave;
      }
      if incoming.Some? {
        found := Swap(incoming.value);
        incoming := None;
        return;
      }
      if pending != [] {
        var job := pending[0];
        pending := pending[1..];
        found := Take(job, |flags|);
        running := Some(Running(job, |flags|));
        flags := flags + [false];
        return;
      }
      found := Park;
    }

    method PublishInfo(model: Model)
      modifies this`info
      ensures View() == QueueShared.PublishInfo(old(View()), model)
    {
      info := model;
    }

    method ClearRunning()
      modifies this`running
      ensures View() == QueueShared.ClearRunning(old(View()))
    {
      running := None;
    }
  }

  // ----- the pass that `Next` makes in one go is the worker's path through its small steps

  /** Where the worker is once a pass has found `found`. */
  function Landing(found: Found): WorkerPc {
    match found
    case Leave => Exited
    case Swap(request) => Building(request)
    case Take(job, flag) => Separating(job, flag)
    case Park => Parked
  }

  lemma WorkerFindsAModel(s: State) returns (s': State)
    requires s.c.worker.HoldIncoming? && s.c.d.incoming.Some?
    requires s.locks == map[PendingLock := TheWorker, IncomingLock := TheWorker]
    ensures Leads(s, Work(Onwards), s')
    ensures s'.c.worker == Building(s.c.d.incoming.value) && s'.c.d == TakeIncoming(s.c.d)
    ensures s'.locks == map[] && s'.callers == s.callers
  {
    s' := QueueProtocol.Next(s, Work(Onwards)).value;
    assert SettleWorker(s.locks, s'.c.worker) == map[];
    LeadsOne(s, Work(Onwards), s');
  }

  lemma WorkerParks(s: State)
    requires s.c.worker.Choose? && s.c.d.pending == [] && s.locks == map[PendingLock := TheWorker]
    ensures Leads(s, Work(Onwards), State(s.c.(worker := Parked), s.callers, map[]))
  {
    assert SettleWorker(s.locks, Parked) == map[];
    LeadsOne(s, Work(Onwards), State(s.c.(worker := Parked), s.callers, map[]));
  }

  lemma WorkerLeaves(s: State)
    requires s.c.worker.HoldPending? && s.locks == map[PendingLock := TheWorker] && s.c.d.shutdown
    ensures Leads(s, Work(Onwards), State(s.c.(worker := Exited), s.callers, map[]))
  {
    assert SettleWorker(s.locks, Exited) == map[];
    LeadsOne(s, Work(Onwards), State(s.c.(worker := Exited), s.callers, map[]));
  }

  /** Undisturbed, the small steps end where `Next` does, with every lock given back. */
  lemma PassIsLook(s: State) returns (s': State)
    requires s.c.worker.HoldPending? && s.locks == map[PendingLock := TheWorker]
    ensures Leads(s, Work(Onwards), s')
    ensures s'.c.d == AfterLook(s.c.d) && s'.c.worker == Landing(QueueShared.Look(s.c.d))
    ensures s'.locks == map[] && s'.callers == s.callers
  {
    if s.c.d.shutdown {
      WorkerLeaves(s);
      return State(s.c.(worker := Exited), s.callers, map[]);
    }
    WorkerLooksThrough(s);
    var looking := State(s.c.(worker := HoldIncoming), s.callers, map[PendingLock := TheWorker, IncomingLock := TheWorker]);
    if s.c.d.incoming.Some? {
      s' := WorkerFindsAModel(looking);
      LeadsOn(s, Work(Onwards), looking, s');
      return;
    }
    WorkerFindsNoModel(looking);
    var choosing := State(s.c.(worker := Choose), s.callers, map[PendingLock := TheWorker]);
    LeadsOn(s, Work(Onwards), looking, choosing);
    if s.c.d.pending == [] {
      WorkerParks(choosing);
      s' := State(s.c.(worker := Parked), s.callers, map[]);
    } else {
      s' := WorkerPops(choosing);
    }
    LeadsOn(s, Work(Onwards), choosing, s');
  }
}
