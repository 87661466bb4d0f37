/**
 The data behind the queue's three locks, and what each critical section does to it.

 A section is everything one thread does between taking a lock and giving it back, so
 it is a function on the shared data.  `QueueObject.Inner` executes these sections in
 place; `QueueProtocol` interleaves them.
 */
module QueueShared {
  import opened Wrappers

  type JobId = nat
  type Model = nat

  /** A model staged for the worker, with the reply channel it will be answered on. */
  datatype Request = Request(id: nat, model: Model)

  /** The job in flight and the index of the cancel flag made for it alone. */
  datatype Running = Running(id: JobId, flag: nat)

  datatype Shared = Shared(
    pending: seq<JobId>,
    maxDepth: nat,
    shutdown: bool,
    incoming: Option<Request>,
    running: Option<Running>,
    info: Model,
    flags: seq<bool>)

  /** What one pass of `next` finds while it holds `pending`. */
  datatype Found = Leave | Swap(request: Request) | Take(job: JobId, flag: nat) | Park

  /** `q` with `v` at `i`, or `q` itself where there is no such place. */
  function Put<T>(q: seq<T>, i: nat, v: T): (r: seq<T>)
    ensures |r| == |q|
    ensures forall k :: 0 <= k < |q| ==> r[k] == (if k == i then v else q[k])
  {
    if i < |q| then q[i := v] else q
  }

  // ----- submit

  function Push(d: Shared, job: JobId): Shared {
    if |d.pending| >= d.maxDepth then d else d.(pending := d.pending + [job])
  }

  // ----- cancel, both sections

  /** `s` without any occurrence of `job`, order kept. */
  function Without(s: seq<JobId>, job: JobId): seq<JobId> {
    if s == [] then []
    else if s[|s| - 1] == job then Without(s[..|s| - 1], job)
    else Without(s[..|s| - 1], job) + [s[|s| - 1]]
  }

  function DropWaiting(d: Shared, job: JobId): Shared {
    d.(pending := Without(d.pending, job))
  }

  predicate RunningIs(d: Shared, job: JobId) {
    d.running.Some? && d.running.value.id == job
  }

  function Signal(d: Shared): Shared {
    if d.running.Some? then d.(flags := Put(d.flags, d.running.value.flag, true)) else d
  }

  // ----- install

  function StageModel(d: Shared, request: Request): Shared {
    d.(incoming := Some(request))
  }

  // ----- stop

  function RaiseShutdown(d: Shared): Shared {
    d.(shutdown := true)
  }

  function TakeIncoming(d: Shared): Shared {
    d.(incoming := None)
  }

  // ----- the worker

  /** The oldest job leaves `pending`, and a fresh flag is made for it. */
  function PopFront(d: Shared): Shared {
    if d.pending == [] then d else d.(pending := d.pending[1..], flags := d.flags + [false])
  }

  function Register(d: Shared, job: JobId, flag: nat): Shared {
    d.(running := Some(Running(job, flag)))
  }

  function ClearRunning(d: Shared): Shared {
    d.(running := None)
  }

  function PublishInfo(d: Shared, model: Model): Shared {
    d.(info := model)
  }

  /** What one pass of `next` finds: shutdown first, then a staged model, then a job. */
  function Look(d: Shared): Found {
    if d.shutdown then Leave
    else if d.incoming.Some? then Swap(d.incoming.value)
    else if d.pending != [] then Take(d.pending[0], |d.flags|)
    else Park
  }

  /** The shared data after that pass, `running` registered under the same `pending`. */
  function AfterLook(d: Shared): Shared {
    match Look(d)
    case Leave => d
    case Swap(_) => TakeIncoming(d)
    case Take(job, flag) => Register(PopFront(d), job, flag)
    case Park => d
  }
}
