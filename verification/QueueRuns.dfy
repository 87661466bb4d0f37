/**
 Building runs of the queue: one action more, one thread moving alone, one pass of the worker.
 */
module QueueRuns {
  import opened Wrappers
  import opened QueueShared
  import opened QueueProtocol
  import opened QueueTheorems

  function Last(run: seq<State>): State
    requires run != []
  {
    run[|run| - 1]
  }

  lemma Extend(run: seq<State>, acts: seq<Action>, a: Action) returns (run': seq<State>, acts': seq<Action>)
    requires IsRun(run, acts) && Next(Last(run), a).Some?
    ensures IsRun(run', acts') && Last(run') == Next(Last(run), a).value && run' == run + [Last(run')]
    ensures acts' == acts + [a]
  {
    run', acts' := run + [Next(Last(run), a).value], acts + [a];
    assert run'[0] == run[0];
  }

  /** `n` further steps of `f`, stopping at the first that cannot be taken. */
  ghost function Iterate<T>(f: T -> Option<T>, s: T, n: nat): Option<T>
    decreases n
  {
    if n == 0 then Some(s)
    else match f(s) case None => None case Some(s') => Iterate(f, s', n - 1)
  }

  lemma {:induction false} IterateOn<T>(f: T -> Option<T>, s: T, m: nat, n: nat)
    requires Iterate(f, s, m).Some?
    ensures Iterate(f, s, m + n) == Iterate(f, Iterate(f, s, m).value, n)
    decreases m
  {
    if m > 0 { IterateOn(f, f(s).value, m - 1, n); }
  }

  ghost predicate Reaches<T(!new)>(f: T -> Option<T>, s: T, s': T) {
    exists n: nat :: Iterate(f, s, n) == Some(s')
  }

  /** Some number of the same action, with nobody else moving, leads from one state to the other. */
  ghost predicate Leads(s: State, a: Action, s': State) {
    Reaches((x: State) => Next(x, a), s, s')
  }

  lemma LeadsOne(s: State, a: Action, s': State)
    requires Next(s, a) == Some(s')
    ensures Leads(s, a, s')
  {
    var f := (x: State) => Next(x, a);
    assert f(s) == Some(s') && Iterate(f, s', 0) == Some(s');
    assert Iterate(f, s, 1) == Some(s');
    assert Reaches(f, s, s');
  }

  lemma LeadsOn(s: State, a: Action, mid: State, s': State)
    requires Leads(s, a, mid) && Leads(mid, a, s')
    ensures Leads(s, a, s')
  {
    var f := (x: State) => Next(x, a);
    assert Reaches(f, s, mid) && Reaches(f, mid, s');
    var m: nat :| Iterate(f, s, m) == Some(mid);
    var n: nat :| Iterate(f, mid, n) == Some(s');
    IterateOn(f, s, m, n);
    assert Reaches(f, s, s');
  }

  lemma LeadsTwo(s: State, a: Action, mid: State, s': State)
    requires Next(s, a) == Some(mid) && Next(mid, a) == Some(s')
    ensures Leads(s, a, s')
  {
    LeadsOne(s, a, mid);
    LeadsOne(mid, a, s');
    LeadsOn(s, a, mid, s');
  }

  lemma {:induction false} ExtendBy(run: seq<State>, acts: seq<Action>, a: Action, n: nat)
    returns (run': seq<State>, acts': seq<Action>)
    requires IsRun(run, acts) && Iterate((x: State) => Next(x, a), Last(run), n).Some?
    ensures IsRun(run', acts') && Some(Last(run')) == Iterate((x: State) => Next(x, a), Last(run), n)
    decreases n
  {
    run', acts' := run, acts;
    if n > 0 {
      run', acts' := Extend(run, acts, a);
      run', acts' := ExtendBy(run', acts', a, n - 1);
    }
  }

  lemma ExtendTo(run: seq<State>, acts: seq<Action>, a: Action, s': State)
    returns (run': seq<State>, acts': seq<Action>)
    requires IsRun(run, acts) && Leads(Last(run), a, s')
    ensures IsRun(run', acts') && Last(run') == s'
  {
    var f := (x: State) => Next(x, a);
    assert Reaches(f, Last(run), s');
    var n: nat :| Iterate(f, Last(run), n) == Some(s');
    run', acts' := ExtendBy(run, acts, a, n);
  }

  /** The worker's pass as far as the choice of a job, where nothing is staged. */
  lemma WorkerLooks(s: State)
    requires s.c.worker.WantPending? && s.locks == map[] && !s.c.d.shutdown && s.c.d.incoming.None?
    ensures Leads(s, Work(Onwards), State(s.c.(worker := Choose), s.callers, map[PendingLock := TheWorker]))
  {
    var s1 := State(s.c.(worker := HoldPending), s.callers, map[PendingLock := TheWorker]);
    assert Next(s, Work(Onwards)) == Some(s1);
    LeadsOne(s, Work(Onwards), s1);
    WorkerLooksThrough(s1);
    var s3 := State(s1.c.(worker := HoldIncoming), s1.callers, map[PendingLock := TheWorker, IncomingLock := TheWorker]);
    WorkerFindsNoModel(s3);
    LeadsOn(s, Work(Onwards), s1, s3);
    LeadsOn(s, Work(Onwards), s3, State(s.c.(worker := Choose), s.callers, map[PendingLock := TheWorker]));
  }

  lemma WorkerLooksThrough(s: State)
    requires s.c.worker.HoldPending? && s.locks == map[PendingLock := TheWorker] && !s.c.d.shutdown
    ensures Leads(s, Work(Onwards), State(s.c.(worker := HoldIncoming), s.callers,
                                          map[PendingLock := TheWorker, IncomingLock := TheWorker]))
  {
    var s1 := State(s.c.(worker := WantIncoming), s.callers, s.locks);
    assert SettleWorker(s.locks, WantIncoming) == s.locks;
    assert Next(s, Work(Onwards)) == Some(s1);
    LeadsTwo(s, Work(Onwards), s1,
             State(s.c.(worker := HoldIncoming), s.callers, map[PendingLock := TheWorker, IncomingLock := TheWorker]));
  }

  lemma WorkerFindsNoModel(s: State)
    requires s.c.worker.HoldIncoming? && s.c.d.incoming.None?
    requires s.locks == map[PendingLock := TheWorker, IncomingLock := TheWorker]
    ensures Leads(s, Work(Onwards), State(s.c.(worker := Choose), s.callers, map[PendingLock := TheWorker]))
  {
    assert SettleWorker(s.locks, Choose) == map[PendingLock := TheWorker];
    LeadsOne(s, Work(Onwards), State(s.c.(worker := Choose), s.callers, map[PendingLock := TheWorker]));
  }

  /** And from there to the separator: popped, then registered, then every lock given back. */
  lemma WorkerPops(s: State) returns (s': State)
    requires s.c.worker.Choose? && s.locks == map[PendingLock := TheWorker] && s.c.d.pending != []
    ensures Leads(s, Work(Onwards), s')
    ensures s'.c.worker == Separating(s.c.d.pending[0], |s.c.d.flags|) && s'.locks == map[] && s'.callers == s.callers
    ensures s'.c.handle == s.c.handle && s'.c.d == Register(PopFront(s.c.d), s.c.d.pending[0], |s.c.d.flags|)
  {
    var s1 := WorkerTakes(s);
    var s2 := State(s1.c.(worker := HoldRegister(s.c.d.pending[0], |s.c.d.flags|)), s.callers,
                    map[PendingLock := TheWorker, RunningLock := TheWorker]);
    assert Next(s1, Work(Onwards)) == Some(s2);
    s' := WorkerRegisters(s2);
    LeadsOne(s, Work(Onwards), s1);
    LeadsTwo(s1, Work(Onwards), s2, s');
    LeadsOn(s, Work(Onwards), s1, s');
  }

  lemma WorkerTakes(s: State) returns (s': State)
    requires s.c.worker.Choose? && s.locks == map[PendingLock := TheWorker] && s.c.d.pending != []
    ensures Next(s, Work(Onwards)) == Some(s') && s'.locks == s.locks && s'.callers == s.callers
    ensures s'.c.worker == WantRegister(s.c.d.pending[0], |s.c.d.flags|)
    ensures s'.c.handle == s.c.handle && s'.c.d == PopFront(s.c.d)
  {
    assert SettleWorker(s.locks, WantRegister(s.c.d.pending[0], |s.c.d.flags|)) == s.locks;
    s' := Next(s, Work(Onwards)).value;
  }

  lemma WorkerRegisters(s: State) returns (s': State)
    requires s.c.worker.HoldRegister?
    requires s.locks == map[PendingLock := TheWorker, RunningLock := TheWorker]
    ensures Next(s, Work(Onwards)) == Some(s') && s'.locks == map[] && s'.callers == s.callers
    ensures s'.c.worker == Separating(s.c.worker.job, s.c.worker.flag) && s'.c.handle == s.c.handle
    ensures s'.c.d == Register(s.c.d, s.c.worker.job, s.c.worker.flag)
  {
    s' := Next(s, Work(Onwards)).value;
    assert SettleWorker(s.locks, s'.c.worker) == map[];
  }
}
