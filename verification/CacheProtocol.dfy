/**
 The stem cache under interleaving: publishes, lookups and sweeps by any number of threads,
 beside another process that may empty the directory.

 A step is what one thread does between points where others can act.  The index is only
 touched under its lock; files are not, which is what the tombstones are for.
 */
module CacheProtocol {

  type Key = nat
  type Id = nat
  type Thread = nat

  /** Where the holder of the index lock is; `pending` are deleted but still indexed. */
  datatype Lock =
    | Free
    | Sweeping(pending: set<Id>)
    | Taken(id: Id, pending: set<Id>)
    | Marked(id: Id, early: bool, pending: set<Id>)

  datatype State = State(
    /** Entries ever staged, and the key each was made for. */
    owner: map<Id, Key>,
    issued: nat,
    staged: set<Id>,
    index: map<Key, Id>,
    evicted: set<Id>,
    /** Directories with their files in place. */
    disk: set<Key>,
    lock: Lock,
    looked: map<Thread, Id>,
    missed: map<Thread, Id>,
    /** Entries a caller has been given. */
    handed: set<Id>,
    /** Entries whose directory another process removed. */
    lost: set<Id>,
    /** Entries that shared a directory with another entry of their key. */
    disturbed: set<Id>)

  datatype Action =
    | Stage(key: Key)
    | Insert(id: Id)
    | Begin
    | TakeEarly(key: Key)
    | Mark
    | MarkLate(key: Key)
    | Unlink(ok: bool)
    | RemoveLate(key: Key)
    | Unlock
    | Look(t: Thread, key: Key)
    | Check(t: Thread)
    | Miss(t: Thread)
    | Lose(key: Key)

  // ----- steps

  /** The entry the lock holder is taking out. */
  predicate Subject(s: State, id: Id) {
    (s.lock.Taken? || s.lock.Marked?) && s.lock.id == id
  }

  predicate Indexed(s: State, id: Id) {
    id in s.owner && s.owner[id] in s.index && s.index[s.owner[id]] == id
  }

  predicate Active(s: State, id: Id) {
    id in s.owner && (id in s.staged || Indexed(s, id) || Subject(s, id))
  }

  function ActiveOf(s: State, key: Key): set<Id> {
    set id | id in s.owner && s.owner[id] == key && Active(s, id)
  }

  function Of(s: State, key: Key): set<Id> {
    set id | id in s.owner && s.owner[id] == key
  }

  predicate Enabled(s: State, a: Action) {
    match a
    case Stage(_) => true
    case Insert(id) => s.lock.Free? && id in s.staged && id in s.owner
    case Begin => s.lock.Free?
    case TakeEarly(key) => s.lock.Sweeping? && key in s.index && s.index[key] !in s.lock.pending
    case Mark => s.lock.Taken?
    case MarkLate(key) => s.lock.Sweeping? && key in s.index && s.index[key] !in s.lock.pending
    case Unlink(_) => s.lock.Marked? && s.lock.id in s.owner
    case RemoveLate(key) => s.lock.Sweeping? && key in s.index && s.index[key] in s.lock.pending
    case Unlock => s.lock.Sweeping? && s.lock.pending == {}
    case Look(t, key) => s.lock.Free? && t !in s.looked && t !in s.missed && key in s.index
    case Check(t) => t in s.looked && s.looked[t] in s.owner
    case Miss(t) => s.lock.Free? && t in s.missed && s.missed[t] in s.owner
    case Lose(_) => true
  }

  /** A finished separation moved into place; its entry is not in the index yet. */
  function DoStage(s: State, key: Key): State {
    var id, others := s.issued, ActiveOf(s, key);
    s.(owner := s.owner[id := key], issued := id + 1, staged := s.staged + {id}, disk := s.disk + {key},
       disturbed := if others == {} then s.disturbed else s.disturbed + others + {id})
  }

  /** The entry is filed and given to the job; the lock is kept for the cap. */
  function DoInsert(s: State, id: Id): State
    requires id in s.owner
  {
    s.(index := s.index[s.owner[id] := id], staged := s.staged - {id}, handed := s.handed + {id},
       lock := Sweeping({}))
  }

  function DoTakeEarly(s: State, key: Key): State
    requires s.lock.Sweeping? && key in s.index
  {
    s.(index := s.index - {key}, lock := Taken(s.index[key], s.lock.pending))
  }

  function DoMark(s: State): State
    requires s.lock.Taken?
  {
    s.(evicted := s.evicted + {s.lock.id}, lock := Marked(s.lock.id, true, s.lock.pending))
  }

  function DoMarkLate(s: State, key: Key): State
    requires s.lock.Sweeping? && key in s.index
  {
    s.(evicted := s.evicted + {s.index[key]}, lock := Marked(s.index[key], false, s.lock.pending))
  }

  /** The directory goes, unless removing it fails, which is only logged. */
  function DoUnlink(s: State, ok: bool): State
    requires s.lock.Marked? && s.lock.id in s.owner
  {
    s.(disk := if ok then s.disk - {s.owner[s.lock.id]} else s.disk,
       lock := Sweeping(if s.lock.early then s.lock.pending else s.lock.pending + {s.lock.id}))
  }

  function DoRemoveLate(s: State, key: Key): State
    requires s.lock.Sweeping? && key in s.index
  {
    s.(index := s.index - {key}, lock := Sweeping(s.lock.pending - {s.index[key]}))
  }

  function DoCheck(s: State, t: Thread): State
    requires t in s.looked && s.looked[t] in s.owner
  {
    var id := s.looked[t];
    if s.owner[id] in s.disk then s.(looked := s.looked - {t}, handed := s.handed + {id})
    else s.(looked := s.looked - {t}, missed := s.missed[t := id])
  }

  /** Out of the index and marked, only if the index still holds the entry that went missing. */
  function DoMiss(s: State, t: Thread): State
    requires t in s.missed && s.missed[t] in s.owner
  {
    var id := s.missed[t];
    var key := s.owner[id];
    if key in s.index && s.index[key] == id then
      s.(missed := s.missed - {t}, index := s.index - {key}, evicted := s.evicted + {id})
    else s.(missed := s.missed - {t})
  }

  function DoLose(s: State, key: Key): State {
    s.(disk := s.disk - {key}, lost := s.lost + Of(s, key))
  }

  function Do(s: State, a: Action): State
    requires Enabled(s, a)
  {
    match a
    case Stage(key) => DoStage(s, key)
    case Insert(id) => DoInsert(s, id)
    case Begin => s.(lock := Sweeping({}))
    case TakeEarly(key) => DoTakeEarly(s, key)
    case Mark => DoMark(s)
    case MarkLate(key) => DoMarkLate(s, key)
    case Unlink(ok) => DoUnlink(s, ok)
    case RemoveLate(key) => DoRemoveLate(s, key)
    case Unlock => s.(lock := Free)
    case Look(t, key) => s.(looked := s.looked[t := s.index[key]])
    case Check(t) => DoCheck(s, t)
    case Miss(t) => DoMiss(s, t)
    case Lose(key) => DoLose(s, key)
  }

  function Init(): State {
    State(map[], 0, {}, map[], {}, {}, Free, map[], map[], {}, {}, {})
  }

  ghost predicate Next(s: State, s': State) {
    exists a :: Enabled(s, a) && s' == Do(s, a)
  }

  ghost predicate Run(run: seq<State>) {
    |run| > 0 && run[0] == Init() && forall i :: 0 <= i < |run| - 1 ==> Next(run[i], run[i + 1])
  }

  // ----- the invariant

  /** Ids are issued in order, and everything refers to issued ids. */
  ghost predicate Issued(s: State) {
    && (forall id: nat :: id in s.owner <==> id < s.issued)
    && (forall key :: key in s.index ==> s.index[key] in s.owner && s.owner[s.index[key]] == key)
    && (forall id :: id in s.staged || id in s.handed || id in s.evicted || id in s.lost || id in s.disturbed || Subject(s, id) ==>
          id in s.owner)
    && (forall t :: t in s.looked ==> s.looked[t] in s.owner)
    && (forall t :: t in s.missed ==> s.missed[t] in s.owner)
  }

  /** Each active entry is in one place. */
  ghost predicate OnePlace(s: State) {
    && (forall id :: id in s.staged ==> !Indexed(s, id) && !Subject(s, id))
    && (s.lock.Taken? ==> !Indexed(s, s.lock.id))
    && (s.lock.Marked? ==> (Indexed(s, s.lock.id) <==> !s.lock.early))
    && (forall id :: id in Pending(s) ==> Indexed(s, id))
  }

  /** And alone in its directory, unless disturbed. */
  ghost predicate Alone(s: State) {
    forall i, j :: Active(s, i) && Active(s, j) && i != j && s.owner[i] == s.owner[j] ==> i in s.disturbed
  }

  function Pending(s: State): set<Id> {
    if s.lock.Free? then {} else s.lock.pending
  }

  /** A marked entry that is still indexed is being deleted; a staged one is not marked. */
  ghost predicate MarksAreTrue(s: State) {
    && (forall id :: id in s.staged ==> id !in s.evicted)
    && (forall id :: id in s.evicted && Indexed(s, id) ==> id in Pending(s) || (s.lock.Marked? && s.lock.id == id))
    && (forall id :: id in Pending(s) ==> id in s.evicted)
    && (s.lock.Marked? ==> s.lock.id in s.evicted && s.lock.id !in s.lock.pending)
  }

  /** An unmarked entry is still somewhere, with its files, or it is one of the two exceptions. */
  ghost predicate FilesOrMark(s: State) {
    forall id :: id in s.owner && id !in s.evicted && id !in s.disturbed ==>
      Active(s, id) && (id in s.lost || s.owner[id] in s.disk)
  }

  /** A lookup that found files missing looked at an exception, or at an entry marked by then. */
  ghost predicate MissesAreTrue(s: State) {
    forall t :: t in s.missed ==>
      s.missed[t] in s.evicted || s.missed[t] in s.lost || s.missed[t] in s.disturbed
  }

  ghost predicate Inv(s: State) {
    Issued(s) && OnePlace(s) && Alone(s) && MarksAreTrue(s) && FilesOrMark(s) && MissesAreTrue(s)
  }

  lemma StageActive(s: State, key: Key)
    requires Issued(s)
    ensures var s' := DoStage(s, key);
      forall i :: i in s.owner ==>
        (Indexed(s', i) <==> Indexed(s, i)) && (Subject(s', i) <==> Subject(s, i)) && (Active(s', i) <==> Active(s, i))
    ensures !Indexed(DoStage(s, key), s.issued) && !Subject(s, s.issued)
  {
  }

  lemma StageKeepsPlaces(s: State, key: Key)
    requires Inv(s)
    ensures Issued(DoStage(s, key)) && OnePlace(DoStage(s, key)) && MarksAreTrue(DoStage(s, key))
  {
    StageActive(s, key);
  }

  lemma StageKeepsFiles(s: State, key: Key)
    requires Inv(s)
    ensures Alone(DoStage(s, key)) && FilesOrMark(DoStage(s, key)) && MissesAreTrue(DoStage(s, key))
  {
    StageActive(s, key);
    var others := ActiveOf(s, key);
    assert forall i :: i in s.owner && Active(s, i) && s.owner[i] == key ==> i in others;
  }

  lemma InsertKeeps(s: State, id: Id)
    requires Inv(s) && Enabled(s, Insert(id))
    ensures Inv(DoInsert(s, id))
  {
    var s' := DoInsert(s, id);
    assert forall i :: i in s.owner ==> Active(s', i) ==> Active(s, i);
    assert forall i :: i in s.owner && Active(s, i) && !Active(s', i) ==> s.owner[i] == s.owner[id] && i != id;
    assert Active(s, id);
  }

  lemma TakeEarlyKeeps(s: State, key: Key)
    requires Inv(s) && Enabled(s, TakeEarly(key))
    ensures Inv(DoTakeEarly(s, key))
  {
    TakeEarlyKeepsPlaces(s, key);
    TakeEarlyKeepsFiles(s, key);
  }

  lemma TakeEarlyActive(s: State, key: Key)
    requires Issued(s) && Enabled(s, TakeEarly(key))
    ensures var s' := DoTakeEarly(s, key);
      forall i :: (Indexed(s', i) <==> Indexed(s, i) && i != s.index[key]) && (Active(s', i) <==> Active(s, i))
  {
  }

  lemma TakeEarlyKeepsPlaces(s: State, key: Key)
    requires Inv(s) && Enabled(s, TakeEarly(key))
    ensures Issued(DoTakeEarly(s, key)) && OnePlace(DoTakeEarly(s, key)) && MarksAreTrue(DoTakeEarly(s, key))
  {
    TakeEarlyActive(s, key);
  }

  lemma TakeEarlyKeepsFiles(s: State, key: Key)
    requires Inv(s) && Enabled(s, TakeEarly(key))
    ensures Alone(DoTakeEarly(s, key)) && FilesOrMark(DoTakeEarly(s, key)) && MissesAreTrue(DoTakeEarly(s, key))
  {
    hide Active, Indexed;
    TakeEarlyActive(s, key);
  }

  lemma MarkKeeps(s: State)
    requires Inv(s) && Enabled(s, Mark)
    ensures Inv(DoMark(s))
  {
    var s' := DoMark(s);
    assert forall i :: Active(s', i) <==> Active(s, i);
  }

  lemma MarkLateKeeps(s: State, key: Key)
    requires Inv(s) && Enabled(s, MarkLate(key))
    ensures Inv(DoMarkLate(s, key))
  {
    var s' := DoMarkLate(s, key);
    assert forall i :: Active(s', i) <==> Active(s, i);
  }

  lemma UnlinkKeeps(s: State, ok: bool)
    requires Inv(s) && Enabled(s, Unlink(ok))
    ensures Inv(DoUnlink(s, ok))
  {
    var s' := DoUnlink(s, ok);
    assert forall i :: Active(s', i) ==> Active(s, i);
    assert forall i :: Active(s, i) && i != s.lock.id ==> Active(s', i);
    assert Active(s, s.lock.id);
  }

  lemma RemoveLateKeeps(s: State, key: Key)
    requires Inv(s) && Enabled(s, RemoveLate(key))
    ensures Inv(DoRemoveLate(s, key))
  {
    var s' := DoRemoveLate(s, key);
    assert forall i :: Active(s', i) ==> Active(s, i);
    assert forall i :: Active(s, i) && i != s.index[key] ==> Active(s', i);
  }

  lemma CheckActive(s: State, t: Thread)
    requires Enabled(s, Check(t))
    ensures forall i :: Indexed(DoCheck(s, t), i) <==> Indexed(s, i)
    ensures forall i :: Subject(DoCheck(s, t), i) <==> Subject(s, i)
    ensures forall i :: Active(DoCheck(s, t), i) <==> Active(s, i)
  {
  }

  lemma CheckKeepsPlaces(s: State, t: Thread)
    requires Inv(s) && Enabled(s, Check(t))
    ensures Issued(DoCheck(s, t)) && OnePlace(DoCheck(s, t)) && MarksAreTrue(DoCheck(s, t))
  {
    hide Active, Indexed;
    CheckActive(s, t);
  }

  lemma CheckKeepsFiles(s: State, t: Thread)
    requires Inv(s) && Enabled(s, Check(t))
    ensures Alone(DoCheck(s, t)) && FilesOrMark(DoCheck(s, t)) && MissesAreTrue(DoCheck(s, t))
  {
    hide Active;
    CheckActive(s, t);
  }

  lemma MissKeeps(s: State, t: Thread)
    requires Inv(s) && Enabled(s, Miss(t))
    ensures Inv(DoMiss(s, t))
  {
    var s' := DoMiss(s, t);
    assert forall i :: Active(s', i) ==> Active(s, i);
    assert forall i :: Active(s, i) && i != s.missed[t] ==> Active(s', i);
    assert !Indexed(s, s.missed[t]) ==> Active(s', s.missed[t]) == Active(s, s.missed[t]);
  }

  lemma LoseKeeps(s: State, key: Key)
    requires Inv(s)
    ensures Inv(DoLose(s, key))
  {
    var s' := DoLose(s, key);
    assert forall i :: (Indexed(s', i) <==> Indexed(s, i)) && (Subject(s', i) <==> Subject(s, i));
    assert forall i :: Active(s', i) <==> Active(s, i);
    assert forall i :: i in s.owner && s.owner[i] == key ==> i in s'.lost;
  }

  lemma QuietKeeps(s: State, a: Action)
    requires Inv(s) && Enabled(s, a) && (a.Begin? || a.Unlock? || a.Look?)
    ensures Inv(Do(s, a))
  {
    var s' := Do(s, a);
    assert forall i :: Active(s', i) <==> Active(s, i);
  }

  lemma InvKept(s: State, a: Action)
    requires Inv(s) && Enabled(s, a)
    ensures Inv(Do(s, a))
  {
    match a
    case Stage(key) => StageKeepsPlaces(s, key); StageKeepsFiles(s, key);
    case Insert(id) => InsertKeeps(s, id);
    case TakeEarly(key) => TakeEarlyKeeps(s, key);
    case Mark => MarkKeeps(s);
    case MarkLate(key) => MarkLateKeeps(s, key);
    case Unlink(ok) => UnlinkKeeps(s, ok);
    case RemoveLate(key) => RemoveLateKeeps(s, key);
    case Check(t) => CheckKeepsPlaces(s, t); CheckKeepsFiles(s, t);
    case Miss(t) => MissKeeps(s, t);
    case Lose(key) => LoseKeeps(s, key);
    case _ => QuietKeeps(s, a);
  }

  lemma InitIsGood()
    ensures Inv(Init())
  {
  }

  lemma {:induction false} EveryStateIsGood(run: seq<State>, n: nat)
    requires Run(run) && n < |run|
    ensures Inv(run[n])
  {
    if n > 0 {
      EveryStateIsGood(run, n - 1);
      assert Next(run[n - 1], run[n - 1 + 1]);
      var a :| Enabled(run[n - 1], a) && run[n] == Do(run[n - 1], a);
      InvKept(run[n - 1], a);
    } else {
      InitIsGood();
    }
  }

  // ----- what the tombstones promise

  /**
   An entry a caller was handed has its files on disk or is marked evicted, at every step,
   unless another process took the directory or the key was published over it.
   */
  lemma HandedIsOnDiskOrMarked(run: seq<State>, n: nat, id: Id)
    requires Run(run) && n < |run| && id in run[n].handed
    ensures id in run[n].owner
    ensures id in run[n].evicted || run[n].owner[id] in run[n].disk || id in run[n].lost || id in run[n].disturbed
  {
    EveryStateIsGood(run, n);
  }

  /** With the lock free, whatever left the index is marked, unless it was published over. */
  lemma EveryWayOutMarks(run: seq<State>, n: nat, id: Id)
    requires Run(run) && n < |run| && run[n].lock.Free?
    requires id in run[n].owner && id !in run[n].staged && id !in run[n].disturbed
    ensures id in run[n].evicted <==> !Indexed(run[n], id)
  {
    EveryStateIsGood(run, n);
  }

  /** Staging and losing wait for nobody; a sweep can give up whatever it has not dealt with, either way,
      and take out what it has; and with the lock free anybody can look. */
  lemma WhatCanHappen(s: State, key: Key)
    ensures Enabled(s, Stage(key)) && Enabled(s, Lose(key))
    ensures s.lock.Sweeping? && key in s.index ==>
      if s.index[key] in s.lock.pending then Enabled(s, RemoveLate(key))
      else Enabled(s, TakeEarly(key)) && Enabled(s, MarkLate(key))
    ensures s.lock.Free? ==> Enabled(s, Begin)
    ensures forall t :: s.lock.Free? && key in s.index && t !in s.looked && t !in s.missed ==> Enabled(s, Look(t, key))
  {
  }

  /** What another process takes is the directory, and everything staged under its key so far is lost. */
  lemma LosingIs(s: State, key: Key)
    ensures var s' := Do(s, Lose(key));
      && s'.disk == s.disk - {key}
      && (forall id :: id in s'.lost <==> id in s.lost || (id in s.owner && s.owner[id] == key))
      && s'.index == s.index && s'.evicted == s.evicted && s'.handed == s.handed
  {
  }

  /** A hit had its files when they were checked, and a miss did not; a miss never takes out another entry. */
  lemma LookupsAreHonest(run: seq<State>, n: nat, t: Thread)
    requires Run(run) && n < |run|
    ensures Enabled(run[n], Check(t)) ==>
      var s, s', id := run[n], Do(run[n], Check(t)), run[n].looked[t];
      && t !in s'.looked
      && (if s.owner[id] in s.disk then s'.handed == s.handed + {id} && s'.missed == s.missed
          else s'.handed == s.handed && t in s'.missed && s'.missed[t] == id)
    ensures forall key :: Enabled(run[n], Look(t, key)) ==>
      Do(run[n], Look(t, key)) == run[n].(looked := run[n].looked[t := run[n].index[key]])
    ensures Enabled(run[n], Miss(t)) ==>
      var s, s' := run[n], Do(run[n], Miss(t));
      && t !in s'.missed
      && (forall id :: id in s.owner && Indexed(s, id) && id != s.missed[t] ==> Indexed(s', id))
      && (Indexed(s, s.missed[t]) ==>
            && !Indexed(s', s.missed[t]) && s.missed[t] in s'.evicted
            && (s.missed[t] in s.lost || s.missed[t] in s.disturbed))
  {
    EveryStateIsGood(run, n);
  }

  ghost predicate Reachable(s: State) {
    exists run :: Run(run) && run[|run| - 1] == s
  }

  function Then(s: State, a: Action): (s': State)
    requires Enabled(s, a) && Reachable(s)
    ensures Reachable(s') && s' == Do(s, a)
  {
    assert Reachable(Do(s, a)) by { OneMoreStep(s, a); }
    Do(s, a)
  }

  lemma OneMoreStep(s: State, a: Action)
    requires Enabled(s, a) && Reachable(s)
    ensures Reachable(Do(s, a))
  {
    var run :| Run(run) && run[|run| - 1] == s;
    var more := run + [Do(s, a)];
    assert Next(s, Do(s, a));
    forall i | 0 <= i < |more| - 1 ensures Next(more[i], more[i + 1]) {
      if i < |run| - 1 { assert Next(run[i], run[i + 1]); }
    }
    assert Run(more);
  }

  // ----- publishing over a key that still has an entry

  /** Played from `s`, the actions lead to `s'`. */
  ghost predicate Plays(s: State, acts: seq<Action>, s': State)
    decreases |acts|
  {
    if acts == [] then s == s' else Enabled(s, acts[0]) && Plays(Do(s, acts[0]), acts[1..], s')
  }

  /** The key is staged once, and then whatever the threads do but stage it again. */
  ghost predicate FollowsPublish(s: State, key: Key, s': State) {
    exists acts ::
      Plays(DoStage(s, key), acts, s') && forall k :: 0 <= k < |acts| ==> acts[k] != Stage(key)
  }

  /** Handed to a caller, nobody's loss, and neither on disk nor marked. */
  ghost predicate Stranded(s: State, id: Id) {
    id in s.handed && id in s.owner && id !in s.evicted && id !in s.lost && s.owner[id] !in s.disk
  }

  lemma {:induction false} PlaysIsReachable(s: State, acts: seq<Action>, s': State)
    requires Reachable(s) && Plays(s, acts, s')
    ensures Reachable(s')
    decreases |acts|
  {
    if acts != [] {
      OneMoreStep(s, acts[0]);
      PlaysIsReachable(Do(s, acts[0]), acts[1..], s');
    }
  }

  lemma ReachableIsGood(s: State)
    requires Reachable(s)
    ensures Inv(s)
  {
    var run :| Run(run) && run[|run| - 1] == s;
    EveryStateIsGood(run, |run| - 1);
  }

  function Eviction(key: Key): seq<Action> {
    [TakeEarly(key), Mark, Unlink(true)]
  }

  /** The holder of the lock, sweeping, gives up the key's entry. */
  function Evicted(s: State, key: Key): State
    requires key in s.index
  {
    s.(index := s.index - {key}, evicted := s.evicted + {s.index[key]}, disk := s.disk - {key})
  }

  lemma EvictionPlays(s: State, key: Key)
    requires s.lock.Sweeping? && key in s.index && s.index[key] !in s.lock.pending
    requires s.index[key] in s.owner && s.owner[s.index[key]] == key
    ensures Plays(s, Eviction(key), Evicted(s, key))
  {
    var s1, s2 := DoTakeEarly(s, key), DoMark(DoTakeEarly(s, key));
    assert Plays(DoUnlink(s2, true), [], Evicted(s, key));
    assert [Unlink(true)][1..] == [] && Plays(s2, [Unlink(true)], Evicted(s, key));
    assert [Mark, Unlink(true)][1..] == [Unlink(true)] && Plays(s1, [Mark, Unlink(true)], Evicted(s, key));
    assert Eviction(key)[1..] == [Mark, Unlink(true)];
  }

  lemma PlaysOne(s: State, a: Action)
    requires Enabled(s, a)
    ensures Plays(s, [a], Do(s, a))
  {
    assert [a][1..] == [];
  }

  lemma {:induction false} PlaysOn(s: State, acts: seq<Action>, mid: State, more: seq<Action>, s': State)
    requires Plays(s, acts, mid) && Plays(mid, more, s')
    ensures Plays(s, acts + more, s')
    decreases |acts|
  {
    if acts == [] {
      assert acts + more == more;
    } else {
      PlaysOn(Do(s, acts[0]), acts[1..], mid, more, s');
      assert (acts + more)[1..] == acts[1..] + more;
    }
  }

  /** Published over, an indexed entry can lose its files with its successor's, and nobody marks it. */
  lemma RepublishingStrands(s: State, id: Id) returns (s': State)
    requires Reachable(s) && s.lock.Free? && Indexed(s, id) && id in s.handed && id !in s.lost
    ensures FollowsPublish(s, s.owner[id], s') && Reachable(s') && Stranded(s', id)
  {
    hide Reachable;
    ReachableIsGood(s);
    var key, next := s.owner[id], s.issued;
    var s1 := DoStage(s, key);
    var s2 := DoInsert(s1, next);
    s' := Evicted(s2, key);
    PlaysOne(s1, Insert(next));
    EvictionPlays(s2, key);
    PlaysOn(s1, [Insert(next)], s2, Eviction(key), s');
    OneMoreStep(s, Stage(key));
    PlaysIsReachable(s1, [Insert(next)] + Eviction(key), s');
  }

  /** Whoever holds the lock can get done with it, the entries it has deleted taken out of the index. */
  lemma {:induction false} SweepEnds(s: State) returns (acts: seq<Action>, s': State)
    requires Inv(s) && s.lock.Sweeping?
    ensures Plays(s, acts, s') && forall k :: 0 <= k < |acts| ==> !acts[k].Stage?
    ensures Inv(s') && s'.lock.Free? && s'.disk == s.disk && s'.owner == s.owner && s'.lost == s.lost
    ensures s'.staged == s.staged && s'.evicted == s.evicted
    decreases |s.lock.pending|
  {
    var first := Unlock;
    if s.lock.pending != {} {
      var id :| id in s.lock.pending;
      assert Indexed(s, id);
      first := RemoveLate(s.owner[id]);
    }
    InvKept(s, first);
    hide Inv;
    acts, s' := [first], Do(s, first);
    PlaysOne(s, first);
    if s.lock.pending != {} {
      var rest, end := SweepEnds(s');
      PlaysOn(s, acts, s', rest, end);
      acts, s' := acts + rest, end;
    }
  }

  /** The entry being taken out is marked and goes from disk. */
  lemma TakingOutEnds(s: State) returns (acts: seq<Action>, s': State)
    requires Inv(s) && (s.lock.Taken? || s.lock.Marked?)
    ensures Plays(s, acts, s') && forall k :: 0 <= k < |acts| ==> !acts[k].Stage?
    ensures Inv(s') && s'.lock.Sweeping? && s'.disk == s.disk - {s.owner[s.lock.id]}
    ensures s'.owner == s.owner && s'.index == s.index && s'.lost == s.lost && s'.staged == s.staged
    ensures s'.evicted == s.evicted + {s.lock.id} && s'.lock.pending <= s.lock.pending + {s.lock.id}
  {
    assert Subject(s, s.lock.id);
    if s.lock.Taken? {
      var marked := DoMark(s);
      InvKept(s, Mark);
      InvKept(marked, Unlink(true));
      PlaysOne(s, Mark);
      PlaysOne(marked, Unlink(true));
      PlaysOn(s, [Mark], marked, [Unlink(true)], DoUnlink(marked, true));
      acts, s' := [Mark] + [Unlink(true)], DoUnlink(marked, true);
    } else {
      InvKept(s, Unlink(true));
      PlaysOne(s, Unlink(true));
      acts, s' := [Unlink(true)], DoUnlink(s, true);
    }
  }

  /** Staged under the key, unmarked and not lost, and the key's directory gone from under it. */
  ghost predicate Bereft(s: State, key: Key, next: Id) {
    && s.lock.Free? && key !in s.disk
    && next in s.staged && next in s.owner && s.owner[next] == key && next !in s.evicted && next !in s.lost
  }

  /** Staged beside another entry of its key. */
  ghost predicate Beside(s: State, key: Key, id: Id, next: Id) {
    && id in s.owner && s.owner[id] == key && id != next
    && next in s.staged && next in s.owner && s.owner[next] == key && next !in s.evicted && next !in s.lost
  }

  /** What an action sequence may do to it: no staging. */
  ghost predicate Bereaves(s: State, acts: seq<Action>, s': State, key: Key, next: Id) {
    Plays(s, acts, s') && (forall k :: 0 <= k < |acts| ==> !acts[k].Stage?) && Bereft(s', key, next)
  }

  lemma GoneWhileSweeping(s: State, key: Key, id: Id, next: Id) returns (acts: seq<Action>, s': State)
    requires Inv(s) && s.lock.Sweeping? && Beside(s, key, id, next)
    requires key !in s.disk || (Indexed(s, id) && id !in s.lock.pending)
    ensures Bereaves(s, acts, s', key, next)
  {
    if key !in s.disk {
      acts, s' := SweepEnds(s);
    } else {
      var mid := Evicted(s, key);
      EvictionPlays(s, key);
      PlaysKeepsInv(s, Eviction(key), mid);
      hide Inv;
      var rest, end := SweepEnds(mid);
      PlaysOn(s, Eviction(key), mid, rest, end);
      acts, s' := Eviction(key) + rest, end;
    }
  }

  lemma {:induction false} PlaysKeepsInv(s: State, acts: seq<Action>, s': State)
    requires Inv(s) && Plays(s, acts, s')
    ensures Inv(s')
    decreases |acts|
  {
    hide Inv;
    if acts != [] {
      InvKept(s, acts[0]);
      PlaysKeepsInv(Do(s, acts[0]), acts[1..], s');
    }
  }

  lemma GoneFromFree(s: State, key: Key, id: Id, next: Id) returns (acts: seq<Action>, s': State)
    requires Inv(s) && s.lock.Free? && Beside(s, key, id, next) && Active(s, id)
    ensures Bereaves(s, acts, s', key, next)
  {
    var first := if id in s.staged then Insert(id) else Begin;
    var mid := Do(s, first);
    InvKept(s, first);
    PlaysOne(s, first);
    var rest, end := GoneWhileSweeping(mid, key, id, next);
    PlaysOn(s, [first], mid, rest, end);
    acts, s' := [first] + rest, end;
  }

  lemma GoneWhileHeld(s: State, key: Key, id: Id, next: Id) returns (acts: seq<Action>, s': State)
    requires Inv(s) && s.lock.Sweeping? && Beside(s, key, id, next)
    requires key !in s.disk || (Active(s, id) && id !in s.lock.pending)
    ensures Bereaves(s, acts, s', key, next)
  {
    if key !in s.disk || Indexed(s, id) {
      acts, s' := GoneWhileSweeping(s, key, id, next);
    } else {
      var begun, mid := SweepEnds(s);
      var rest, end := GoneFromFree(mid, key, id, next);
      PlaysOn(s, begun, mid, rest, end);
      acts, s' := begun + rest, end;
    }
  }

  lemma Gone(s: State, key: Key, id: Id, next: Id) returns (acts: seq<Action>, s': State)
    requires Inv(s) && Beside(s, key, id, next) && Active(s, id) && id !in Pending(s)
    ensures Bereaves(s, acts, s', key, next)
  {
    if s.lock.Free? {
      acts, s' := GoneFromFree(s, key, id, next);
    } else if s.lock.Sweeping? {
      acts, s' := GoneWhileHeld(s, key, id, next);
    } else {
      var begun, mid := TakingOutEnds(s);
      assert !Subject(s, next);
      var rest, end := GoneWhileHeld(mid, key, id, next);
      PlaysOn(s, begun, mid, rest, end);
      acts, s' := begun + rest, end;
    }
  }

  /** An entry of the key that is still about, and whose directory nobody has removed yet. */
  ghost predicate Endangers(s: State, key: Key, id: Id) {
    Active(s, id) && s.owner[id] == key && id !in Pending(s)
  }

  lemma StagedIsFresh(s: State, key: Key, id: Id)
    requires Inv(s) && Endangers(s, key, id)
    ensures var s1 := DoStage(s, key);
      Inv(s1) && Beside(s1, key, id, s.issued) && Active(s1, id) && id !in Pending(s1)
  {
    StageActive(s, key);
    InvKept(s, Stage(key));
  }

  /** The old entry's eviction, between the two halves of the next publish, takes the new one's files. */
  lemma EvictionStrandsTheNext(s: State, key: Key, id: Id) returns (s': State)
    requires Reachable(s) && Endangers(s, key, id)
    ensures FollowsPublish(s, key, s') && s.issued in s'.owner && s'.owner[s.issued] == key && Stranded(s', s.issued)
  {
    hide Reachable, Inv, DoStage, Active, Endangers;
    ReachableIsGood(s);
    StagedIsFresh(s, key, id);
    var next, s1 := s.issued, DoStage(s, key);
    var acts, s2 := Gone(s1, key, id, next);
    s' := DoInsert(s2, next);
    PlaysOne(s2, Insert(next));
    PlaysOn(s1, acts, s2, [Insert(next)], s');
  }

  /** Alone under its key, but for entries that are marked and need only leave the index. */
  ghost predicate AloneFor(s: State, key: Key, next: Id) {
    && (forall id :: id in s.owner && s.owner[id] == key && id != next ==>
          id in s.evicted && (Active(s, id) ==> id in Pending(s)))
    && (next in s.owner && s.owner[next] == key)
    && (next in s.evicted || next in s.lost || key in s.disk)
  }

  lemma AloneIsKept(s: State, a: Action, key: Key, next: Id)
    requires Inv(s) && Enabled(s, a) && a != Stage(key) && AloneFor(s, key, next)
    ensures AloneFor(Do(s, a), key, next)
  {
    var s' := Do(s, a);
    forall id | id in s'.owner && s'.owner[id] == key && id != next
      ensures id in s'.evicted && (Active(s', id) ==> id in Pending(s'))
    {
      if Active(s', id) { StillPending(s, a, key, next, id); }
    }
    if a.Unlink? { assert Active(s, s.lock.id); }
  }

  lemma StillPending(s: State, a: Action, key: Key, next: Id, id: Id)
    requires Inv(s) && Enabled(s, a) && a != Stage(key) && AloneFor(s, key, next)
    requires id in s.owner && s.owner[id] == key && id != next && Active(Do(s, a), id)
    ensures id in Pending(Do(s, a))
  {
    NoneRise(s, a, id);
  }

  /** An entry once out of play stays out. */
  lemma NoneRise(s: State, a: Action, id: Id)
    requires Inv(s) && Enabled(s, a) && id in s.owner && Active(Do(s, a), id)
    ensures Active(s, id)
  {
    if a.Stage? { StageActive(s, a.key); }
  }

  lemma {:induction false} AloneStays(s: State, acts: seq<Action>, s': State, key: Key, next: Id)
    requires Inv(s) && AloneFor(s, key, next) && Plays(s, acts, s') && forall k :: 0 <= k < |acts| ==> acts[k] != Stage(key)
    ensures AloneFor(s', key, next)
    decreases |acts|
  {
    hide Inv, AloneFor;
    if acts != [] {
      AloneIsKept(s, acts[0], key, next);
      InvKept(s, acts[0]);
      forall k | 0 <= k < |acts[1..]| ensures acts[1..][k] != Stage(key) { assert acts[1..][k] == acts[k + 1]; }
      AloneStays(Do(s, acts[0]), acts[1..], s', key, next);
    }
  }

  /**
   What a publisher can look at first.  Where the key was never published over before, staging it
   again can strand one of its entries exactly if one is still about with its directory in place.
   */
  lemma PublishIsSafeWhen(s: State, key: Key)
    requires Reachable(s)
    requires forall id :: id in s.owner && s.owner[id] == key ==> id !in s.disturbed
    ensures (exists s', id :: FollowsPublish(s, key, s') && Stranded(s', id) && s'.owner[id] == key) <==>
      (exists id :: Endangers(s, key, id))
  {
    if id :| Endangers(s, key, id) {
      var s' := EvictionStrandsTheNext(s, key, id);
      assert FollowsPublish(s, key, s') && Stranded(s', s.issued) && s'.owner[s.issued] == key;
    } else {
      forall s', id | FollowsPublish(s, key, s') && id in s'.owner && s'.owner[id] == key
        ensures !Stranded(s', id)
      {
        SafePublish(s, key, s', id);
      }
    }
  }

  lemma SafePublish(s: State, key: Key, s': State, id: Id)
    requires Reachable(s) && (forall i :: !Endangers(s, key, i)) && FollowsPublish(s, key, s')
    requires forall i :: i in s.owner && s.owner[i] == key ==> i !in s.disturbed
    requires id in s'.owner && s'.owner[id] == key
    ensures !Stranded(s', id)
  {
    ReachableIsGood(s);
    var staged := DoStage(s, key);
    StagedIsAlone(s, key);
    InvKept(s, Stage(key));
    var acts :| Plays(staged, acts, s') && forall k :: 0 <= k < |acts| ==> acts[k] != Stage(key);
    AloneStays(staged, acts, s', key, s.issued);
  }

  lemma StagedIsAlone(s: State, key: Key)
    requires Inv(s) && forall i :: !Endangers(s, key, i)
    requires forall i :: i in s.owner && s.owner[i] == key ==> i !in s.disturbed
    ensures AloneFor(DoStage(s, key), key, s.issued)
  {
    StageActive(s, key);
    forall i | i in s.owner && s.owner[i] == key ensures i in s.evicted && (Active(s, i) ==> i in Pending(s)) {
      assert !Endangers(s, key, i);
    }
  }

  /** One run of it, from an empty cache. */
  lemma PublishedOverIsNotMarked()
    ensures exists s: State, id :: Reachable(s) && Stranded(s, id)
  {
    assert Run([Init()]);
    var s1 := Then(Init(), Stage(7));
    var s2 := Then(s1, Insert(0));
    var s3 := Then(s2, Unlock);
    var s' := RepublishingStrands(s3, 0);
  }
}
