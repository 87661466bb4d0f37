/**
 The job store as objects: jobs shared by handle, and the two maps that index them.

 `View` reads the store as the value of `JobRegistry`; each method is one of its operations.
 */
module JobStore {
  import opened Progress
  import opened Wrappers
  import opened JobRegistry
  import C = Cache

  class Job {
    const id: string
    const key: string
    const created: nat
    var stage: Stage
    var entry: Option<C.Entry>
    var error: Option<string>
    var waiters: nat

    constructor (id: string, key: string, now: nat)
      ensures this.id == id && this.key == key && created == now
      ensures stage == Queued && entry == None && error == None && waiters == 1
    {
      this.id, this.key, created := id, key, now;
      stage, entry, error, waiters := Queued, None, None, 1;
    }

    function AsCard(): Card<C.Entry>
      reads this
    {
      Card(key, stage, entry, waiters, created)
    }

    method Join()
      modifies this`waiters
      ensures waiters == old(waiters) + 1
    {
      waiters := waiters + 1;
    }

    /** How many are left; a repeated release stays at none. */
    method Release() returns (left: nat)
      modifies this`waiters
      ensures left == waiters && waiters == if old(waiters) > 0 then old(waiters) - 1 else 0
    {
      waiters := if waiters > 0 then waiters - 1 else 0;
      left := waiters;
    }

    /** The entry is there before the stage says so. */
    method Complete(entry: C.Entry)
      modifies this`entry, this`stage
      ensures this.entry == Some(entry) && stage == Done
    {
      this.entry := Some(entry);
      stage := Done;
    }

    method Cancel()
      modifies this`stage
      ensures stage == Cancelled
    {
      stage := Cancelled;
    }

    method Fail(message: string)
      modifies this`error, this`stage
      ensures error == Some(message) && stage == Failed
    {
      error := Some(message);
      stage := Failed;
    }
  }

  lemma OneLess<V>(m: map<string, V>, id: string)
    requires id in m
    ensures |m - {id}| == |m| - 1
  {
    assert (m - {id}).Keys == m.Keys - {id};
    assert |m.Keys| == |m| && |(m - {id}).Keys| == |m - {id}|;
  }

  class JobStore {
    var byId: map<string, Job>
    var byKey: map<string, string>
    var attempts: nat
    const retainFailed: nat

    constructor (retainFailed: nat)
      ensures View() == Empty() && byId == map[] && this.retainFailed == retainFailed
    {
      byId, byKey, attempts := map[], map[], 1;
      this.retainFailed := retainFailed;
      new;
      assert View().byId == map[];
    }

    function View(): Registry<C.Entry>
      reads this, byId.Values
    {
      Registry(map id | id in byId :: byId[id].AsCard(), byKey, attempts)
    }

    /** A job is filed under its own id, and the index is right. */
    ghost predicate Valid()
      reads this, byId.Values
    {
      (forall id :: id in byId ==> byId[id].id == id) && Good(View())
    }

    /**
     A change made through a handle, to a store that was `r`, shows as an update of that job;
     for a job no longer registered it does not show.
     */
    lemma ChangeShows(job: Job, r: Registry<C.Entry>)
      requires forall id :: id in byId ==> byId[id].id == id
      requires r.byId.Keys == byId.Keys && r.byKey == byKey && r.attempts == attempts
      requires forall id :: id in byId && byId[id] != job ==> byId[id].AsCard() == r.byId[id]
      requires job.id in byId ==>
        byId[job.id] == job && r.byId[job.id].key == job.key && r.byId[job.id].created == job.created
      ensures View() == Update(r, job.id, job.stage, job.entry, job.waiters)
    {
      assert View().byId == Update(r, job.id, job.stage, job.entry, job.waiters).byId;
    }

    lemma ShowsAs(r: Registry<C.Entry>)
      requires byId.Keys == r.byId.Keys && byKey == r.byKey && attempts == r.attempts
      requires forall id :: id in byId ==> byId[id].id == id && byId[id].AsCard() == r.byId[id]
      requires Good(r)
      ensures View() == r && Valid()
    {
      assert View().byId == r.byId;
    }

    method Lookup(key: string) returns (job: Option<Job>)
      requires Valid()
      ensures job.Some? <==> InFlight(View(), key).Some?
      ensures job.Some? ==> job.value.id in byId && byId[job.value.id] == job.value
      ensures job.Some? ==> InFlight(View(), key) == Some(job.value.id)
    {
      if key !in byKey || byKey[key] !in byId {
        return None;
      }
      var found := byId[byKey[key]];
      if found.stage.Terminal() {
        return None;
      }
      job := Some(found);
    }

    method Register(key: string, now: nat) returns (job: Job)
      requires Valid() && InFlight(View(), key).None?
      modifies this
      ensures Valid() && View() == JobRegistry.Claim(old(View()), key, now)
      ensures fresh(job) && job.waiters == 1 && job.id == JobId(key, old(attempts))
      ensures job.id in byId && byId[job.id] == job
    {
      hide Good;
      ghost var r := View();
      SoundIsIssued(r);
      FreshIdIsNew(r, key);
      FreshKeeps(r, key, now);
      job := new Job(JobId(key, attempts), key, now);
      attempts := attempts + 1;
      byId := byId[job.id := job];
      byKey := byKey[key := job.id];
      ShowsAs(JobRegistry.Claim(r, key, now));
    }

    /** The live job for `key` joined, or a fresh one registered, under the one lock. */
    method Claim(key: string, now: nat) returns (isFresh: bool, job: Job)
      requires Valid()
      modifies this, byId.Values`waiters
      ensures Valid() && View() == JobRegistry.Claim(old(View()), key, now)
      ensures job.id in byId && byId[job.id] == job && job.id == Claimed(old(View()), key)
      ensures isFresh <==> InFlight(old(View()), key).None?
      ensures isFresh ==> fresh(job) && job.waiters == 1
      ensures !isFresh ==> job in old(byId.Values) && job.waiters == old(job.waiters) + 1
    {
      hide Good;
      ghost var r := View();
      var held := Lookup(key);
      if held.None? {
        job := Register(key, now);
        return true, job;
      }
      job := held.value;
      job.Join();
      ChangeShows(job, r);
      JoinKeeps(r, key, now);
      isFresh := false;
    }

    method Get(id: string) returns (job: Option<Job>)
      ensures job == if id in byId then Some(byId[id]) else None
    {
      job := if id in byId then Some(byId[id]) else None;
    }

    /** The key goes with it only if this job still represents it. */
    method Unregister(id: string, ghost r: Registry<C.Entry>)
      requires Valid() && r == View() && id in byId
      modifies this`byId, this`byKey
      ensures Valid() && View() == JobRegistry.Remove(r, id)
      ensures byId == old(byId) - {id}
    {
      hide Good;
      RemoveKeeps(r, id);
      var job := byId[id];
      byId := byId - {id};
      if job.key in byKey && byKey[job.key] == id {
        byKey := byKey - {job.key};
      }
      assert byId.Keys == JobRegistry.Remove(r, id).byId.Keys;
      ShowsAs(JobRegistry.Remove(r, id));
    }

    method Remove(id: string) returns (was: bool)
      requires Valid()
      modifies this`byId, this`byKey
      ensures Valid() && View() == JobRegistry.Remove(old(View()), id)
      ensures was <==> id in old(byId)
      ensures byId == old(byId) - {id} && |byId| == |old(byId)| - (if was then 1 else 0)
    {
      if id !in byId {
        return false;
      }
      OneLess(byId, id);
      Unregister(id, View());
      was := true;
    }

    /** Over, and with nothing left to fetch or read. */
    predicate Useless(job: Job, now: nat)
      reads job, if job.entry.Some? then {job.entry.value} else {}
    {
      job.stage.Terminal()
      && match job.entry
         case Some(entry) => entry.evicted
         case None => Elapsed(now, job.created) > retainFailed
    }

    /** The entries that registered jobs hold and the cache has marked. */
    ghost function EvictedEntries(): set<C.Entry>
      reads this, byId.Values, set j: Job | j in byId.Values && j.entry.Some? :: j.entry.value
    {
      set j: Job | j in byId.Values && j.entry.Some? && j.entry.value.evicted :: j.entry.value
    }

    /** The ids of the useless jobs, in no particular order. */
    method Stale(now: nat) returns (ids: seq<string>)
      requires Valid()
      ensures forall id :: id in ids <==> id in byId && Useless(byId[id], now)
      ensures forall i, j :: 0 <= i < j < |ids| ==> ids[i] != ids[j]
    {
      ids := [];
      var left := byId.Keys;
      while left != {}
        invariant left <= byId.Keys
        invariant forall id :: id in ids <==> id in byId && id !in left && Useless(byId[id], now)
        invariant forall i, j :: 0 <= i < j < |ids| ==> ids[i] != ids[j]
        decreases left
      {
        var id :| id in left;
        left := left - {id};
        if Useless(byId[id], now) {
          ids := ids + [id];
        }
      }
    }

    method RemoveEach(ids: seq<string>)
      requires Valid()
      requires forall id :: id in ids ==> id in byId
      requires forall i, j :: 0 <= i < j < |ids| ==> ids[i] != ids[j]
      modifies this`byId, this`byKey
      ensures Valid() && View() == RemoveAll(old(View()), ids)
      ensures |byId| == |old(byId)| - |ids|
    {
      hide Good;
      ghost var r, n := View(), |byId|;
      for i := 0 to |ids|
        invariant Valid() && View() == RemoveAll(r, ids[..i])
        invariant |byId| == n - i && forall j :: i <= j < |ids| ==> ids[j] in byId
      {
        var _ := Remove(ids[i]);
        assert ids[..i + 1][..i] == ids[..i];
      }
      assert ids[..|ids|] == ids;
    }

    /** The useless handles go; jobs still at work never do. */
    method Prune(now: nat) returns (count: nat)
      requires Valid()
      modifies this`byId, this`byKey
      ensures Valid() && View() == JobRegistry.Prune(old(View()), now, retainFailed, old(EvictedEntries()))
      ensures count == |old(byId)| - |byId|
    {
      hide Good;
      ghost var r, evicted := View(), EvictedEntries();
      SoundNeverDangles(r);
      var ids := Stale(now);
      assert forall id :: id in ids <==> id in r.byId && JobRegistry.Stale(r.byId[id], now, retainFailed, evicted);
      RemoveEach(ids);
      PruneIsRemoveAll(r, now, retainFailed, evicted, ids);
      count := |ids|;
    }
  }
}
