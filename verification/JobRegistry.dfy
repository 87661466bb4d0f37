/**
 The job index as a value: what each operation makes of it, and what every sequence of
 operations keeps.

 `E` stands for a cache entry's identity.
 */
module JobRegistry {
  import opened Progress
  import opened Wrappers
  import Text

  datatype Card<E> = Card(key: string, stage: Stage, entry: Option<E>, waiters: nat, created: nat)

  /** Jobs by id, and for each cache key the id of the job that represents it. */
  datatype Registry<E> = Registry(byId: map<string, Card<E>>, byKey: map<string, string>, attempts: nat)

  const SHORT_KEY := 12

  function Short(key: string): string {
    key[..if |key| < SHORT_KEY then |key| else SHORT_KEY]
  }

  function JobId(key: string, attempt: nat): string {
    Short(key) + "-" + Text.Decimal(attempt)
  }

  /** An id starts with the key, cut to twelve characters, and a dash. */
  lemma JobIdStartsWithKey(key: string, attempt: nat)
    ensures |key| >= 12 ==> |JobId(key, attempt)| > 13 && JobId(key, attempt)[..12] == key[..12] && JobId(key, attempt)[12] == '-'
    ensures |key| < 12 ==> |JobId(key, attempt)| > |key| + 1 && JobId(key, attempt)[..|key|] == key
  {
  }

  /** An id tells its attempt, whatever the keys. */
  lemma JobIdTellsAttempt(k: string, m: nat, l: string, n: nat)
    requires JobId(k, m) == JobId(l, n)
    ensures m == n
  {
    Text.LastSeparator(Short(k), Short(l), Text.Decimal(m), Text.Decimal(n), '-');
    Text.DecimalIsInjective(m, n);
  }

  // ----- the operations

  function InFlight<E>(r: Registry<E>, key: string): Option<string> {
    if key in r.byKey && r.byKey[key] in r.byId && !r.byId[r.byKey[key]].stage.Terminal()
    then Some(r.byKey[key])
    else None
  }

  /** The live job for `key`, joined, or a fresh one. */
  function Claim<E>(r: Registry<E>, key: string, now: nat): Registry<E> {
    match InFlight(r, key)
    case Some(id) =>
      var card := r.byId[id];
      r.(byId := r.byId[id := card.(waiters := card.waiters + 1)])
    case None =>
      var id := JobId(key, r.attempts);
      Registry(r.byId[id := Card(key, Queued, None, 1, now)], r.byKey[key := id], r.attempts + 1)
  }

  function Claimed<E>(r: Registry<E>, key: string): string {
    match InFlight(r, key)
    case Some(id) => id
    case None => JobId(key, r.attempts)
  }

  function Remove<E>(r: Registry<E>, id: string): Registry<E> {
    if id !in r.byId then r
    else
      var key := r.byId[id].key;
      Registry(
        r.byId - {id},
        if key in r.byKey && r.byKey[key] == id then r.byKey - {key} else r.byKey,
        r.attempts)
  }

  function RemoveAll<E>(r: Registry<E>, ids: seq<string>): Registry<E> {
    if ids == [] then r else Remove(RemoveAll(r, ids[..|ids| - 1]), ids[|ids| - 1])
  }

  function Elapsed(now: nat, since: nat): nat {
    if now >= since then now - since else 0
  }

  predicate Stale<E(==)>(card: Card<E>, now: nat, retain: nat, evicted: set<E>) {
    card.stage.Terminal()
    && match card.entry
       case Some(entry) => entry in evicted
       case None => Elapsed(now, card.created) > retain
  }

  /** What pruning comes to, in whatever order the stale jobs are visited. */
  function Prune<E(==)>(r: Registry<E>, now: nat, retain: nat, evicted: set<E>): Registry<E> {
    Registry(
      map id | id in r.byId && !Stale(r.byId[id], now, retain, evicted) :: r.byId[id],
      map key | key in r.byKey
                && !(r.byKey[key] in r.byId && Stale(r.byId[r.byKey[key]], now, retain, evicted)) :: r.byKey[key],
      r.attempts)
  }

  /** A job's own fields changed through its handle; nothing happens once it is unregistered. */
  function Update<E>(r: Registry<E>, id: string, stage: Stage, entry: Option<E>, waiters: nat): Registry<E> {
    if id !in r.byId then r
    else r.(byId := r.byId[id := r.byId[id].(stage := stage, entry := entry, waiters := waiters)])
  }

  // ----- what every operation keeps

  /** A key that is held is held by a registered job of that key. */
  predicate NeverDangles<E>(r: Registry<E>) {
    forall key :: key in r.byKey ==> r.byKey[key] in r.byId && r.byId[r.byKey[key]].key == key
  }

  /** A job still working is the one that represents its key. */
  predicate LiveIsHeld<E>(r: Registry<E>) {
    forall id :: id in r.byId && !r.byId[id].stage.Terminal() ==>
      r.byId[id].key in r.byKey && r.byKey[r.byId[id].key] == id
  }

  ghost predicate IssuedBy(id: string, key: string, attempts: nat) {
    exists n: nat :: n < attempts && id == JobId(key, n)
  }

  lemma IssuedByGrows(id: string, key: string, attempts: nat)
    ensures IssuedBy(id, key, attempts) ==> IssuedBy(id, key, attempts + 1)
    ensures IssuedBy(JobId(key, attempts), key, attempts + 1)
  {
    assert attempts < attempts + 1 && JobId(key, attempts) == JobId(key, attempts);
    if IssuedBy(id, key, attempts) {
      var n: nat :| n < attempts && id == JobId(key, n);
      assert n < attempts + 1;
    }
  }

  /** Ids were issued by earlier attempts. */
  ghost predicate Issued<E>(r: Registry<E>) {
    forall id :: id in r.byId ==> IssuedBy(id, r.byId[id].key, r.attempts)
  }

  ghost predicate Good<E>(r: Registry<E>) {
    NeverDangles(r) && LiveIsHeld(r) && Issued(r)
  }

  lemma SoundIsIssued<E>(r: Registry<E>)
    requires Good(r)
    ensures Issued(r)
  {
  }

  lemma SoundNeverDangles<E>(r: Registry<E>)
    requires Good(r)
    ensures NeverDangles(r)
  {
  }

  /** The scan the index stands in for. */
  predicate LiveFor<E>(r: Registry<E>, key: string, id: string) {
    id in r.byId && r.byId[id].key == key && !r.byId[id].stage.Terminal()
  }

  /** The index agrees with a scan: it finds exactly the live job of the key, and there is at most one. */
  lemma InFlightIsScan<E>(r: Registry<E>, key: string)
    requires Good(r)
    ensures forall id :: InFlight(r, key) == Some(id) <==> LiveFor(r, key, id)
    ensures forall id, other :: LiveFor(r, key, id) && LiveFor(r, key, other) ==> id == other
  {
  }

  lemma FreshIdIsNew<E>(r: Registry<E>, key: string)
    requires Issued(r)
    ensures JobId(key, r.attempts) !in r.byId
  {
    var id := JobId(key, r.attempts);
    if id in r.byId {
      var n: nat :| n < r.attempts && id == JobId(r.byId[id].key, n);
      JobIdTellsAttempt(r.byId[id].key, n, key, r.attempts);
    }
  }

  lemma JoinKeeps<E>(r: Registry<E>, key: string, now: nat)
    requires Good(r) && InFlight(r, key).Some?
    ensures Good(Claim(r, key, now))
    ensures InFlight(Claim(r, key, now), key) == InFlight(r, key)
  {
    var after := Claim(r, key, now);
    assert forall id :: id in after.byId <==> id in r.byId;
    assert forall id :: id in r.byId ==> after.byId[id].key == r.byId[id].key && after.byId[id].stage == r.byId[id].stage;
  }

  lemma FreshKeeps<E>(r: Registry<E>, key: string, now: nat)
    requires Good(r) && InFlight(r, key).None?
    ensures Good(Claim(r, key, now))
    ensures InFlight(Claim(r, key, now), key) == Some(JobId(key, r.attempts))
  {
    FreshIdIsNew(r, key);
    var after := Claim(r, key, now);
    forall id | id in after.byId ensures IssuedBy(id, after.byId[id].key, after.attempts) {
      IssuedByGrows(id, after.byId[id].key, r.attempts);
    }
  }

  /** A claim leaves one live job for the key: the one it returns. */
  lemma ClaimKeeps<E>(r: Registry<E>, key: string, now: nat)
    requires Good(r)
    ensures Good(Claim(r, key, now))
    ensures InFlight(Claim(r, key, now), key) == Some(Claimed(r, key))
  {
    if InFlight(r, key).Some? { JoinKeeps(r, key, now); } else { FreshKeeps(r, key, now); }
  }

  lemma RemoveKeeps<E>(r: Registry<E>, id: string)
    requires Good(r)
    ensures Good(Remove(r, id))
    ensures id !in Remove(r, id).byId
  {
    var after := Remove(r, id);
    assert forall i :: i in after.byId ==> after.byId[i] == r.byId[i];
  }

  lemma PruneKeeps<E>(r: Registry<E>, now: nat, retain: nat, evicted: set<E>)
    requires Good(r)
    ensures Good(Prune(r, now, retain, evicted))
    ensures forall id :: id in r.byId && !r.byId[id].stage.Terminal() ==>
      id in Prune(r, now, retain, evicted).byId && Prune(r, now, retain, evicted).byId[id] == r.byId[id]
  {
    var after := Prune(r, now, retain, evicted);
    assert forall i :: i in after.byId ==> after.byId[i] == r.byId[i];
  }

  /**
   A change through a job's handle keeps the index right exactly when it does not bring back
   a finished job whose key somebody else holds, or nobody does.
   */
  lemma UpdateKeepsWhen<E>(r: Registry<E>, id: string, stage: Stage, entry: Option<E>, waiters: nat)
    requires Good(r)
    ensures Good(Update(r, id, stage, entry, waiters)) <==>
      id in r.byId && !stage.Terminal() ==> r.byId[id].key in r.byKey && r.byKey[r.byId[id].key] == id
    ensures id in r.byId && (r.byId[id].stage.Terminal() ==> stage.Terminal()) ==>
      Good(Update(r, id, stage, entry, waiters))
  {
    if id in r.byId {
      var after := Update(r, id, stage, entry, waiters);
      assert after.byId[id].key == r.byId[id].key && after.byId[id].stage == stage;
      assert forall i :: i in after.byId ==> i in r.byId && after.byId[i].key == r.byId[i].key;
      assert NeverDangles(after);
      forall i | i in after.byId && i != id && !after.byId[i].stage.Terminal()
        ensures after.byId[i].key in after.byKey && after.byKey[after.byId[i].key] == i
      {
        assert after.byId[i] == r.byId[i];
      }
    }
  }

  /**
   What a prune takes: of the jobs that are over, those whose entry has been evicted, and those
   that never had one and are older than the time allowed.
   */
  lemma PrunedIs<E>(r: Registry<E>, now: nat, retain: nat, evicted: set<E>, id: string)
    requires id in r.byId
    ensures var job, kept := r.byId[id], id in Prune(r, now, retain, evicted).byId;
      if job.stage !in {Done, Failed, Cancelled} then kept
      else match job.entry
           case Some(entry) => kept <==> entry !in evicted
           case None => kept <==> now <= job.created + retain
  {
  }

  // ----- pruning, one job at a time

  /** Removing a list of jobs one by one drops exactly them, and the keys they held. */
  lemma {:induction false} RemoveAllIs<E>(r: Registry<E>, ids: seq<string>)
    requires NeverDangles(r)
    ensures NeverDangles(RemoveAll(r, ids)) && RemoveAll(r, ids).attempts == r.attempts
    ensures forall id :: id in RemoveAll(r, ids).byId <==> id in r.byId && id !in ids
    ensures forall id :: id in RemoveAll(r, ids).byId ==> RemoveAll(r, ids).byId[id] == r.byId[id]
    ensures forall key :: key in RemoveAll(r, ids).byKey <==> key in r.byKey && r.byKey[key] !in ids
    ensures forall key :: key in RemoveAll(r, ids).byKey ==> RemoveAll(r, ids).byKey[key] == r.byKey[key]
  {
    if ids != [] {
      var front, last := ids[..|ids| - 1], ids[|ids| - 1];
      RemoveAllIs(r, front);
      assert forall id :: id in ids <==> id in front || id == last;
    }
  }

  /** So visiting the stale jobs in any order comes to the same. */
  lemma PruneIsRemoveAll<E>(r: Registry<E>, now: nat, retain: nat, evicted: set<E>, ids: seq<string>)
    requires NeverDangles(r)
    requires forall id :: id in ids <==> id in r.byId && Stale(r.byId[id], now, retain, evicted)
    ensures RemoveAll(r, ids) == Prune(r, now, retain, evicted)
  {
    RemoveAllIs(r, ids);
    assert RemoveAll(r, ids).byId == Prune(r, now, retain, evicted).byId;
    assert RemoveAll(r, ids).byKey == Prune(r, now, retain, evicted).byKey;
  }

  // ----- every sequence of operations

  datatype Op<E> =
    | ClaimOp(key: string, now: nat)
    | RemoveOp(id: string)
    | PruneOp(at: nat, retain: nat, evicted: set<E>)
    | UpdateOp(job: string, stage: Stage, entry: Option<E>)
    | JoinOp(job: string)
    | ReleaseOp(job: string)

  function Apply<E(==)>(r: Registry<E>, op: Op<E>): Registry<E> {
    match op
    case ClaimOp(key, now) => Claim(r, key, now)
    case RemoveOp(id) => Remove(r, id)
    case PruneOp(at, retain, evicted) => Prune(r, at, retain, evicted)
    case UpdateOp(job, stage, entry) => if job in r.byId then Update(r, job, stage, entry, r.byId[job].waiters) else r
    case JoinOp(job) => if job in r.byId then Count(r, job, r.byId[job].waiters + 1) else r
    case ReleaseOp(job) =>
      if job in r.byId then Count(r, job, if r.byId[job].waiters > 0 then r.byId[job].waiters - 1 else 0) else r
  }

  /** A job's waiters counted anew, through its handle. */
  function Count<E>(r: Registry<E>, id: string, waiters: nat): Registry<E>
    requires id in r.byId
  {
    Update(r, id, r.byId[id].stage, r.byId[id].entry, waiters)
  }

  /** Terminal stages absorb. */
  predicate Absorbing<E>(r: Registry<E>, op: Op<E>) {
    op.UpdateOp? && op.job in r.byId && r.byId[op.job].stage.Terminal() ==> op.stage.Terminal()
  }

  function Empty<E>(): Registry<E> {
    Registry(map[], map[], 1)
  }

  /** A store after some operations on an empty one. */
  function After<E(==)>(ops: seq<Op<E>>): Registry<E> {
    if ops == [] then Empty() else Apply(After(ops[..|ops| - 1]), ops[|ops| - 1])
  }

  predicate Run<E(==)>(ops: seq<Op<E>>) {
    ops == [] || (Run(ops[..|ops| - 1]) && Absorbing(After(ops[..|ops| - 1]), ops[|ops| - 1]))
  }

  /** The index never dangles and always agrees with a scan. */
  lemma {:induction false} EveryRunIsGood<E>(ops: seq<Op<E>>)
    requires Run(ops)
    ensures Good(After(ops))
  {
    if ops != [] {
      EveryRunIsGood(ops[..|ops| - 1]);
      var r := After(ops[..|ops| - 1]);
      match ops[|ops| - 1]
      case ClaimOp(key, now) => ClaimKeeps(r, key, now);
      case RemoveOp(id) => RemoveKeeps(r, id);
      case PruneOp(at, retain, evicted) => PruneKeeps(r, at, retain, evicted);
      case UpdateOp(job, stage, entry) =>
        if job in r.byId { UpdateKeepsWhen(r, job, stage, entry, r.byId[job].waiters); }
      case JoinOp(job) => if job in r.byId { CountKeeps(r, job, r.byId[job].waiters + 1); }
      case ReleaseOp(job) =>
        if job in r.byId { CountKeeps(r, job, if r.byId[job].waiters > 0 then r.byId[job].waiters - 1 else 0); }
    }
  }

  lemma CountKeeps<E>(r: Registry<E>, id: string, waiters: nat)
    requires Good(r) && id in r.byId
    ensures Good(Count(r, id, waiters))
  {
    UpdateKeepsWhen(r, id, r.byId[id].stage, r.byId[id].entry, waiters);
  }

  // ----- waiters

  /** Clients that joined a job, its own claimer the first, less those that let go. */
  function Tally<E(==)>(ops: seq<Op<E>>, id: string): int {
    if ops == [] then 0
    else
      var r, before := After(ops[..|ops| - 1]), Tally(ops[..|ops| - 1], id);
      match ops[|ops| - 1]
      case ClaimOp(key, _) =>
        if Claimed(r, key) != id then before else if InFlight(r, key).None? then 1 else before + 1
      case JoinOp(job) => if job == id then before + 1 else before
      case ReleaseOp(job) => if job == id then before - 1 else before
      case _ => before
  }

  /**
   While nobody lets go twice, a registered job's waiters are its claims and joins less its
   releases, whatever else the store does: the release that leaves none is the last one.
   */
  lemma {:induction false} WaitersBalance<E>(ops: seq<Op<E>>, id: string)
    requires id in After(ops).byId
    requires forall n :: 0 <= n <= |ops| ==> Tally(ops[..n], id) >= 0
    ensures After(ops).byId[id].waiters == Tally(ops, id)
  {
    assert ops[..|ops|] == ops;
    var front, op := ops[..|ops| - 1], ops[|ops| - 1];
    var r := After(front);
    assert forall n :: 0 <= n <= |front| ==> front[..n] == ops[..n];
    if id in r.byId && !(op.ClaimOp? && InFlight(r, op.key).None? && JobId(op.key, r.attempts) == id) {
      WaitersBalance(front, id);
    }
  }

  lemma {:induction false} AttemptsGrow<E>(ops: seq<Op<E>>, n: nat)
    requires n <= |ops|
    ensures After(ops[..n]).attempts <= After(ops).attempts
  {
    if n < |ops| {
      AttemptsGrow(ops[..|ops| - 1], n);
      assert ops[..|ops| - 1][..n] == ops[..n];
    } else {
      assert ops[..n] == ops;
    }
  }

  /** Whether operation `i` of a run issued a fresh job. */
  predicate Issues<E(==)>(ops: seq<Op<E>>, i: nat)
    requires i < |ops|
  {
    ops[i].ClaimOp? && InFlight(After(ops[..i]), ops[i].key).None?
  }

  /** No two jobs a store ever issued have the same id, removed ones included. */
  lemma IdsNeverRepeat<E>(ops: seq<Op<E>>, i: nat, j: nat)
    requires i < j < |ops| && Issues(ops, i) && Issues(ops, j)
    ensures Claimed(After(ops[..i]), ops[i].key) != Claimed(After(ops[..j]), ops[j].key)
  {
    var before, after := After(ops[..i]), After(ops[..i + 1]);
    assert ops[..i + 1][..i] == ops[..i] && ops[..i + 1][i] == ops[i];
    assert after.attempts == before.attempts + 1;
    AttemptsGrow(ops[..j], i + 1);
    assert ops[..j][..i + 1] == ops[..i + 1];
    if Claimed(before, ops[i].key) == Claimed(After(ops[..j]), ops[j].key) {
      JobIdTellsAttempt(ops[i].key, before.attempts, ops[j].key, After(ops[..j]).attempts);
    }
  }

  lemma AfterOne<E>(ops: seq<Op<E>>, op: Op<E>)
    ensures After(ops + [op]) == Apply(After(ops), op)
    ensures Run(ops + [op]) <==> Run(ops) && Absorbing(After(ops), op)
  {
    assert (ops + [op])[..|ops|] == ops;
  }

  /**
   A finished job set back after its key was claimed again is found by a scan and not by the
   index.  It takes a misuse of a public method: `QueueTheorems.QueueWritesAbsorb` shows that
   the queue never writes a stage so.
   */
  lemma RevivedJobIsLost()
    ensures exists ops: seq<Op<int>>, key, id ::
      !Run(ops) && LiveFor(After(ops), key, id) && InFlight(After(ops), key) != Some(id)
  {
    var first, second := JobId("k", 1), JobId("k", 2);
    if first == second { JobIdTellsAttempt("k", 1, "k", 2); }
    hide JobId, Run, After;
    var ops: seq<Op<int>> := [ClaimOp("k", 0), UpdateOp(first, Done, None), ClaimOp("k", 1)];
    ClaimedAgain(first, second);
    var r := After(ops);
    AfterOne(ops, UpdateOp(first, Queued, None));
    var after := ops + [UpdateOp(first, Queued, None)];
    assert LiveFor(After(after), "k", first) && InFlight(After(after), "k") == Some(second);
  }

  lemma ClaimedAgain(first: string, second: string)
    requires first == JobId("k", 1) && second == JobId("k", 2) && first != second
    ensures After<int>([ClaimOp("k", 0), UpdateOp(first, Done, None), ClaimOp("k", 1)])
            == Registry(map[first := Card("k", Done, None, 1, 0), second := Card("k", Queued, None, 1, 1)],
                        map["k" := second], 3)
  {
    hide JobId, After;
    var o1: Op<int>, o2: Op<int>, o3: Op<int> := ClaimOp("k", 0), UpdateOp(first, Done, None), ClaimOp("k", 1);
    AfterOne([], o1);
    AfterOne([o1], o2);
    AfterOne([o1, o2], o3);
    assert [] + [o1] == [o1] && [o1] + [o2] == [o1, o2] && [o1, o2] + [o3] == [o1, o2, o3];
    assert After<int>([]) == Empty() by { EmptyStore<int>(); }
    assert After([o1]) == Registry(map[first := Card("k", Queued, None, 1, 0)], map["k" := first], 2);
    assert After([o1, o2]) == Registry(map[first := Card("k", Done, None, 1, 0)], map["k" := first], 2);
  }

  lemma EmptyStore<E>()
    ensures After<E>([]) == Empty()
  {
  }
}
