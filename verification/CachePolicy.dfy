/**
 What the two eviction rules of the stem cache do to its index, as values.
 */
module CachePolicy {

  datatype Item = Item(bytes: nat, lastUsed: nat, consumed: bool)

  type Store = map<string, Item>

  /** Bytes held by every entry. */
  ghost function Total(s: Store): nat {
    if s == map[] then 0
    else
      var key :| key in s;
      s[key].bytes + Total(s - {key})
  }

  /** Whichever entry is taken out first. */
  lemma {:induction false} TotalWithout(s: Store, key: string)
    requires key in s
    ensures Total(s) == s[key].bytes + Total(s - {key})
    decreases |s|
  {
    var first :| first in s && Total(s) == s[first].bytes + Total(s - {first});
    if first != key {
      TotalWithout(s - {first}, key);
      TotalWithout(s - {key}, first);
      assert s - {first} - {key} == s - {key} - {first};
    }
  }

  /** `count` entries went, and `bytes` with them. */
  ghost predicate Fell(s: Store, after: Store, count: int, bytes: int) {
    bytes == Total(s) - Total(after) && count == |s| - |after|
  }

  lemma OneFell(s: Store, key: string)
    requires key in s
    ensures Fell(s, s - {key}, 1, s[key].bytes)
  {
    TotalWithout(s, key);
    assert (s - {key}).Keys == s.Keys - {key};
    assert |s.Keys| == |s| && |(s - {key}).Keys| == |s - {key}|;
  }

  lemma FellTwice(s: Store, mid: Store, after: Store, c: int, b: int, d: int, e: int)
    requires Fell(s, mid, c, b) && Fell(mid, after, d, e)
    ensures Fell(s, after, c + d, b + e)
  {
  }

  lemma FellLeaves(s: Store, after: Store, count: int, bytes: int)
    requires Fell(s, after, count, bytes)
    ensures Total(after) == Total(s) - bytes
  {
  }

  function Drop(s: Store, keys: seq<string>): Store {
    map key | key in s && key !in keys :: s[key]
  }

  lemma DropNone(s: Store, keys: seq<string>)
    ensures Drop(s, keys[..0]) == s && Fell(s, s, 0, 0)
  {
  }

  predicate Distinct(keys: seq<string>) {
    forall i, j :: 0 <= i < j < |keys| ==> keys[i] != keys[j]
  }

  function BytesOf(s: Store, keys: seq<string>): nat
    requires forall key :: key in keys ==> key in s
  {
    if keys == [] then 0
    else BytesOf(s, keys[..|keys| - 1]) + s[keys[|keys| - 1]].bytes
  }

  lemma DropOneMore(s: Store, keys: seq<string>, n: nat)
    requires n < |keys| && Distinct(keys) && keys[n] in s
    ensures keys[n] in Drop(s, keys[..n]) && Drop(s, keys[..n])[keys[n]] == s[keys[n]]
    ensures Drop(s, keys[..n + 1]) == Drop(s, keys[..n]) - {keys[n]}
    ensures Total(Drop(s, keys[..n])) == Total(Drop(s, keys[..n + 1])) + s[keys[n]].bytes
  {
    assert keys[..n + 1] == keys[..n] + [keys[n]];
    assert Drop(s, keys[..n + 1]) == Drop(s, keys[..n]) - {keys[n]};
    TotalWithout(Drop(s, keys[..n]), keys[n]);
  }

  /** What is dropped and what is left make up the whole. */
  lemma {:induction false} DropConserves(s: Store, keys: seq<string>)
    requires Distinct(keys) && forall key :: key in keys ==> key in s
    ensures Total(s) == Total(Drop(s, keys)) + BytesOf(s, keys)
  {
    if keys == [] {
      assert Drop(s, keys) == s;
    } else {
      var n := |keys| - 1;
      DropConserves(s, keys[..n]);
      DropOneMore(s, keys, n);
      assert keys[..n + 1] == keys;
    }
  }

  // ----- rule 2: least recently used

  /** Some entries, each once, least recently used first. */
  predicate Sorted(s: Store, order: seq<string>) {
    && Distinct(order)
    && (forall i :: 0 <= i < |order| ==> order[i] in s)
    && forall i, j :: 0 <= i < j < |order| ==> s[order[i]].lastUsed <= s[order[j]].lastUsed
  }

  /** All of them. */
  ghost predicate ByLastUse(s: Store, order: seq<string>) {
    Sorted(s, order) && forall key :: key in s ==> key in order
  }

  function InsertedAt(order: seq<string>, at: nat, key: string): (r: seq<string>)
    requires at <= |order|
    ensures |r| == |order| + 1
    ensures forall i :: 0 <= i < |r| ==> r[i] == if i < at then order[i] else if i == at then key else order[i - 1]
  {
    order[..at] + [key] + order[at..]
  }

  lemma InsertedMembers(order: seq<string>, at: nat, key: string)
    requires at <= |order|
    ensures forall k :: k in InsertedAt(order, at, key) <==> k in order || k == key
  {
    assert order == order[..at] + order[at..];
    assert forall k :: k in order <==> k in order[..at] || k in order[at..];
  }

  lemma InsertKeepsDistinct(order: seq<string>, at: nat, key: string)
    requires Distinct(order) && key !in order && at <= |order|
    ensures Distinct(InsertedAt(order, at, key))
  {
  }

  lemma InsertKeepsSorted(s: Store, order: seq<string>, at: nat, key: string)
    requires Sorted(s, order) && key in s && key !in order && at <= |order|
    requires at > 0 ==> s[order[at - 1]].lastUsed <= s[key].lastUsed
    requires at < |order| ==> s[key].lastUsed <= s[order[at]].lastUsed
    ensures Sorted(s, InsertedAt(order, at, key))
  {
    InsertKeepsDistinct(order, at, key);
    var r := InsertedAt(order, at, key);
    forall i, j | 0 <= i < j < |r| ensures r[i] in s && r[j] in s && s[r[i]].lastUsed <= s[r[j]].lastUsed {
      assert i < at ==> order[i] in s && s[order[i]].lastUsed <= s[order[at - 1]].lastUsed;
      assert j > at ==> order[j - 1] in s && s[order[at]].lastUsed <= s[order[j - 1]].lastUsed;
    }
  }

  /** How many entries of `order` go: one at a time until the store fits, never the last. */
  ghost function Rotated(s: Store, order: seq<string>, max: nat, n: nat): (r: nat)
    requires n <= |order|
    ensures n <= r <= |order|
    decreases |order| - n
  {
    if Total(Drop(s, order[..n])) <= max || n + 1 >= |order| then n else Rotated(s, order, max, n + 1)
  }

  lemma RotatedStep(s: Store, order: seq<string>, max: nat, n: nat)
    requires n <= |order|
    ensures Total(Drop(s, order[..n])) > max && n + 1 < |order| ==>
      Rotated(s, order, max, n) == Rotated(s, order, max, n + 1)
    ensures !(Total(Drop(s, order[..n])) > max && n + 1 < |order|) ==> Rotated(s, order, max, n) == n
  {
  }

  lemma {:induction false} RotatedIsLeast(s: Store, order: seq<string>, max: nat, n: nat)
    requires n <= |order|
    ensures forall k :: n <= k < Rotated(s, order, max, n) ==> Total(Drop(s, order[..k])) > max
    ensures var r := Rotated(s, order, max, n);
      Total(Drop(s, order[..r])) <= max || r + 1 >= |order|
    ensures n < |order| ==> Rotated(s, order, max, n) < |order|
    decreases |order| - n
  {
    if !(Total(Drop(s, order[..n])) <= max || n + 1 >= |order|) { RotatedIsLeast(s, order, max, n + 1); }
  }

  /** A prefix in last-used order is no younger than what it leaves, and leaves the last. */
  lemma OldestGoFirst(s: Store, order: seq<string>, r: nat)
    requires ByLastUse(s, order) && r < |order|
    ensures order[|order| - 1] in Drop(s, order[..r])
    ensures forall key, gone :: key in Drop(s, order[..r]) && gone in order[..r] ==> s[gone].lastUsed <= s[key].lastUsed
  {
    assert forall j :: 0 <= j < r ==> order[..r][j] == order[j];
    forall key, gone | key in Drop(s, order[..r]) && gone in order[..r]
      ensures s[gone].lastUsed <= s[key].lastUsed
    {
      var i :| 0 <= i < r && order[i] == gone;
      var j :| 0 <= j < |order| && order[j] == key;
      assert j >= r;
    }
  }

  lemma OnlyTheLastIsLeft(s: Store, order: seq<string>)
    requires ByLastUse(s, order) && |order| > 0
    ensures |Drop(s, order[..|order| - 1])| == 1
  {
    var n := |order| - 1;
    var after := Drop(s, order[..n]);
    assert order == order[..n] + [order[n]];
    assert forall key :: key in order <==> key in order[..n] || key == order[n];
    assert after.Keys == {order[n]};
    assert |after.Keys| == 1;
  }

  lemma PrefixIsDistinct(s: Store, order: seq<string>, r: nat)
    requires ByLastUse(s, order) && r <= |order|
    ensures Distinct(order[..r]) && forall key :: key in order[..r] ==> key in s
  {
  }

  /** Nothing goes while the store fits; otherwise the oldest go, for one order among equally old. */
  ghost predicate CapEnforced(s: Store, after: Store, order: seq<string>, max: nat) {
    if Total(s) <= max then after == s
    else ByLastUse(s, order) && after == Drop(s, order[..Rotated(s, order, max, 0)])
  }

  /**
   After the cap is enforced the store fits or holds one entry; what went is the shortest
   prefix in last-used order that achieves it, and never the most recent entry.
   */
  lemma CapHolds(s: Store, after: Store, order: seq<string>, max: nat)
    requires CapEnforced(s, after, order, max)
    ensures Total(after) <= max || |after| == 1
    ensures forall key :: key in after ==> key in s && after[key] == s[key]
    ensures forall key, gone :: key in after && gone in s && gone !in after ==> s[gone].lastUsed <= s[key].lastUsed
    ensures s != map[] ==> after != map[]
    ensures Total(s) > max ==>
      var r := Rotated(s, order, max, 0);
      && order[|order| - 1] in after
      && (forall k :: 0 <= k < r ==> Total(Drop(s, order[..k])) > max)
      && (forall key :: key in order[..r] ==> key in s)
      && Total(s) == Total(after) + BytesOf(s, order[..r])
  {
    if Total(s) > max {
      var r := Rotated(s, order, max, 0);
      RotatedIsLeast(s, order, max, 0);
      PrefixIsDistinct(s, order, r);
      DropConserves(s, order[..r]);
      var some :| some in s;
      assert some in order;
      OldestGoFirst(s, order, r);
      if r + 1 == |order| { OnlyTheLastIsLeft(s, order); }
    }
  }

  /** An entry used after all the others is still there. */
  lemma NewestStays(s: Store, after: Store, order: seq<string>, max: nat, key: string)
    requires CapEnforced(s, after, order, max) && key in s
    requires forall k :: k in s && k != key ==> s[k].lastUsed < s[key].lastUsed
    ensures key in after
  {
    CapHolds(s, after, order, max);
    var other :| other in after;
  }

  // ----- rule 1: separated, and nobody came back for it

  function Idle(now: nat, item: Item): nat {
    if now >= item.lastUsed then now - item.lastUsed else 0
  }

  predicate Abandoned(item: Item, now: nat, ttl: nat) {
    !item.consumed && Idle(now, item) > ttl
  }

  ghost predicate UnderPressure(s: Store, max: nat) {
    Total(s) > max / 2
  }

  function Unabandoned(s: Store, now: nat, ttl: nat): Store {
    map key | key in s && !Abandoned(s[key], now, ttl) :: s[key]
  }

  /**
   Rule 1, entry by entry: at half the budget or below it takes nothing; above, exactly the
   entries that were never wanted and have sat longer than the time allowed.
   */
  lemma Rule1Is(s: Store, now: nat, ttl: nat, max: nat, key: string)
    requires key in s
    ensures key in AfterRule1(s, now, ttl, max) <==>
      Total(s) <= max / 2 || s[key].consumed || now <= s[key].lastUsed + ttl
    ensures key in AfterRule1(s, now, ttl, max) ==> AfterRule1(s, now, ttl, max)[key] == s[key]
  {
  }

  /** The same with the entries of `left` not looked at yet. */
  function UnabandonedBut(s: Store, left: set<string>, now: nat, ttl: nat): Store {
    map key | key in s && (key in left || !Abandoned(s[key], now, ttl)) :: s[key]
  }

  lemma OneMoreLookedAt(s: Store, left: set<string>, key: string, now: nat, ttl: nat)
    requires key in left && key in s
    ensures key in UnabandonedBut(s, left, now, ttl) && UnabandonedBut(s, left, now, ttl)[key] == s[key]
    ensures UnabandonedBut(s, left - {key}, now, ttl)
            == if Abandoned(s[key], now, ttl) then UnabandonedBut(s, left, now, ttl) - {key}
               else UnabandonedBut(s, left, now, ttl)
  {
  }

  lemma AllLookedAt(s: Store, now: nat, ttl: nat)
    ensures UnabandonedBut(s, s.Keys, now, ttl) == s
    ensures UnabandonedBut(s, {}, now, ttl) == Unabandoned(s, now, ttl)
  {
  }

  ghost function AfterRule1(s: Store, now: nat, ttl: nat, max: nat): Store {
    if UnderPressure(s, max) then Unabandoned(s, now, ttl) else s
  }

  /** A whole sweep: rule 1, then the cap. */
  ghost predicate Reaped(s: Store, after: Store, order: seq<string>, now: nat, ttl: nat, max: nat) {
    CapEnforced(AfterRule1(s, now, ttl, max), after, order, max)
  }

  /**
   A sweep leaves a store that fits or a single entry.  An entry that is still wanted, or not
   yet expired, goes only by rule 2; and while half the budget is free nothing goes at all.
   */
  lemma ReapFits(s: Store, after: Store, order: seq<string>, now: nat, ttl: nat, max: nat)
    requires Reaped(s, after, order, now, ttl, max)
    ensures Total(after) <= max || |after| == 1
    ensures Total(s) <= max / 2 ==> after == s
    ensures forall key :: key in s && key !in after && !Abandoned(s[key], now, ttl) ==>
      Total(AfterRule1(s, now, ttl, max)) > max
    ensures forall key :: key in after ==> key in s && after[key] == s[key]
  {
    CapHolds(AfterRule1(s, now, ttl, max), after, order, max);
  }
}
