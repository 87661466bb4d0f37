/**
 The stem cache: entries in an index, their files in one directory each, and the operations
 that put entries in and take them out.

 `disk` maps a directory, named by its key, to the stem files in it.
 */
module Cache {
  import opened Wrappers
  import opened CachePolicy

  class Entry {
    const key: string
    const stems: set<string>
    const bytes: nat
    var evicted: bool
    var unfetched: set<string>
    var lastUsed: nat

    constructor (key: string, stems: set<string>, bytes: nat, now: nat)
      ensures this.key == key && this.stems == stems && this.bytes == bytes
      ensures !evicted && unfetched == stems && lastUsed == now
    {
      this.key, this.stems, this.bytes := key, stems, bytes;
      evicted, unfetched, lastUsed := false, stems, now;
    }

    function AsItem(): Item
      reads this
    {
      Item(bytes, lastUsed, unfetched == {})
    }

    method Touch(now: nat)
      modifies this`lastUsed
      ensures lastUsed == now
    {
      lastUsed := now;
    }

    /** One stem pulled; the entry has done its job once all of them were. */
    method MarkFetched(name: string, now: nat)
      modifies this`unfetched, this`lastUsed
      ensures unfetched == old(unfetched) - {name} && lastUsed == now
      ensures AsItem().consumed <==> old(unfetched) <= {name}
    {
      unfetched := unfetched - {name};
      lastUsed := now;
    }
  }

  class Cache {
    var entries: map<string, Entry>
    var disk: map<string, set<string>>
    const maxBytes: nat
    const unfetchedTtl: nat

    constructor (maxBytes: nat, unfetchedTtl: nat)
      ensures Valid() && entries == map[] && disk == map[]
      ensures this.maxBytes == maxBytes && this.unfetchedTtl == unfetchedTtl
    {
      entries, disk := map[], map[];
      this.maxBytes, this.unfetchedTtl := maxBytes, unfetchedTtl;
    }

    /** An entry is filed under its own key, and nothing in the index is marked evicted. */
    predicate Valid()
      reads this, entries.Values
    {
      forall key :: key in entries ==> entries[key].key == key && !entries[key].evicted
    }

    function View(): Store
      reads this, entries.Values
    {
      map key | key in entries :: entries[key].AsItem()
    }

    predicate Present(entry: Entry)
      reads this
    {
      entry.stems == {} || (entry.key in disk && entry.stems <= disk[entry.key])
    }

    method TotalBytes() returns (total: nat)
      ensures total == Total(View())
    {
      total := 0;
      var left := entries.Keys;
      ghost var seen: seq<string> := [];
      assert Drop(View(), seen) == View();
      while left != {}
        invariant left <= entries.Keys && Distinct(seen)
        invariant forall key :: key in entries ==> (key in seen <==> key !in left)
        invariant forall key :: key in seen ==> key in entries
        invariant total + Total(Drop(View(), seen)) == Total(View())
        decreases left
      {
        var key :| key in left;
        ghost var more := seen + [key];
        DropOneMore(View(), more, |seen|);
        assert more[..|seen|] == seen && more[..|more|] == more;
        total := total + entries[key].bytes;
        left := left - {key};
        seen := more;
      }
      assert Drop(View(), seen) == map[];
    }

    /** Every entry, least recently used first. */
    method ByUse() returns (order: seq<string>)
      ensures ByLastUse(View(), order)
    {
      order := [];
      var left := entries.Keys;
      ghost var s := View();
      while left != {}
        invariant left <= entries.Keys && Sorted(s, order)
        invariant forall key :: key in entries ==> (key in order <==> key !in left)
        decreases left
      {
        var key :| key in left;
        var at := 0;
        while at < |order| && entries[order[at]].lastUsed <= entries[key].lastUsed
          invariant at <= |order|
          invariant at > 0 ==> s[order[at - 1]].lastUsed <= s[key].lastUsed
        {
          at := at + 1;
        }
        InsertKeepsSorted(s, order, at, key);
        InsertedMembers(order, at, key);
        order := InsertedAt(order, at, key);
        left := left - {key};
      }
    }

    /** Mark first, then remove the directory. */
    method Delete(entry: Entry)
      modifies this`disk, entry`evicted
      ensures entry.evicted && disk == old(disk) - {entry.key}
    {
      entry.evicted := true;
      disk := disk - {entry.key};
    }

    /** Entries only left the index; those that did are marked, and their directories are gone. */
    ghost predicate OnlyEvicted(before: map<string, Entry>, diskBefore: map<string, set<string>>)
      reads this, before.Values
    {
      && (forall key :: key in before ==> before[key].key == key)
      && (forall key :: key in entries ==> key in before && entries[key] == before[key])
      && (forall key :: key in before ==> (key !in entries <==> before[key].evicted))
      && disk == diskBefore - (before.Keys - entries.Keys)
    }

    lemma NothingEvictedYet()
      requires Valid()
      ensures OnlyEvicted(entries, disk)
    {
    }

    /** `held` and `files` are the index and the disk before `key` was taken out. */
    lemma OneMoreEvicted(
      before: map<string, Entry>, diskBefore: map<string, set<string>>,
      held: map<string, Entry>, files: map<string, set<string>>, key: string)
      requires forall k :: k in before ==> before[k].key == k
      requires forall k :: k in held ==> k in before && held[k] == before[k]
      requires files == diskBefore - (before.Keys - held.Keys)
      requires key in held && entries == held - {key} && disk == files - {key}
      requires forall k :: k in before ==> (before[k].evicted <==> k !in held || k == key)
      ensures OnlyEvicted(before, diskBefore)
    {
      assert disk.Keys == (diskBefore - (before.Keys - entries.Keys)).Keys;
    }

    method TakeOut(key: string) returns (bytes: nat)
      requires Valid() && key in entries
      modifies this`entries, this`disk, {entries[key]}`evicted
      ensures Valid() && entries == old(entries) - {key} && disk == old(disk) - {key}
      ensures old(entries)[key].evicted && bytes == old(entries)[key].bytes
      ensures View() == old(View()) - {key}
    {
      ghost var s := View();
      var entry := entries[key];
      entries := entries - {key};
      Delete(entry);
      bytes := entry.bytes;
      assert forall k :: k in entries ==> entries[k].AsItem() == s[k];
      assert View() == s - {key};
    }

    /** One entry out of the index and off the disk. */
    method Rotate(key: string, ghost before: map<string, Entry>, ghost diskBefore: map<string, set<string>>)
      returns (bytes: nat)
      requires Valid() && key in entries && OnlyEvicted(before, diskBefore)
      modifies this`entries, this`disk, {entries[key]}`evicted
      ensures Valid() && entries == old(entries) - {key} && OnlyEvicted(before, diskBefore)
      ensures View() == old(View()) - {key} && Fell(old(View()), View(), 1, bytes)
    {
      ghost var held, files, s := entries, disk, View();
      bytes := TakeOut(key);
      OneMoreEvicted(before, diskBefore, held, files, key);
      OneFell(s, key);
    }

    /** The next of the oldest goes; `s` was the store before any of them did. */
    method RotateNext(
      order: seq<string>, n: nat, ghost s: Store, ghost freed: nat,
      ghost before: map<string, Entry>, ghost diskBefore: map<string, set<string>>)
      returns (bytes: nat)
      requires Valid() && OnlyEvicted(before, diskBefore)
      requires n < |order| && ByLastUse(s, order) && View() == Drop(s, order[..n]) && Fell(s, View(), n, freed)
      modifies this`entries, this`disk, entries.Values`evicted
      ensures Valid() && OnlyEvicted(before, diskBefore) && entries.Values <= old(entries).Values
      ensures View() == Drop(s, order[..n + 1]) && Fell(s, View(), n + 1, freed + bytes)
    {
      DropOneMore(s, order, n);
      ghost var mid := View();
      assert order[n] in mid;
      bytes := Rotate(order[n], before, diskBefore);
      FellTwice(s, mid, View(), n, freed, 1, bytes);
    }

    /** The loop of `EnforceCap`: the oldest go one at a time, from the store `s`. */
    method RotateOldest(
      order: seq<string>, total: nat, ghost s: Store,
      ghost before: map<string, Entry>, ghost diskBefore: map<string, set<string>>)
      returns (count: nat, freed: nat)
      requires Valid() && OnlyEvicted(before, diskBefore)
      requires s == View() && ByLastUse(s, order) && total == Total(s)
      modifies this`entries, this`disk, entries.Values`evicted
      ensures Valid() && OnlyEvicted(before, diskBefore)
      ensures count == Rotated(s, order, maxBytes, 0) && View() == Drop(s, order[..count])
      ensures Fell(s, View(), count, freed)
    {
      hide View, Fell, Drop, ByLastUse, Total, Rotated, OnlyEvicted;
      ghost var held := entries;
      var left := total;
      count, freed := 0, 0;
      DropNone(s, order);
      while left > maxBytes && count + 1 < |order|
        invariant count <= |order| && entries.Values <= held.Values
        invariant Valid() && OnlyEvicted(before, diskBefore)
        invariant View() == Drop(s, order[..count]) && Fell(s, View(), count, freed)
        invariant left == total - freed == Total(View())
        invariant Rotated(s, order, maxBytes, 0) == Rotated(s, order, maxBytes, count)
        decreases |order| - count
      {
        RotatedStep(s, order, maxBytes, count);
        var bytes := RotateNext(order, count, s, freed, before, diskBefore);
        FellLeaves(s, View(), count + 1, freed + bytes);
        left := left - bytes;
        freed := freed + bytes;
        count := count + 1;
      }
      RotatedStep(s, order, maxBytes, count);
    }

    /** The cap: entries go in the order of their last use until what is left is within it. */
    method EnforceCap(ghost before: map<string, Entry>, ghost diskBefore: map<string, set<string>>)
      returns (count: nat, freed: nat, ghost order: seq<string>)
      requires Valid() && OnlyEvicted(before, diskBefore)
      modifies this`entries, this`disk, entries.Values`evicted
      ensures Valid() && OnlyEvicted(before, diskBefore)
      ensures CapEnforced(old(View()), View(), order, maxBytes)
      ensures Fell(old(View()), View(), count, freed)
    {
      hide View;
      var total := TotalBytes();
      if total <= maxBytes {
        return 0, 0, [];
      }
      var sorted := ByUse();
      order := sorted;
      count, freed := RotateOldest(sorted, total, View(), before, diskBefore);
    }

    /** One entry looked at by rule 1. */
    method GiveUp(
      key: string, now: nat, ghost before: map<string, Entry>, ghost diskBefore: map<string, set<string>>)
      returns (gone: bool, bytes: nat)
      requires Valid() && key in entries && OnlyEvicted(before, diskBefore)
      modifies this`entries, this`disk, {entries[key]}`evicted
      ensures Valid() && OnlyEvicted(before, diskBefore) && entries.Values <= old(entries).Values
      ensures gone <==> Abandoned(old(View())[key], now, unfetchedTtl)
      ensures View() == if gone then old(View()) - {key} else old(View())
      ensures Fell(old(View()), View(), if gone then 1 else 0, bytes)
    {
      var entry := entries[key];
      var idle := if now >= entry.lastUsed then now - entry.lastUsed else 0;
      if entry.unfetched == {} || idle <= unfetchedTtl {
        return false, 0;
      }
      gone := true;
      bytes := Rotate(key, before, diskBefore);
    }

    /** Rule 1 over every entry. */
    method GiveUpAll(now: nat, ghost before: map<string, Entry>, ghost diskBefore: map<string, set<string>>)
      returns (count: nat, bytes: nat)
      requires Valid() && OnlyEvicted(before, diskBefore)
      modifies this`entries, this`disk, entries.Values`evicted
      ensures Valid() && OnlyEvicted(before, diskBefore) && entries.Values <= old(entries).Values
      ensures View() == Unabandoned(old(View()), now, unfetchedTtl)
      ensures Fell(old(View()), View(), count, bytes)
    {
      ghost var s, held := View(), entries;
      var left := entries.Keys;
      count, bytes := 0, 0;
      AllLookedAt(s, now, unfetchedTtl);
      while left != {}
        invariant left <= s.Keys && entries.Values <= held.Values
        invariant Valid() && OnlyEvicted(before, diskBefore)
        invariant View() == UnabandonedBut(s, left, now, unfetchedTtl)
        invariant Fell(s, View(), count, bytes)
        decreases left
      {
        var key :| key in left;
        OneMoreLookedAt(s, left, key, now, unfetchedTtl);
        ghost var mid := View();
        assert key in mid;
        var gone, freed := GiveUp(key, now, before, diskBefore);
        FellTwice(s, mid, View(), count, bytes, if gone then 1 else 0, freed);
        left := left - {key};
        bytes := bytes + freed;
        count := count + if gone then 1 else 0;
      }
    }

    /** Rule 1, if the store `s` is filling up. */
    method Relieve(
      now: nat, ghost s: Store, ghost before: map<string, Entry>, ghost diskBefore: map<string, set<string>>)
      returns (count: nat, bytes: nat)
      requires Valid() && OnlyEvicted(before, diskBefore) && s == View()
      modifies this`entries, this`disk, entries.Values`evicted
      ensures Valid() && OnlyEvicted(before, diskBefore) && entries.Values <= old(entries).Values
      ensures View() == AfterRule1(s, now, unfetchedTtl, maxBytes) && Fell(s, View(), count, bytes)
    {
      hide View;
      var total := TotalBytes();
      if total <= maxBytes / 2 {
        return 0, 0;
      }
      count, bytes := GiveUpAll(now, before, diskBefore);
    }

    /** Both rules, and what they collected. */
    method Reap(now: nat) returns (unfetched: nat, rotated: nat, bytes: nat, ghost order: seq<string>)
      requires Valid()
      modifies this`entries, this`disk, entries.Values`evicted
      ensures Valid() && OnlyEvicted(old(entries), old(disk))
      ensures Reaped(old(View()), View(), order, now, unfetchedTtl, maxBytes)
      ensures unfetched == |old(View())| - |AfterRule1(old(View()), now, unfetchedTtl, maxBytes)|
      ensures Fell(old(View()), View(), unfetched + rotated, bytes)
    {
      hide View;
      ghost var before, diskBefore := entries, disk;
      NothingEvictedYet();
      var first, more;
      unfetched, first := Relieve(now, View(), before, diskBefore);
      ghost var mid := View();
      rotated, more, order := EnforceCap(before, diskBefore);
      FellTwice(old(View()), mid, View(), unfetched, first, rotated, more);
      bytes := first + more;
    }

    /** A staged directory moved into place, and an entry for it in the index. */
    method Install(key: string, stems: set<string>, bytes: nat, now: nat) returns (entry: Entry)
      requires Valid()
      modifies this`entries, this`disk
      ensures Valid() && fresh(entry) && entry.key == key && entry.stems == stems
      ensures entries == old(entries)[key := entry] && disk == old(disk)[key := stems]
      ensures View() == old(View())[key := Item(bytes, now, stems == {})]
    {
      ghost var s := View();
      disk := disk[key := stems];
      entry := new Entry(key, stems, bytes, now);
      entries := entries[key := entry];
      assert forall k :: k in entries && k != key ==> entries[k].AsItem() == s[k];
      assert View() == s[key := Item(bytes, now, stems == {})];
    }

    /**
     A finished separation made visible under `key`, and the cap applied at once.  An entry
     that `key` had before is dropped from the index without being marked.
     */
    method Publish(key: string, stems: set<string>, bytes: nat, now: nat)
      returns (entry: Entry, rotated: nat, freed: nat, ghost order: seq<string>)
      requires Valid()
      modifies this`entries, this`disk, entries.Values`evicted
      ensures Valid() && fresh(entry) && entry.key == key && entry.stems == stems
      ensures OnlyEvicted(old(entries)[key := entry], old(disk)[key := stems])
      ensures CapEnforced(old(View())[key := Item(bytes, now, stems == {})], View(), order, maxBytes)
      ensures Fell(old(View())[key := Item(bytes, now, stems == {})], View(), rotated, freed)
      ensures key in old(entries) ==> !old(entries)[key].evicted
    {
      hide View;
      entry := Install(key, stems, bytes, now);
      NothingEvictedYet();
      rotated, freed, order := EnforceCap(entries, disk);
    }

    /** Every entry and its stems. */
    method Clear() returns (tracks: nat, freed: nat)
      requires Valid()
      modifies this`entries, this`disk, entries.Values`evicted
      ensures Valid() && entries == map[] && OnlyEvicted(old(entries), old(disk))
      ensures tracks == |old(entries)| && freed == Total(old(View()))
    {
      ghost var held, files := entries, disk;
      tracks := |entries|;
      freed := TotalBytes();
      DeleteAll();
      entries := map[];
      NothingLeft(held, files);
    }

    lemma NothingLeft(before: map<string, Entry>, diskBefore: map<string, set<string>>)
      requires entries == map[] && disk == diskBefore - before.Keys
      requires forall key :: key in before ==> before[key].key == key && before[key].evicted
      ensures OnlyEvicted(before, diskBefore)
    {
      assert before.Keys - entries.Keys == before.Keys;
    }

    /** The loop of `Clear`, which empties the index only afterwards. */
    method DeleteAll()
      requires Valid()
      modifies this`disk, entries.Values`evicted
      ensures forall key :: key in entries ==> entries[key].evicted
      ensures disk == old(disk) - entries.Keys
      ensures forall key :: key in entries ==> entries[key].key == key
    {
      var left := entries.Keys;
      while left != {}
        invariant left <= entries.Keys
        invariant forall key :: key in entries && key !in left ==> entries[key].evicted
        invariant disk == old(disk) - (entries.Keys - left)
        decreases left
      {
        var key :| key in left;
        ghost var files := disk;
        Delete(entries[key]);
        assert entries.Keys - (left - {key}) == (entries.Keys - left) + {key};
        left := left - {key};
      }
    }

    /** A hit only while the files are there; a miss takes out the entry that lost them. */
    method Get(key: string, now: nat) returns (r: Option<Entry>)
      requires Valid()
      modifies this`entries, entries.Values`evicted, entries.Values`lastUsed
      ensures Valid()
      ensures r.Some? <==>
        (key in old(entries)
         && forall stem :: stem in old(entries)[key].stems ==> key in disk && stem in disk[key])
      ensures r.Some? ==> r.value == old(entries)[key] && r.value.lastUsed == now && entries == old(entries)
      ensures r.None? ==> entries == old(entries) - {key}
      ensures key in old(entries) ==> (old(entries)[key].evicted <==> r.None?)
      ensures forall k :: k in old(entries) && k != key ==>
        old(entries)[k].AsItem() == old(entries[k].AsItem()) && !old(entries)[k].evicted
    {
      if key !in entries {
        return None;
      }
      var entry := entries[key];
      entry.Touch(now);
      if Present(entry) {
        return Some(entry);
      }
      entries := entries - {key};
      entry.evicted := true;
      r := None;
    }
  }
}
