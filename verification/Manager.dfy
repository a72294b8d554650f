// The L1 manager object: each method is one critical section, proved equal to
// the corresponding function of the lock protocol.
module Manager {
  import opened Types
  import opened Memory
  import opened Eviction
  import opened LockProtocol

  /** The write-back listener's queue of finished writes. */
  class StoreController {
    var pending: seq<seq<ChunkKey>>

    constructor ()
      ensures pending == []
    {
      pending := [];
    }

    method OnWriteFinished(keys: seq<ChunkKey>)
      modifies this
      ensures pending == old(pending) + [keys]
    {
      pending := pending + [keys];
    }
  }

  // ---- one more key: how each loop's result grows --------------------------------

  lemma HoldAppend(entries: Entries, keys: seq<ChunkKey>, k: ChunkKey, h: Entries)
    requires k in entries && h == Hold(entries, keys)
    ensures k in h && Hold(entries, keys + [k]) == h[k := h[k].(readCount := h[k].readCount + 1)]
  {
    hide Count;
    forall j | j in entries
      ensures Count(keys + [k], j) == Count(keys, j) + if j == k then 1 else 0
    {
      CountAppend(keys, k, j);
    }
  }

  lemma PublishAppend(entries: Entries, keys: seq<ChunkKey>, k: ChunkKey, h: Entries)
    requires k in entries && h == Hold(Unlock(entries, keys), keys)
    ensures k in h
    ensures Hold(Unlock(entries, keys + [k]), keys + [k])
              == h[k := h[k].(writeLocked := false, readCount := h[k].readCount + 1)]
  {
    hide Count;
    forall j | j in entries
      ensures Count(keys + [k], j) == Count(keys, j) + if j == k then 1 else 0
    {
      CountAppend(keys, k, j);
    }
  }

  ghost function AfterReads(entries: Entries, keys: seq<ChunkKey>): (Entries, map<ChunkKey, Option<Slice>>) {
    (Hold(entries, ReadableOf(entries, keys)), ReadableObjs(entries, keys))
  }

  lemma AfterReadsIs(entries: Entries, keys: seq<ChunkKey>)
    ensures AfterReads(entries, keys) == (Hold(entries, ReadableOf(entries, keys)), ReadableObjs(entries, keys))
  {
  }

  lemma ReadableObjsAppend(entries: Entries, keys: seq<ChunkKey>, k: ChunkKey)
    ensures ReadableObjs(entries, keys + [k])
              == ReadableObjs(entries, keys)[k := if CanRead(entries, k) then Some(entries[k].obj) else None]
  {
  }

  lemma AfterOneMoreRead(entries: Entries, keys: seq<ChunkKey>, k: ChunkKey, h: Entries,
                         objs: map<ChunkKey, Option<Slice>>)
    requires (h, objs) == AfterReads(entries, keys)
    ensures CanRead(h, k) ==>
              AfterReads(entries, keys + [k]) == (h[k := h[k].(readCount := h[k].readCount + 1)],
                  objs[k := Some(h[k].obj)])
    ensures !CanRead(h, k) ==> AfterReads(entries, keys + [k]) == (h, objs[k := None])
  {
    assert CanRead(h, k) == CanRead(entries, k) && (k in entries ==> h[k].obj == entries[k].obj);
    assert (keys + [k])[..|keys|] == keys;
    hide Count;
    if CanRead(entries, k) {
      HoldAppend(entries, ReadableOf(entries, keys), k, h);
    } else {
      assert ReadableOf(entries, keys) + [] == ReadableOf(entries, keys);
    }
    ReadableObjsAppend(entries, keys, k);
    hide Hold, ReadableObjs, CanRead;
  }

  lemma NothingYet(entries: Entries)
    ensures Hold(entries, []) == entries
    ensures Unlock(entries, []) == entries
  {
  }

  lemma NoReadsYet(entries: Entries)
    ensures AfterReads(entries, []) == (entries, map[])
  {
    NothingYet(entries);
  }

  lemma NewObjsAfter(before: Entries, entries: Entries, keys: seq<ChunkKey>, k: ChunkKey, e: Entry)
    requires k in keys && k !in before
    ensures NewObjs(before, entries[k := e], keys) == NewObjs(before, entries, keys)[k := Some(e.obj)]
  {
  }

  ghost predicate DropResumes(l: L1, keys: seq<ChunkKey>, m: L1, rest: seq<ChunkKey>, freed: seq<ChunkKey>,
                              touched: seq<ChunkKey>) {
    && Sized(l) && Finds(l, keys) && Sized(m) && Finds(m, rest)
    && var r := DropAll(m, rest);
       DropAll(l, keys) == (r.0, freed + r.1, touched + r.2)
  }

  lemma DropBegins(l: L1, keys: seq<ChunkKey>)
    requires Sized(l) && Finds(l, keys)
    ensures DropResumes(l, keys, l, keys, [], [])
  {
    assert [] + DropAll(l, keys).1 == DropAll(l, keys).1;
    assert [] + DropAll(l, keys).2 == DropAll(l, keys).2;
  }

  lemma DropStep(l: L1, keys: seq<ChunkKey>, m: L1, rest: seq<ChunkKey>, freed: seq<ChunkKey>, touched: seq<ChunkKey>)
    requires DropResumes(l, keys, m, rest, freed, touched)
    ensures rest == [] ==> DropAll(l, keys) == (m, freed, touched)
    ensures rest != [] ==>
              var k := rest[0];
              && k in m.entries && m.entries[k].obj.size in m.pool.free
              && if LastUse(m.entries[k])
                 then DropResumes(l, keys, DropOne(m, k), rest[1..], freed + [k], touched)
                 else DropResumes(l, keys, DropOne(m, k), rest[1..], freed, touched + [k])
  {
    if rest == [] {
      assert freed + [] == freed && touched + [] == touched;
    } else {
      var k := rest[0];
      var r := DropAll(DropOne(m, k), rest[1..]);
      assert freed + ([k] + r.1) == freed + [k] + r.1;
      assert touched + ([k] + r.2) == touched + [k] + r.2;
    }
  }

  ghost predicate DeleteResumes(l: L1, keys: seq<ChunkKey>, force: bool, m: L1, rest: seq<ChunkKey>,
                                deleted: seq<ChunkKey>) {
    && Sized(l) && Sized(m)
    && var r := DeleteAll(m, rest, force);
       DeleteAll(l, keys, force) == (r.0, deleted + r.1)
  }

  lemma DeleteStep(l: L1, keys: seq<ChunkKey>, force: bool, m: L1, rest: seq<ChunkKey>, deleted: seq<ChunkKey>)
    requires DeleteResumes(l, keys, force, m, rest, deleted)
    ensures rest == [] ==> DeleteAll(l, keys, force) == (m, deleted)
    ensures rest != [] ==>
              if Deletable(m.entries, force, rest[0])
              then DeleteResumes(l, keys, force, RemoveEntry(m, rest[0]), rest[1..], deleted + [rest[0]])
              else DeleteResumes(l, keys, force, m, rest[1..], deleted)
  {
    if rest == [] {
      assert deleted + [] == deleted;
    } else if Deletable(m.entries, force, rest[0]) {
      var r := DeleteAll(RemoveEntry(m, rest[0]), rest[1..], force);
      assert deleted + ([rest[0]] + r.1) == deleted + [rest[0]] + r.1;
    }
  }

  class L1Manager {
    const allocator: PoolAllocator
    const policy: LRUPolicy
    const store: StoreController?
    var entries: Entries

    ghost function View(): L1
      reads this, allocator, policy
    {
      L1(entries, allocator.View(), policy.order)
    }

    ghost function Parts(): set<object> {
      {this, allocator, policy} + if store == null then {} else {store}
    }

    /** A store controller is attached only when there are L2 adapters. */
    constructor (capacity: nat, hasL2: bool)
      ensures View() == L1(map[], Pool(capacity, 0, map[], 0), [])
      ensures L1Inv(View()) && fresh(Parts())
      ensures hasL2 <==> store != null
      ensures hasL2 ==> store.pending == []
    {
      allocator := new PoolAllocator(capacity);
      policy := new LRUPolicy();
      if hasL2 {
        store := new StoreController();
      } else {
        store := null;
      }
      entries := map[];
      new;
      assert SlicesOf(entries) == {};
    }

    method ReserveWrite(keys: seq<ChunkKey>, chunkNbytes: nat, isTemporary: bool)
      returns (result: map<ChunkKey, Option<Slice>>)
      modifies this, allocator
      ensures (View(), result) == LockProtocol.ReserveWrite(old(View()), keys, chunkNbytes, isTemporary)
    {
      result := map k | k in keys :: None;
      assert result == NewObjs(entries, entries, keys);
      hide NewObjs, AllocateFrom;
      var missing := Missing(entries, keys);
      var objs := allocator.Allocate(|missing|, chunkNbytes);
      if objs == None {
        return;
      }
      ghost var before := entries;
      for i := 0 to |missing|
        invariant |objs.value| == |missing|
        invariant Install(before, missing, objs.value, isTemporary) ==
                    Install(entries, missing[i..], objs.value[i..], isTemporary)
        invariant result == NewObjs(before, entries, keys)
        invariant allocator.View() == AllocateFrom(old(allocator.View()), |missing|, chunkNbytes).0
      {
        assert missing[i..][1..] == missing[i + 1..] && objs.value[i..][1..] == objs.value[i + 1..];
        assert missing[i] in missing;
        NewObjsAfter(before, entries, keys, missing[i], Entry(objs.value[i], true, 0, isTemporary));
        entries := entries[missing[i] := Entry(objs.value[i], true, 0, isTemporary)];
        result := result[missing[i] := Some(objs.value[i])];
      }
    }

    method FinishWrite(keys: seq<ChunkKey>)
      requires forall k :: k in keys ==> k in entries
      modifies Parts()
      ensures View() == LockProtocol.FinishWrite(old(View()), keys)
      ensures store != null ==> store.pending == old(store.pending) + [keys]
    {
      for i := 0 to |keys|
        invariant entries == Unlock(old(entries), keys[..i])
        invariant unchanged(allocator, policy) && (store != null ==> unchanged(store))
      {
        var e := entries[keys[i]];
        entries := entries[keys[i] := e.(writeLocked := false)];
        assert keys[..i + 1] == keys[..i] + [keys[i]];
      }
      assert keys[..|keys|] == keys;
      policy.OnCreated(keys);
      if store != null {
        store.OnWriteFinished(keys);
      }
    }

    method FinishWriteAndReserveRead(keys: seq<ChunkKey>)
      requires forall k :: k in keys ==> k in entries
      modifies this, policy
      ensures View() == FinishWriteAndHold(old(View()), keys)
    {
      hide Hold, Unlock;
      NothingYet(entries);
      assert keys[..0] == [];
      for i := 0 to |keys|
        invariant entries == Hold(Unlock(old(entries), keys[..i]), keys[..i])
        invariant entries.Keys == old(entries).Keys
        invariant unchanged(allocator, policy)
      {
        PublishAppend(old(entries), keys[..i], keys[i], entries);
        var e := entries[keys[i]];
        entries := entries[keys[i] := e.(writeLocked := false, readCount := e.readCount + 1)];
        assert keys[..i + 1] == keys[..i] + [keys[i]];
      }
      assert keys[..|keys|] == keys;
      policy.OnCreated(keys);
    }

    method ReserveRead(keys: seq<ChunkKey>) returns (result: map<ChunkKey, Option<Slice>>)
      modifies this
      ensures (View(), result) == LockProtocol.ReserveRead(old(View()), keys)
    {
      hide AfterReads, Hold, ReadableObjs, ReadableOf;
      result := map[];
      ghost var before := entries;
      NoReadsYet(before);
      assert keys[..0] == [];
      for i := 0 to |keys|
        invariant unchanged(allocator, policy)
        invariant (entries, result) == AfterReads(before, keys[..i])
      {
        var k := keys[i];
        assert keys[..i + 1] == keys[..i] + [k];
        AfterOneMoreRead(before, keys[..i], k, entries, result);
        if !CanRead(entries, k) {
          result := result[k := None];
        } else {
          entries := entries[k := entries[k].(readCount := entries[k].readCount + 1)];
          result := result[k := Some(entries[k].obj)];
        }
      }
      assert keys[..|keys|] == keys;
      AfterReadsIs(before, keys);
    }

    method ReserveReadPrefix(keys: seq<ChunkKey>) returns (hit: nat)
      modifies this
      ensures (View(), hit) == LockProtocol.ReserveReadPrefix(old(View()), keys)
    {
      hit := 0;
      while hit < |keys| && CanRead(entries, keys[hit])
        invariant hit <= |keys| && unchanged(this)
        invariant PrefixHits(entries, keys) == hit + PrefixHits(entries, keys[hit..])
      {
        assert keys[hit..][1..] == keys[hit + 1..];
        hit := hit + 1;
      }
      ghost var before := entries;
      hide Hold;
      NothingYet(before);
      assert keys[..0] == [];
      for i := 0 to hit
        invariant unchanged(allocator, policy)
        invariant entries == Hold(before, keys[..i])
      {
        HoldAppend(before, keys[..i], keys[i], entries);
        entries := entries[keys[i] := entries[keys[i]].(readCount := entries[keys[i]].readCount + 1)];
        assert keys[..i + 1] == keys[..i] + [keys[i]];
      }
    }

    method Read(keys: seq<ChunkKey>) returns (objs: seq<Slice>)
      requires forall k :: k in keys ==> k in entries
      ensures objs == ObjsOf(entries, keys)
    {
      objs := [];
      for i := 0 to |keys|
        invariant |objs| == i
        invariant forall j :: 0 <= j < i ==> objs[j] == entries[keys[j]].obj
      {
        objs := objs + [entries[keys[i]].obj];
      }
    }

    method FinishRead(keys: seq<ChunkKey>)
      requires Sized(View()) && Finds(View(), keys)
      modifies this, allocator, policy
      ensures View() == LockProtocol.FinishRead(old(View()), keys)
    {
      var freed: seq<ChunkKey> := [];
      var touched: seq<ChunkKey> := [];
      hide DropAll, Sized, Finds, DropResumes;
      ghost var before := View();
      DropBegins(before, keys);
      assert keys[0..] == keys;
      for i := 0 to |keys|
        invariant unchanged(policy)
        invariant DropResumes(before, keys, View(), keys[i..], freed, touched)
      {
        var k := keys[i];
        assert keys[i..][1..] == keys[i + 1..];
        DropStep(before, keys, View(), keys[i..], freed, touched);
        ghost var m := View();
        var e := entries[k];
        entries := entries[k := e.(readCount := e.readCount - 1)];
        if e.readCount - 1 == 0 && e.isTemporary {
          ReleaseOne(allocator.View(), e.obj);
          allocator.Free([e.obj]);
          assert entries - {k} == m.entries - {k};
          entries := entries - {k};
          freed := freed + [k];
        } else {
          touched := touched + [k];
        }
      }
      DropStep(before, keys, View(), [], freed, touched);
      if touched != [] {
        policy.OnTouched(touched);
      }
      if freed != [] {
        policy.OnRemoved(freed);
      }
    }

    method Promote(keys: seq<ChunkKey>)
      modifies this
      ensures View() == LockProtocol.Promote(old(View()), keys)
    {
      for i := 0 to |keys|
        invariant entries == LockProtocol.Promote(old(View()), keys[..i]).entries
      {
        if keys[i] in entries {
          entries := entries[keys[i] := entries[keys[i]].(isTemporary := false)];
        }
        assert keys[..i + 1] == keys[..i] + [keys[i]];
      }
      assert keys[..|keys|] == keys;
    }

    predicate IsEvictable(key: ChunkKey)
      reads this
    {
      Deletable(entries, false, key)
    }

    method Delete(keys: seq<ChunkKey>, force: bool) returns (count: nat)
      requires Sized(View())
      modifies this, allocator, policy
      ensures View() == LockProtocol.Delete(old(View()), keys, force)
      ensures count == |DeleteAll(old(View()), keys, force).1|
    {
      var deleted: seq<ChunkKey> := [];
      ghost var before := View();
      assert [] + DeleteAll(before, keys, force).1 == DeleteAll(before, keys, force).1;
      assert keys[0..] == keys;
      hide DeleteAll;
      for i := 0 to |keys|
        invariant unchanged(policy)
        invariant DeleteResumes(before, keys, force, View(), keys[i..], deleted)
      {
        var k := keys[i];
        assert keys[i..][1..] == keys[i + 1..];
        DeleteStep(before, keys, force, View(), keys[i..], deleted);
        if k in entries && (entries[k].Unlocked() || force) {
          ReleaseOne(allocator.View(), entries[k].obj);
          allocator.Free([entries[k].obj]);
          entries := entries - {k};
          deleted := deleted + [k];
        }
      }
      DeleteStep(before, keys, force, View(), [], deleted);
      if deleted != [] {
        policy.OnRemoved(deleted);
      }
      count := |deleted|;
    }

    method Usage() returns (used: int, total: nat)
      ensures used == allocator.View().used && total == allocator.View().total
    {
      used, total := allocator.usedBytes, allocator.pool.Length;
    }
  }
}
