// The L1 lock protocol as functions on the manager's state: one function per
// critical section, and what each does to the entries it touches.
module LockProtocol {
  import opened Types
  import opened Memory
  import opened Eviction

  datatype Entry = Entry(obj: Slice, writeLocked: bool, readCount: int, isTemporary: bool) {
    predicate Readable() {
      !writeLocked
    }
    /** True when nothing references the entry (evictable). */
    predicate Unlocked() {
      !writeLocked && readCount == 0
    }
  }

  type Entries = map<ChunkKey, Entry>

  /** The manager's dictionary, its allocator and the recency order kept by its LRU listener. */
  datatype L1 = L1(entries: Entries, pool: Pool, order: seq<ChunkKey>)

  // ---- critical sections ---------------------------------------------------

  function Missing(entries: Entries, keys: seq<ChunkKey>): (r: seq<ChunkKey>)
    ensures forall k :: k in r <==> k in keys && k !in entries
  {
    if keys == [] then []
    else (if keys[0] in entries then [] else [keys[0]]) + Missing(entries, keys[1..])
  }

  function Install(entries: Entries, keys: seq<ChunkKey>, objs: seq<Slice>, temporary: bool): Entries
    requires |keys| == |objs|
    decreases keys
  {
    if keys == [] then entries
    else Install(entries[keys[0] := Entry(objs[0], true, 0, temporary)], keys[1..], objs[1..], temporary)
  }

  /** Missing keys get write-locked slices, all of them or none. */
  function ReserveWrite(l: L1, keys: seq<ChunkKey>, n: nat, temporary: bool): (L1, map<ChunkKey, Option<Slice>>) {
    var missing := Missing(l.entries, keys);
    var (pool, objs) := AllocateFrom(l.pool, |missing|, n);
    if objs.Some? && |objs.value| == |missing| then
      var entries := Install(l.entries, missing, objs.value, temporary);
      (l.(entries := entries, pool := pool), NewObjs(l.entries, entries, keys))
    else
      (l.(pool := pool), NewObjs(l.entries, l.entries, keys))
  }

  /** For each key the slice it got between the two states, if it got one. */
  function NewObjs(before: Entries, after: Entries, keys: seq<ChunkKey>): map<ChunkKey, Option<Slice>> {
    map k | k in keys :: if k !in before && k in after then Some(after[k].obj) else None
  }

  function Unlock(entries: Entries, keys: seq<ChunkKey>): Entries {
    map k | k in entries :: if k in keys then entries[k].(writeLocked := false) else entries[k]
  }

  /** One more hold per occurrence in keys. */
  function Hold(entries: Entries, keys: seq<ChunkKey>): Entries {
    map k | k in entries :: entries[k].(readCount := entries[k].readCount + Count(keys, k))
  }

  function FinishWrite(l: L1, keys: seq<ChunkKey>): L1 {
    l.(entries := Unlock(l.entries, keys), order := Touch(l.order, keys))
  }

  function FinishWriteAndHold(l: L1, keys: seq<ChunkKey>): L1 {
    l.(entries := Hold(Unlock(l.entries, keys), keys), order := Touch(l.order, keys))
  }

  predicate CanRead(entries: Entries, k: ChunkKey) {
    k in entries && entries[k].Readable()
  }

  function ReadableOf(entries: Entries, keys: seq<ChunkKey>): (r: seq<ChunkKey>)
    ensures forall k :: k in r <==> k in keys && CanRead(entries, k)
  {
    if keys == [] then []
    else
      var k := keys[|keys| - 1];
      ReadableOf(entries, keys[..|keys| - 1]) + if CanRead(entries, k) then [k] else []
  }

  function ReserveRead(l: L1, keys: seq<ChunkKey>): (L1, map<ChunkKey, Option<Slice>>) {
    (l.(entries := Hold(l.entries, ReadableOf(l.entries, keys))), ReadableObjs(l.entries, keys))
  }

  function ReadableObjs(entries: Entries, keys: seq<ChunkKey>): map<ChunkKey, Option<Slice>> {
    map k | k in keys :: if CanRead(entries, k) then Some(entries[k].obj) else None
  }

  function PrefixHits(entries: Entries, keys: seq<ChunkKey>): (n: nat)
    ensures n <= |keys|
    ensures forall i :: 0 <= i < n ==> CanRead(entries, keys[i])
    ensures n < |keys| ==> !CanRead(entries, keys[n])
  {
    if keys == [] || !CanRead(entries, keys[0]) then 0 else 1 + PrefixHits(entries, keys[1..])
  }

  function ReserveReadPrefix(l: L1, keys: seq<ChunkKey>): (L1, nat) {
    var n := PrefixHits(l.entries, keys);
    (l.(entries := Hold(l.entries, keys[..n])), n)
  }

  function ObjsOf(entries: Entries, keys: seq<ChunkKey>): seq<Slice>
    requires forall k :: k in keys ==> k in entries
  {
    seq(|keys|, i requires 0 <= i < |keys| => entries[keys[i]].obj)
  }

  /** Every slice that may be freed has a free list of its size. */
  ghost predicate Sized(l: L1) {
    forall k :: k in l.entries ==> l.entries[k].obj.size in l.pool.free
  }

  function RemoveEntry(l: L1, k: ChunkKey): L1
    requires k in l.entries && l.entries[k].obj.size in l.pool.free
  {
    l.(entries := l.entries - {k}, pool := Release(l.pool, l.entries[k].obj))
  }

  predicate LastUse(e: Entry) {
    e.readCount == 1 && e.isTemporary
  }

  function DropOne(l: L1, k: ChunkKey): L1
    requires k in l.entries && l.entries[k].obj.size in l.pool.free
  {
    var e := l.entries[k];
    if LastUse(e) then RemoveEntry(l, k)
    else l.(entries := l.entries[k := e.(readCount := e.readCount - 1)])
  }

  /** No lookup of finish_read misses. */
  ghost predicate Finds(l: L1, keys: seq<ChunkKey>)
    requires Sized(l)
    decreases keys
  {
    keys == [] || (keys[0] in l.entries && Finds(DropOne(l, keys[0]), keys[1..]))
  }

  /** The state before the listeners run, the keys whose entry went and those whose entry stayed. */
  function DropAll(l: L1, keys: seq<ChunkKey>): (L1, seq<ChunkKey>, seq<ChunkKey>)
    requires Sized(l) && Finds(l, keys)
    decreases keys
  {
    if keys == [] then (l, [], [])
    else
      var k := keys[0];
      var (m, freed, touched) := DropAll(DropOne(l, k), keys[1..]);
      if LastUse(l.entries[k]) then (m, [k] + freed, touched) else (m, freed, [k] + touched)
  }

  function FinishRead(l: L1, keys: seq<ChunkKey>): L1
    requires Sized(l) && Finds(l, keys)
  {
    var (m, freed, touched) := DropAll(l, keys);
    m.(order := Forget(Touch(m.order, touched), freed))
  }

  function Promote(l: L1, keys: seq<ChunkKey>): L1 {
    l.(entries := map k | k in l.entries ::
         if k in keys then l.entries[k].(isTemporary := false) else l.entries[k])
  }

  /** What delete removes; unless forced, what the evictor may choose. */
  predicate Deletable(entries: Entries, force: bool, k: ChunkKey) {
    k in entries && (force || entries[k].Unlocked())
  }

  /** Deletes in order; the second component lists what actually went. */
  function DeleteAll(l: L1, keys: seq<ChunkKey>, force: bool): (L1, seq<ChunkKey>)
    requires Sized(l)
    decreases keys
  {
    if keys == [] then (l, [])
    else if Deletable(l.entries, force, keys[0]) then
      var (m, deleted) := DeleteAll(RemoveEntry(l, keys[0]), keys[1..], force);
      (m, [keys[0]] + deleted)
    else DeleteAll(l, keys[1..], force)
  }

  function Delete(l: L1, keys: seq<ChunkKey>, force: bool): L1
    requires Sized(l)
  {
    var (m, deleted) := DeleteAll(l, keys, force);
    m.(order := Forget(m.order, deleted))
  }

  // ---- what always holds ----------------------------------------------------

  ghost function SlicesOf(entries: Entries): set<Slice> {
    set k | k in entries :: entries[k].obj
  }

  /** Entries and live slices are in one-to-one correspondence and tile the pool with the free ones. */
  ghost predicate Owned(entries: Entries, pool: Pool) {
    && (forall j, k :: j in entries && k in entries && j != k ==> entries[j].obj != entries[k].obj)
    && PoolInv(pool, SlicesOf(entries))
  }

  ghost predicate Locks(entries: Entries) {
    forall k :: k in entries ==>
      && entries[k].readCount >= 0
      && (entries[k].writeLocked ==> entries[k].readCount == 0)
      && (entries[k].Readable() && entries[k].isTemporary ==> entries[k].readCount > 0)
  }

  /** The LRU listener ranks exactly the readable entries. */
  ghost predicate Ranked(entries: Entries, order: seq<ChunkKey>) {
    && NoDup(order)
    && forall k :: k in order <==> CanRead(entries, k)
  }

  ghost predicate L1Inv(l: L1) {
    Owned(l.entries, l.pool) && Locks(l.entries) && Ranked(l.entries, l.order)
  }

  lemma OwnedIsSized(l: L1)
    requires Owned(l.entries, l.pool)
    ensures Sized(l)
  {
    forall k | k in l.entries
      ensures l.entries[k].obj.size in l.pool.free
    {
      assert l.entries[k].obj in SlicesOf(l.entries);
    }
  }

  lemma InvIsSized(l: L1)
    requires L1Inv(l)
    ensures Sized(l)
  {
    OwnedIsSized(l);
  }

  /** Different entries have disjoint slices inside the carved part of the pool. */
  lemma OwnedApart(entries: Entries, pool: Pool, j: ChunkKey, k: ChunkKey)
    requires Owned(entries, pool) && j in entries && k in entries
    ensures entries[j].obj.off + entries[j].obj.size <= pool.total
    ensures j != k ==> entries[j].obj.Apart(entries[k].obj)
  {
    assert entries[j].obj in SlicesOf(entries) && entries[k].obj in SlicesOf(entries);
  }

  /** Changing flags and counts does not move any slice. */
  lemma SameSlices(entries: Entries, entries': Entries, pool: Pool)
    requires Owned(entries, pool)
    requires entries'.Keys == entries.Keys
    requires forall k :: k in entries ==> entries'[k].obj == entries[k].obj
    ensures Owned(entries', pool)
  {
    assert SlicesOf(entries') == SlicesOf(entries) by {
      forall s | s in SlicesOf(entries)
        ensures s in SlicesOf(entries')
      {
        var k :| k in entries && entries[k].obj == s;
        assert entries'[k].obj == s;
      }
    }
  }

  // ---- effect of reserve_write --------------------------------------------------

  lemma {:induction false} MissingNoDup(entries: Entries, keys: seq<ChunkKey>)
    requires NoDup(keys)
    ensures NoDup(Missing(entries, keys))
  {
    if keys != [] {
      NoDupTail(keys);
      MissingNoDup(entries, keys[1..]);
      NoDupConcat(if keys[0] in entries then [] else [keys[0]], Missing(entries, keys[1..]));
    }
  }

  lemma {:induction false} InstallEffect(entries: Entries, keys: seq<ChunkKey>, objs: seq<Slice>, temporary: bool)
    requires |keys| == |objs| && NoDup(keys) && NoDup(objs)
    requires forall k :: k in keys ==> k !in entries
    ensures var r := Install(entries, keys, objs, temporary);
            && r.Keys == entries.Keys + Elems(keys)
            && (forall k :: k in entries ==> r[k] == entries[k])
            && (forall i :: 0 <= i < |keys| ==> r[keys[i]] == Entry(objs[i], true, 0, temporary))
            && SlicesOf(r) == SlicesOf(entries) + Elems(objs)
    decreases keys
  {
    if keys != [] {
      var e := Entry(objs[0], true, 0, temporary);
      var next := entries[keys[0] := e];
      NoDupTail(keys);
      NoDupTail(objs);
      InstallEffect(next, keys[1..], objs[1..], temporary);
      var r := Install(entries, keys, objs, temporary);
      assert Elems(keys) == {keys[0]} + Elems(keys[1..]);
      assert Elems(objs) == {objs[0]} + Elems(objs[1..]);
      assert SlicesOf(next) == SlicesOf(entries) + {objs[0]} by {
        assert next[keys[0]].obj == objs[0];
        forall s | s in SlicesOf(entries)
          ensures s in SlicesOf(next)
        {
          var k :| k in entries && entries[k].obj == s;
          assert next[k].obj == s;
        }
      }
      forall i | 0 <= i < |keys|
        ensures r[keys[i]] == Entry(objs[i], true, 0, temporary)
      {
        if i > 0 {
          assert keys[i] == keys[1..][i - 1] && objs[i] == objs[1..][i - 1];
        } else {
          assert keys[0] in next;
        }
      }
    }
  }

  /** A key that reserve_write has just taken. */
  ghost predicate Taken(l: L1, m: L1, k: ChunkKey, n: nat, temporary: bool) {
    && k !in l.entries && k in m.entries
    && m.entries[k] == Entry(m.entries[k].obj, true, 0, temporary)
    && m.entries[k].obj.size == n
    && (forall j :: j in l.entries ==> l.entries[j].obj != m.entries[k].obj)
  }

  ghost predicate Granted(l: L1, m: L1, keys: seq<ChunkKey>, got: map<ChunkKey, Option<Slice>>, n: nat,
                          temporary: bool) {
    && got.Keys == Elems(keys)
    && m.entries.Keys == l.entries.Keys + Elems(keys)
    && (forall k :: k in l.entries ==> m.entries[k] == l.entries[k])
    && (forall k :: k in keys && k in l.entries ==> got[k].None?)
    && (forall k :: k in keys && k !in l.entries ==> got[k] == Some(m.entries[k].obj) && Taken(l, m, k, n, temporary))
  }

  ghost predicate Refused(l: L1, m: L1, keys: seq<ChunkKey>, got: map<ChunkKey, Option<Slice>>) {
    && got.Keys == Elems(keys)
    && m.entries == l.entries
    && (forall k :: k in keys ==> got[k].None?)
  }

  /**
   * reserve_write takes all missing keys, each with a fresh write-locked slice
   * of its own, exactly when the pool has room for all of them, and otherwise
   * none; present keys are left alone either way.
   */
  lemma ReserveWriteEffect(l: L1, keys: seq<ChunkKey>, n: nat, temporary: bool)
    requires L1Inv(l) && NoDup(keys) && n > 0
    ensures var (m, got) := ReserveWrite(l, keys, n, temporary);
            && L1Inv(m) && m.order == l.order && m.pool.total == l.pool.total
            && if |Missing(l.entries, keys)| <= Capacity(l.pool, n) then Granted(l, m, keys, got, n, temporary)
               else Refused(l, m, keys, got)
  {
    var missing := Missing(l.entries, keys);
    var (pool, objs) := AllocateFrom(l.pool, |missing|, n);
    AllocateBound(l.pool, |missing|, n);
    AllocateKeepsPool(l.pool, SlicesOf(l.entries), |missing|, n);
    hide AllocateFrom, Capacity, PoolInv, Install, Locks, Ranked, NoDup, Granted;
    if objs.Some? {
      MissingNoDup(l.entries, keys);
      InstallKeepsInv(l, missing, pool, objs.value, n, temporary);
      InstallGrants(l, keys, pool, objs.value, n, temporary);
    }
  }

  /** The part of a reservation's effect that does not say whether it was granted. */
  ghost predicate Reserved(l: L1, m: L1, keys: seq<ChunkKey>, got: map<ChunkKey, Option<Slice>>, n: nat,
                           temporary: bool) {
    && (forall k :: k in l.entries ==> k in m.entries && m.entries[k] == l.entries[k])
    && (forall k :: k in m.entries && k !in l.entries ==>
          m.entries[k] == Entry(m.entries[k].obj, true, 0, temporary) && m.entries[k].obj.size == n)
    && (forall k :: k in m.entries && k !in l.entries <==> k in keys && k in got && got[k].Some?)
    && (forall k :: k in keys && k in got && got[k].Some? ==> got[k].value == m.entries[k].obj)
  }

  lemma ReserveWriteReserves(l: L1, keys: seq<ChunkKey>, n: nat, temporary: bool)
    requires L1Inv(l) && NoDup(keys) && n > 0
    ensures var (m, got) := ReserveWrite(l, keys, n, temporary);
            L1Inv(m) && m.order == l.order && m.pool.total == l.pool.total && Reserved(l, m, keys, got, n, temporary)
  {
    var (m, got) := ReserveWrite(l, keys, n, temporary);
    ReserveWriteEffect(l, keys, n, temporary);
    hide L1Inv, ReserveWrite, Capacity, Missing;
    GrantReserves(l, m, keys, got, n, temporary);
  }

  lemma GrantReserves(l: L1, m: L1, keys: seq<ChunkKey>, got: map<ChunkKey, Option<Slice>>, n: nat, temporary: bool)
    requires Granted(l, m, keys, got, n, temporary) || Refused(l, m, keys, got)
    ensures Reserved(l, m, keys, got, n, temporary)
  {
    assert forall k :: k in Elems(keys) ==> k in keys;
  }

  lemma InstallGrants(l: L1, keys: seq<ChunkKey>, pool: Pool, objs: seq<Slice>, n: nat, temporary: bool)
    requires var missing := Missing(l.entries, keys); NoDup(missing) && |missing| == |objs|
    requires NoDup(objs) && Elems(objs) !! SlicesOf(l.entries) && forall s :: s in objs ==> s.size == n
    ensures var m := L1(Install(l.entries, Missing(l.entries, keys), objs, temporary), pool, l.order);
            Granted(l, m, keys, NewObjs(l.entries, m.entries, keys), n, temporary)
  {
    var missing := Missing(l.entries, keys);
    InstallEffect(l.entries, missing, objs, temporary);
    var m := L1(Install(l.entries, missing, objs, temporary), pool, l.order);
    assert l.entries.Keys + Elems(missing) == l.entries.Keys + Elems(keys);
    forall k | k in missing
      ensures Taken(l, m, k, n, temporary)
    {
      var i :| 0 <= i < |missing| && missing[i] == k;
      assert objs[i] in Elems(objs);
      assert forall j :: j in l.entries ==> l.entries[j].obj in SlicesOf(l.entries);
    }
  }

  lemma InstallKeepsInv(l: L1, missing: seq<ChunkKey>, pool: Pool, objs: seq<Slice>, n: nat, temporary: bool)
    requires L1Inv(l) && NoDup(missing) && |missing| == |objs| && NoDup(objs)
    requires forall k :: k in missing ==> k !in l.entries
    requires Elems(objs) !! SlicesOf(l.entries)
    requires PoolInv(pool, SlicesOf(l.entries) + Elems(objs))
    ensures L1Inv(L1(Install(l.entries, missing, objs, temporary), pool, l.order))
  {
    hide PoolInv;
    var r := Install(l.entries, missing, objs, temporary);
    InstallEffect(l.entries, missing, objs, temporary);
    forall j, k | j in r && k in r && j != k
      ensures r[j].obj != r[k].obj
    {
      ObjOrigin(l.entries, missing, objs, temporary, j);
      ObjOrigin(l.entries, missing, objs, temporary, k);
    }
    forall k | k in r && k !in l.entries
      ensures r[k].writeLocked && r[k].readCount == 0
    {
      ObjOrigin(l.entries, missing, objs, temporary, k);
    }
  }

  lemma ObjOrigin(entries: Entries, keys: seq<ChunkKey>, objs: seq<Slice>, temporary: bool, k: ChunkKey)
    requires |keys| == |objs| && NoDup(keys) && NoDup(objs)
    requires forall k :: k in keys ==> k !in entries
    requires k in Install(entries, keys, objs, temporary)
    ensures var r := Install(entries, keys, objs, temporary);
            if k in entries then r[k] == entries[k] && r[k].obj in SlicesOf(entries)
            else
              exists i ::
                && 0 <= i < |keys| && keys[i] == k
                && r[k] == Entry(objs[i], true, 0, temporary) && objs[i] in Elems(objs)
  {
    InstallEffect(entries, keys, objs, temporary);
    if k !in entries {
      var i :| 0 <= i < |keys| && keys[i] == k;
      assert objs[i] in Elems(objs);
    }
  }

  // ---- effect of the sections that only change flags and counts -------------------

  lemma HoldOnce(entries: Entries, keys: seq<ChunkKey>)
    requires NoDup(keys)
    ensures var r := Hold(entries, keys);
            forall k :: k in entries ==>
              r[k] == if k in keys then entries[k].(readCount := entries[k].readCount + 1) else entries[k]
  {
    forall k | k in entries
      ensures Count(keys, k) == if k in keys then 1 else 0
    {
      NoDupCounts(keys, k);
    }
  }

  /** finish_write makes exactly the listed chunks readable and ranks them. */
  lemma FinishWriteKeepsInv(l: L1, keys: seq<ChunkKey>)
    requires L1Inv(l)
    requires forall k :: k in keys ==> k in l.entries && !l.entries[k].isTemporary
    ensures L1Inv(FinishWrite(l, keys)) && FinishWrite(l, keys).pool == l.pool
    ensures forall k :: CanRead(FinishWrite(l, keys).entries, k) <==> CanRead(l.entries, k) || k in keys
  {
    SameSlices(l.entries, FinishWrite(l, keys).entries, l.pool);
    TouchRanks(l.order, keys);
  }

  /** The prefetch path publishes each loaded chunk together with one hold on it. */
  ghost predicate PublishedHeld(entries: Entries, entries': Entries, keys: seq<ChunkKey>) {
    && entries'.Keys == entries.Keys
    && forall k :: k in entries ==>
         entries'[k] == if k in keys
                        then entries[k].(writeLocked := false, readCount := entries[k].readCount + 1)
                        else entries[k]
  }

  lemma FinishWriteAndHoldEffect(l: L1, keys: seq<ChunkKey>)
    requires NoDup(keys)
    ensures PublishedHeld(l.entries, FinishWriteAndHold(l, keys).entries, keys)
  {
    HoldOnce(Unlock(l.entries, keys), keys);
  }

  lemma FinishWriteAndHoldKeepsInv(l: L1, keys: seq<ChunkKey>)
    requires L1Inv(l) && NoDup(keys) && forall k :: k in keys ==> k in l.entries
    ensures L1Inv(FinishWriteAndHold(l, keys)) && FinishWriteAndHold(l, keys).pool == l.pool
    ensures PublishedHeld(l.entries, FinishWriteAndHold(l, keys).entries, keys)
  {
    hide Owned, Hold, Unlock, NoDup, Touch;
    FinishWriteAndHoldEffect(l, keys);
    var m := FinishWriteAndHold(l, keys);
    SameSlices(l.entries, m.entries, l.pool);
    TouchRanks(l.order, keys);
  }

  lemma HoldKeepsInv(l: L1, keys: seq<ChunkKey>)
    requires L1Inv(l) && NoDup(keys) && forall k :: k in keys ==> CanRead(l.entries, k)
    ensures L1Inv(l.(entries := Hold(l.entries, keys)))
  {
    HoldOnce(l.entries, keys);
    SameSlices(l.entries, Hold(l.entries, keys), l.pool);
  }

  lemma {:induction false} ReadableNoDup(entries: Entries, keys: seq<ChunkKey>)
    requires NoDup(keys)
    ensures NoDup(ReadableOf(entries, keys))
  {
    if keys != [] {
      var init, k := keys[..|keys| - 1], keys[|keys| - 1];
      ReadableNoDup(entries, init);
      NoDupConcat(ReadableOf(entries, init), if CanRead(entries, k) then [k] else []);
    }
  }

  /** reserve_read holds exactly the readable ones among its keys, once each. */
  lemma ReserveReadEffect(l: L1, keys: seq<ChunkKey>)
    requires L1Inv(l) && NoDup(keys)
    ensures var (m, got) := ReserveRead(l, keys);
            && L1Inv(m) && m.order == l.order && m.entries.Keys == l.entries.Keys && NoDup(ReadableOf(l.entries, keys))
            && got.Keys == Elems(keys)
            && (forall k :: k in keys ==>
                  got[k] == if k in l.entries && !l.entries[k].writeLocked then Some(l.entries[k].obj) else None)
            && forall k :: k in l.entries ==>
                 m.entries[k] == if k in keys && !l.entries[k].writeLocked
                                 then l.entries[k].(readCount := l.entries[k].readCount + 1)
                                 else l.entries[k]
  {
    ReadableNoDup(l.entries, keys);
    HoldKeepsInv(l, ReadableOf(l.entries, keys));
    HoldOnce(l.entries, ReadableOf(l.entries, keys));
  }

  /** reserve_read_prefix holds exactly the longest readable prefix. */
  lemma ReserveReadPrefixEffect(l: L1, keys: seq<ChunkKey>)
    requires L1Inv(l) && NoDup(keys)
    ensures var (m, n) := ReserveReadPrefix(l, keys);
            && L1Inv(m) && m.order == l.order && m.entries.Keys == l.entries.Keys && n <= |keys|
            && (forall k :: k in keys[..n] ==> k in l.entries && !l.entries[k].writeLocked)
            && (n < |keys| && keys[n] in l.entries ==> l.entries[keys[n]].writeLocked)
            && forall k :: k in l.entries ==>
                 m.entries[k] == if k in keys[..n]
                                 then l.entries[k].(readCount := l.entries[k].readCount + 1)
                                 else l.entries[k]
  {
    var n := PrefixHits(l.entries, keys);
    assert NoDup(keys[..n]);
    HoldKeepsInv(l, keys[..n]);
    HoldOnce(l.entries, keys[..n]);
  }

  /** promote makes the listed entries resident, held or not, readable or not, and changes nothing else. */
  lemma PromoteKeepsInv(l: L1, keys: seq<ChunkKey>)
    requires L1Inv(l)
    ensures L1Inv(Promote(l, keys)) && Promote(l, keys).entries.Keys == l.entries.Keys
    ensures Promote(l, keys).order == l.order && Promote(l, keys).pool == l.pool
    ensures forall k :: k in l.entries ==>
              var e := Promote(l, keys).entries[k];
              e.(isTemporary := l.entries[k].isTemporary) == l.entries[k]
                  && (e.isTemporary <==> l.entries[k].isTemporary && k !in keys)
  {
    SameSlices(l.entries, Promote(l, keys).entries, l.pool);
  }

  // ---- effect of the sections that free slices -----------------------------------------

  lemma RemoveKeepsOwned(l: L1, k: ChunkKey)
    requires Owned(l.entries, l.pool) && k in l.entries
    ensures l.entries[k].obj.size in l.pool.free
    ensures var m := RemoveEntry(l, k); Owned(m.entries, m.pool) && Sized(m) && m.pool.total == l.pool.total
  {
    OwnedIsSized(l);
    var m := RemoveEntry(l, k);
    var s := l.entries[k].obj;
    assert s in SlicesOf(l.entries);
    ReleaseKeepsPool(l.pool, SlicesOf(l.entries), s);
    assert SlicesOf(m.entries) == SlicesOf(l.entries) - {s} by {
      forall t | t in SlicesOf(l.entries) && t != s
        ensures t in SlicesOf(m.entries)
      {
        var j :| j in l.entries && l.entries[j].obj == t;
        assert j in m.entries;
      }
    }
    OwnedIsSized(m);
  }

  /** The entries after dropping one hold on each of keys. */
  ghost predicate Dropped(entries: Entries, entries': Entries, keys: seq<ChunkKey>) {
    && (forall k :: k in entries' <==>
          k in entries && !(k in keys && entries[k].isTemporary && entries[k].readCount == 1))
    && (forall k :: k in entries' ==>
          entries'[k] == if k in keys then entries[k].(readCount := entries[k].readCount - 1) else entries[k])
  }

  ghost predicate Holdable(entries: Entries, keys: seq<ChunkKey>) {
    forall k :: k in keys ==> CanRead(entries, k) && entries[k].readCount > 0
  }

  lemma DropOneKeepsOwned(l: L1, k: ChunkKey)
    requires Owned(l.entries, l.pool) && k in l.entries
    ensures Sized(l)
    ensures var m := DropOne(l, k);
            && Owned(m.entries, m.pool) && Sized(m) && m.pool.total == l.pool.total && m.order == l.order
            && Dropped(l.entries, m.entries, [k])
  {
    OwnedIsSized(l);
    if LastUse(l.entries[k]) {
      RemoveKeepsOwned(l, k);
    } else {
      SameSlices(l.entries, DropOne(l, k).entries, l.pool);
    }
  }

  lemma {:induction false} DropAllEffect(l: L1, keys: seq<ChunkKey>)
    requires Owned(l.entries, l.pool) && NoDup(keys) && forall k :: k in keys ==> k in l.entries
    ensures Sized(l) && Finds(l, keys)
    ensures var (m, freed, touched) := DropAll(l, keys);
            && Owned(m.entries, m.pool) && m.order == l.order && m.pool.total == l.pool.total
            && Dropped(l.entries, m.entries, keys)
            && (forall k :: k in freed <==> k in keys && LastUse(l.entries[k]))
            && (forall k :: k in touched <==> k in keys && !LastUse(l.entries[k]))
    decreases keys
  {
    OwnedIsSized(l);
    if keys != [] {
      var k := keys[0];
      NoDupTail(keys);
      DropOneKeepsOwned(l, k);
      DropAllEffect(DropOne(l, k), keys[1..]);
      var (m, freed, touched) := DropAll(l, keys);
      DroppedFirst(l.entries, DropOne(l, k).entries, m.entries, keys);
      hide Owned, Dropped, DropOne, NoDup;
    }
  }

  lemma DroppedFirst(entries: Entries, entries1: Entries, entries2: Entries, keys: seq<ChunkKey>)
    requires keys != [] && keys[0] !in keys[1..]
    requires Dropped(entries, entries1, [keys[0]]) && Dropped(entries1, entries2, keys[1..])
    ensures Dropped(entries, entries2, keys)
    ensures forall k :: k in keys[1..] && k in entries1 ==> entries1[k] == entries[k]
  {
  }

  /**
   * finish_read drops one hold per key; it frees exactly the temporary entries
   * whose last hold this was, and no lookup misses.
   */
  lemma FinishReadEffect(l: L1, keys: seq<ChunkKey>)
    requires L1Inv(l) && NoDup(keys) && Holdable(l.entries, keys)
    ensures Sized(l) && Finds(l, keys)
    ensures var m := FinishRead(l, keys);
            L1Inv(m) && Dropped(l.entries, m.entries, keys) && m.pool.total == l.pool.total
  {
    DropAllEffect(l, keys);
    var (m, freed, touched) := DropAll(l, keys);
    TouchRanks(l.order, touched);
    ForgetNoDup(Touch(l.order, touched), freed);
  }

  /**
   * Promoting held keys before their last holds are dropped makes all of them
   * resident: none is freed, each stays readable, and every other entry is as
   * it was.
   */
  lemma PromoteMakesResident(l: L1, keys: seq<ChunkKey>)
    requires L1Inv(l) && NoDup(keys) && Holdable(l.entries, keys)
    ensures L1Inv(Promote(l, keys)) && Sized(Promote(l, keys)) && Finds(Promote(l, keys), keys)
    ensures var m := FinishRead(Promote(l, keys), keys);
            && L1Inv(m) && m.entries.Keys == l.entries.Keys
            && (forall k :: k in keys ==>
                  m.entries[k] == Entry(l.entries[k].obj, false, l.entries[k].readCount - 1, false))
            && (forall k :: k in l.entries && k !in keys ==> m.entries[k] == l.entries[k])
  {
    PromoteKeepsInv(l, keys);
    FinishReadEffect(Promote(l, keys), keys);
  }

  lemma {:induction false} DeleteAllEffect(l: L1, keys: seq<ChunkKey>, force: bool)
    requires Owned(l.entries, l.pool)
    ensures Sized(l)
    ensures var (m, deleted) := DeleteAll(l, keys, force);
            && Owned(m.entries, m.pool) && m.order == l.order && m.pool.total == l.pool.total
            && (forall k :: k in m.entries <==> k in l.entries && !(k in keys && Deletable(l.entries, force, k)))
            && (forall k :: k in m.entries ==> m.entries[k] == l.entries[k])
            && (forall k :: k in deleted <==> k in keys && Deletable(l.entries, force, k))
    decreases keys
  {
    OwnedIsSized(l);
    if keys != [] {
      var k := keys[0];
      if Deletable(l.entries, force, k) {
        RemoveKeepsOwned(l, k);
        hide Owned;
        DeleteAllEffect(RemoveEntry(l, k), keys[1..], force);
      } else {
        hide Owned;
        DeleteAllEffect(l, keys[1..], force);
      }
    }
  }

  /** delete removes exactly the listed entries nobody uses (all listed ones when forced). */
  lemma DeleteEffect(l: L1, keys: seq<ChunkKey>, force: bool)
    requires L1Inv(l)
    ensures Sized(l)
    ensures var m := Delete(l, keys, force);
            && L1Inv(m) && m.pool.total == l.pool.total
            && (forall k :: k in m.entries <==>
                  k in l.entries && !(k in keys
                      && (force || (!l.entries[k].writeLocked && l.entries[k].readCount == 0))))
            && (forall k :: k in m.entries ==> m.entries[k] == l.entries[k])
  {
    DeleteAllEffect(l, keys, force);
    var (m, deleted) := DeleteAll(l, keys, force);
    ForgetNoDup(l.order, deleted);
  }

  // ---- recency ------------------------------------------------------------------------

  /** Publishing makes the batch the most recent, its first key most of all. */
  lemma PublishFreshens(l: L1, keys: seq<ChunkKey>)
    requires L1Inv(l) && NoDup(keys)
    ensures Freshened(l.order, FinishWrite(l, keys).order, keys)
    ensures Freshened(l.order, FinishWriteAndHold(l, keys).order, keys)
    ensures keys != [] ==>
              && FinishWrite(l, keys).order != [] && FinishWriteAndHold(l, keys).order != []
              && FinishWrite(l, keys).order[|FinishWrite(l, keys).order| - 1] == keys[0]
              && FinishWriteAndHold(l, keys).order[|FinishWriteAndHold(l, keys).order| - 1] == keys[0]
  {
    hide Owned, Locks, Touch, Freshened;
    TouchFreshens(l.order, keys);
  }

  lemma BeforeCons(k: ChunkKey, rest: seq<ChunkKey>, x: ChunkKey, y: ChunkKey)
    ensures Before([k] + rest, x, y) <==> (x == k && y in rest) || Before(rest, x, y)
  {
    assert ([k] + rest)[1..] == rest;
    BeforeTail([k] + rest, x, y);
  }

  /** The surviving keys of a read come out in the order they were given. */
  lemma {:induction false} TouchedInOrder(l: L1, keys: seq<ChunkKey>)
    requires Owned(l.entries, l.pool) && NoDup(keys) && forall k :: k in keys ==> k in l.entries
    ensures Sized(l) && Finds(l, keys)
    ensures var (m, freed, touched) := DropAll(l, keys);
            && NoDup(touched) && (forall k :: k in touched <==> k in keys && k in m.entries)
            && (forall k :: k in freed <==> k in keys && k !in m.entries)
            && m.order == l.order
            && forall x, y :: x in touched && y in touched ==> (Before(touched, x, y) <==> Before(keys, x, y))
    decreases keys
  {
    DropAllEffect(l, keys);
    if keys != [] {
      var k, rest := keys[0], keys[1..];
      NoDupTail(keys);
      DropOneKeepsOwned(l, k);
      TouchedInOrder(DropOne(l, k), rest);
      TouchedNext(l, keys);
    }
  }

  lemma TouchedNext(l: L1, keys: seq<ChunkKey>)
    requires keys != [] && NoDup(keys) && Sized(l) && Finds(l, keys)
    requires var (m, freed, touched) := DropAll(DropOne(l, keys[0]), keys[1..]);
             && NoDup(touched) && (forall k :: k in touched ==> k in keys[1..])
             && forall x, y :: x in touched && y in touched ==> (Before(touched, x, y) <==> Before(keys[1..], x, y))
    ensures var touched := DropAll(l, keys).2;
            && NoDup(touched)
            && forall x, y :: x in touched && y in touched ==> (Before(touched, x, y) <==> Before(keys, x, y))
  {
    var k, rest := keys[0], keys[1..];
    NoDupTail(keys);
    var before, touched := DropAll(DropOne(l, k), rest).2, DropAll(l, keys).2;
    hide Before, Finds, Sized, DropOne;
    forall x, y | x in touched && y in touched
      ensures Before(touched, x, y) <==> Before(keys, x, y)
    {
      BeforeTail(keys, x, y);
      BeforeCons(k, before, x, y);
      AbsentIsNotBefore(rest, x, y);
      AbsentIsNotBefore(before, x, y);
    }
  }

  lemma AbsentIsNotBefore(order: seq<ChunkKey>, x: ChunkKey, y: ChunkKey)
    requires NoDup(order)
    ensures Before(order, x, y) ==> x in order && y in order && x != y
  {
  }

  /** finish_read makes the keys it leaves in the pool the most recent; those it frees are gone from the order. */
  lemma FinishReadFreshens(l: L1, keys: seq<ChunkKey>)
    requires L1Inv(l) && NoDup(keys) && Holdable(l.entries, keys)
    ensures Sized(l) && Finds(l, keys)
    ensures var m := FinishRead(l, keys);
            && Freshened(l.order, m.order, keys)
            && (forall k :: k in m.order <==> k in l.order && (k in keys ==> k in m.entries))
            && (keys != [] && keys[0] in m.entries ==> m.order != [] && m.order[|m.order| - 1] == keys[0])
  {
    hide Before, Locks, Touch, Forget, DropAll, Finds, Sized, Freshened, Owned;
    TouchedInOrder(l, keys);
    var (m, freed, touched) := DropAll(l, keys);
    FreshenedThenForgotten(l.order, keys, touched, freed);
    TouchRanks(l.order, touched);
    FirstIsLast(l.order, FinishRead(l, keys).order, keys);
  }

  /** delete changes nothing about the order of what stays. */
  lemma DeleteKeepsOrder(l: L1, keys: seq<ChunkKey>, force: bool, x: ChunkKey, y: ChunkKey)
    requires L1Inv(l)
    ensures Sized(l)
    ensures var m := Delete(l, keys, force);
            x in m.order && y in m.order ==> (Before(m.order, x, y) <==> Before(l.order, x, y))
  {
    hide Before;
    DeleteAllEffect(l, keys, force);
    var (m, deleted) := DeleteAll(l, keys, force);
    if x !in deleted && y !in deleted {
      ForgetBefore(l.order, deleted, x, y);
    }
  }

  /**
   * Deeper chunks of a prefix chain stay older over every section of the
   * manager that works on a slice [a, b) of it, if and only if the slice and
   * what lies in front of it are not both resident afterwards.
   */
  lemma SectionsKeepDeepFirst(l: L1, chain: seq<ChunkKey>, a: nat, b: nat)
    requires L1Inv(l) && NoDup(chain) && a <= b <= |chain| && DeepFirst(l.order, chain)
    ensures DeepStays(FinishWrite(l, chain[a..b]).order, chain, a, b)
    ensures DeepStays(FinishWriteAndHold(l, chain[a..b]).order, chain, a, b)
    ensures Holdable(l.entries, chain[a..b]) ==>
              Sized(l) && Finds(l, chain[a..b]) && DeepStays(FinishRead(l, chain[a..b]).order, chain, a, b)
  {
    hide Owned, Locks, DeepFirst, Freshened, Holdable, Finds, Sized, FinishRead;
    BatchNoDup(chain, a, b);
    var batch := chain[a..b];
    PublishFreshens(l, batch);
    TouchRanks(l.order, batch);
    FreshenedKeepsDeepFirst(l.order, FinishWrite(l, batch).order, chain, a, b);
    FreshenedKeepsDeepFirst(l.order, FinishWriteAndHold(l, batch).order, chain, a, b);
    if Holdable(l.entries, batch) {
      FinishReadFreshens(l, batch);
      FreshenedKeepsDeepFirst(l.order, FinishRead(l, batch).order, chain, a, b);
    }
  }

  /** Deeper chunks are older exactly when not both a chunk of the slice and one in front of it are resident. */
  ghost predicate DeepStays(order: seq<ChunkKey>, chain: seq<ChunkKey>, a: nat, b: nat)
    requires a <= b <= |chain|
  {
    DeepFirst(order, chain) <==>
    !exists i, j :: 0 <= i < a <= j < b && chain[i] in order && chain[j] in order
  }
}
