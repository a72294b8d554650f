// Exactly when one reserve_write keeps the pool's books: a key listed twice
// gets two slices, and the first of them is lost for good.
module Duplicates {
  import opened Types
  import opened Memory
  import opened LockProtocol

  lemma {:induction false} ElemsFewer<T>(s: seq<T>)
    ensures |Elems(s)| <= |s|
    ensures !NoDup(s) ==> |Elems(s)| < |s|
  {
    if s == [] {
      assert Elems(s) == {};
    } else {
      var init, x := s[..|s| - 1], s[|s| - 1];
      ElemsFewer(init);
      assert s == init + [x];
      assert Elems(s) == Elems(init) + {x};
      if x in init {
        assert Elems(s) == Elems(init);
      } else if !NoDup(s) {
        assert !NoDup(init);
      }
    }
  }

  lemma {:induction false} InstallTakes(entries: Entries, keys: seq<ChunkKey>, objs: seq<Slice>, temporary: bool)
    requires |keys| == |objs|
    ensures var r := Install(entries, keys, objs, temporary);
            && r.Keys == entries.Keys + Elems(keys)
            && (forall k :: k in entries && k !in keys ==> r[k] == entries[k])
            && (forall k :: k in keys ==> r[k].obj in objs)
    decreases keys
  {
    if keys != [] {
      var next := entries[keys[0] := Entry(objs[0], true, 0, temporary)];
      InstallTakes(next, keys[1..], objs[1..], temporary);
      assert Elems(keys) == {keys[0]} + Elems(keys[1..]);
      var r := Install(entries, keys, objs, temporary);
      forall k | k in keys
        ensures r[k].obj in objs
      {
        assert k in keys[1..] || k == keys[0];
        assert forall o :: o in objs[1..] ==> o in objs;
      }
    } else {
      assert Elems(keys) == {};
    }
  }

  ghost function ObjsAt(entries: Entries, ks: set<ChunkKey>): set<Slice>
    requires ks <= entries.Keys
  {
    set k | k in ks :: entries[k].obj
  }

  lemma {:induction false} ObjsFewer(entries: Entries, ks: set<ChunkKey>)
    requires ks <= entries.Keys
    ensures |ObjsAt(entries, ks)| <= |ks|
    decreases ks
  {
    if ks == {} {
      assert ObjsAt(entries, ks) == {};
    } else {
      var k :| k in ks;
      ObjsFewer(entries, ks - {k});
      assert ObjsAt(entries, ks) == ObjsAt(entries, ks - {k}) + {entries[k].obj};
    }
  }

  lemma {:induction false} EqualBytes(ss: set<Slice>, n: nat)
    requires forall s :: s in ss ==> s.size == n
    ensures Bytes(ss) == |ss| * n
    decreases ss
  {
    if ss == {} {
      assert |ss| * n == 0;
    } else {
      var s :| s in ss;
      BytesRemove(ss, s);
      EqualBytes(ss - {s}, n);
      assert |ss| == |ss - {s}| + 1;
      assert |ss| * n == |ss - {s}| * n + n;
    }
  }

  /** The slices that reserve_write adds to the entries take up at most one slice per distinct key. */
  lemma NewBytes(entries: Entries, entries': Entries, missing: seq<ChunkKey>, n: nat)
    requires (forall k :: k in missing ==> k !in entries) && entries'.Keys == entries.Keys + Elems(missing)
    requires forall k :: k in entries ==> entries'[k] == entries[k]
    requires forall k :: k in missing ==> entries'[k].obj.size == n
    ensures Bytes(SlicesOf(entries')) <= Bytes(SlicesOf(entries)) + |Elems(missing)| * n
  {
    var old', new' := SlicesOf(entries), ObjsAt(entries', Elems(missing));
    assert SlicesOf(entries') == old' + (new' - old') by {
      forall s | s in old'
        ensures s in SlicesOf(entries')
      {
        var k :| k in entries && entries[k].obj == s;
        assert entries'[k].obj == s;
      }
    }
    BytesUnion(old', new' - old');
    EqualBytes(new' - old', n);
    ObjsFewer(entries', Elems(missing));
    FewerBytes(|new' - old'|, |Elems(missing)|, n) by {
      Smaller(new' - old', new');
    }
  }

  lemma Smaller(a: set<Slice>, b: set<Slice>)
    requires a <= b
    ensures |a| <= |b|
  {
    assert b == a + (b - a);
  }

  lemma FewerBytes(a: nat, b: nat, n: nat)
    requires a <= b
    ensures a * n <= b * n
  {
  }

  /** A granted reservation with a repeated key leaves the pool counting bytes that no entry owns. */
  lemma DuplicateLeaks(l: L1, keys: seq<ChunkKey>, n: nat, temporary: bool)
    requires L1Inv(l) && n > 0 && !NoDup(Missing(l.entries, keys)) && |Missing(l.entries, keys)| <= Capacity(l.pool, n)
    ensures var m := ReserveWrite(l, keys, n, temporary).0;
            m.pool.used > Bytes(SlicesOf(m.entries)) && !L1Inv(m)
  {
    hide Capacity, Tiling, Locks, Ranked, Install;
    var missing := Missing(l.entries, keys);
    var (pool, objs) := AllocateFrom(l.pool, |missing|, n);
    AllocateBound(l.pool, |missing|, n);
    AllocateKeepsPool(l.pool, SlicesOf(l.entries), |missing|, n);
    hide AllocateFrom, Bytes, NoDup;
    var m := ReserveWrite(l, keys, n, temporary).0;
    InstallTakes(l.entries, missing, objs.value, temporary);
    NewBytes(l.entries, m.entries, missing, n);
    ElemsFewer(missing);
    MoreBytes(|Elems(missing)|, |missing|, n);
  }

  lemma MoreBytes(a: nat, b: nat, n: nat)
    requires a < b && n > 0
    ensures a * n < b * n
  {
  }

  /**
   * reserve_write keeps entries and live slices in step exactly when the
   * missing keys it is given are distinct, or the pool refuses the request.
   */
  lemma ReserveWriteSafeIff(l: L1, keys: seq<ChunkKey>, n: nat, temporary: bool)
    requires L1Inv(l) && n > 0
    ensures L1Inv(ReserveWrite(l, keys, n, temporary).0)
            <==> NoDup(Missing(l.entries, keys)) || |Missing(l.entries, keys)| > Capacity(l.pool, n)
  {
    var missing := Missing(l.entries, keys);
    var (pool, objs) := AllocateFrom(l.pool, |missing|, n);
    AllocateBound(l.pool, |missing|, n);
    AllocateKeepsPool(l.pool, SlicesOf(l.entries), |missing|, n);
    hide AllocateFrom, Capacity, PoolInv, Install, Locks, Ranked, NoDup;
    if objs.Some? {
      if NoDup(missing) {
        InstallKeepsInv(l, missing, pool, objs.value, n, temporary);
      } else {
        DuplicateLeaks(l, keys, n, temporary);
      }
    }
  }
}
