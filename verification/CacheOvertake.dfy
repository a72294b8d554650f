// Why a RETRIEVE needs its locks: from any reachable state in which a chunk
// still to be sent is locked by nobody, the server can go on so that another
// chunk's bytes are sent for it.
module CacheOvertake {
  import opened Types
  import opened Memory
  import opened Eviction
  import opened LockProtocol
  import opened Cache
  import opened CacheInv
  import opened CacheSafety

  /** RETRIEVE id has still to send its i-th chunk, which is in the slice it noted and which nobody holds or writes. */
  ghost predicate Exposed(s: State, id: nat, i: nat) {
    && id in s.handlers && s.handlers[id].Reading?
    && var h := s.handlers[id];
       && |h.out| <= i < |h.keys| == |h.objs|
       && ObjAt(s, h.keys[i], h.objs[i]) && s.l1.entries[h.keys[i]].Unlocked()
  }

  // ---- something fresh ---------------------------------------------------------------

  lemma {:induction false} FreshRank(keys: set<ChunkKey>) returns (r: nat)
    ensures forall k :: k in keys ==> k.rank < r
    decreases keys
  {
    if keys == {} {
      r := 0;
    } else {
      var k :| k in keys;
      r := FreshRank(keys - {k});
      if r <= k.rank {
        r := k.rank + 1;
      }
    }
  }

  lemma {:induction false} FreshId(ids: set<nat>) returns (r: nat)
    ensures forall i: nat :: i in ids ==> i < r
    decreases ids
  {
    if ids == {} {
      r := 0;
    } else {
      var i: nat :| i in ids;
      var q := FreshId(ids - {i});
      r := if q <= i then i + 1 else q;
      forall j: nat | j in ids
        ensures j < r
      {
        assert j != i ==> j in ids - {i};
      }
    }
  }

  // ---- evicting and reserving the same slice -----------------------------------------------

  /** L1 after k was deleted. */
  ghost function WithoutKey(l: L1, k: ChunkKey): L1
    requires k in l.entries && l.entries[k].obj.size in l.pool.free
  {
    RemoveEntry(l, k).(order := Remove(l.order, k))
  }

  lemma DeletesOne(l: L1, k: ChunkKey)
    requires Sized(l) && k in l.entries && l.entries[k].Unlocked()
    ensures Delete(l, [k], false) == WithoutKey(l, k)
  {
    assert [k][1..] == [] && [k] + [] == [k];
    var m := RemoveEntry(l, k);
    assert DeleteAll(m, [], false) == (m, []);
    assert DeleteAll(l, [k], false) == (m, [k]);
    assert Forget(Remove(l.order, k), []) == Remove(l.order, k);
    assert Forget(l.order, [k]) == Remove(l.order, k);
  }

  /** The slice freed last is the one handed out next. */
  lemma FreedLastGoesFirst(p: Pool, obj: Slice)
    requires obj.size in p.free
    ensures var (q, objs) := AllocateFrom(Release(p, obj), 1, obj.size);
            objs == Some([obj]) && q == p.(free := p.free[obj.size := p.free[obj.size]])
  {
    var r := Release(p, obj);
    var f := p.free[obj.size] + [obj.off];
    assert r.free[obj.size := FreeOf(r, obj.size)] == r.free;
    assert f[..|f| - 1] == p.free[obj.size];
    assert r.free[obj.size := f[..|f| - 1]] == p.free[obj.size := p.free[obj.size]];
    assert [obj.off] + [] == [obj.off];
    assert SlicesAt([obj.off], obj.size) == [obj];
  }

  lemma ReservesSameSlice(l: L1, k: ChunkKey, k2: ChunkKey)
    requires k in l.entries && l.entries[k].obj.size in l.pool.free && k2 !in l.entries
    ensures var obj := l.entries[k].obj;
            var (m, got) := ReserveWrite(WithoutKey(l, k), [k2], obj.size, false);
            && got == map[k2 := Some(obj)]
            && m.entries == (l.entries - {k})[k2 := Entry(obj, true, 0, false)]
  {
    hide AllocateFrom, Release;
    var obj := l.entries[k].obj;
    var w := WithoutKey(l, k);
    FreedLastGoesFirst(l.pool, obj);
    assert [k2][1..] == [] && [obj][1..] == [];
    assert Missing(w.entries, []) == [];
    assert Missing(w.entries, [k2]) == [k2];
    var e := w.entries[k2 := Entry(obj, true, 0, false)];
    assert Install(e, [], [], false) == e;
    assert Install(w.entries, [k2], [obj], false) == e;
    assert NewObjs(w.entries, e, [k2]) == map[k2 := Some(obj)];
  }

  // ---- the steps ------------------------------------------------------------------------------

  lemma EvictsNow(s: State, k: ChunkKey)
    requires Inv(s) && s.victims == None && k in s.l1.entries && s.l1.entries[k].Unlocked()
    ensures s.l1.entries[k].obj.size in s.l1.pool.free
    ensures var p := s.(victims := Some([k]));
            && Leads(s, ByKeeper(EvictPick([k])), p)
            && Leads(p, ByKeeper(EvictDelete), s.(l1 := WithoutKey(s.l1, k)))
  {
    hide Inv, Delete, WithoutKey, Sized, DoStoreReserve;
    SizedNow(s, k);
    DeletesOne(s.l1, k);
    var p := s.(victims := Some([k]));
    assert DoEvictPick(s, [k]) == p;
    assert DoEvictDelete(p) == s.(l1 := WithoutKey(s.l1, k));
  }

  lemma SizedNow(s: State, k: ChunkKey)
    requires Inv(s) && k in s.l1.entries
    ensures Sized(s.l1) && s.l1.entries[k].obj.size in s.l1.pool.free
  {
    InvIsSized(s.l1);
  }

  lemma ReservesNow(s: State, k: ChunkKey, k2: ChunkKey, id2: nat, b: Blob)
    requires k in s.l1.entries && s.l1.entries[k].obj.size in s.l1.pool.free && k2 !in s.l1.entries
    requires id2 !in s.handlers && SizeOf(s, k2) == s.l1.entries[k].obj.size > 0
    ensures var obj := s.l1.entries[k].obj;
            var u := s.(l1 := WithoutKey(s.l1, k));
            var t := DoStoreReserve(u, id2, [k2], [b], obj.size);
            && Leads(u, ByStore(StoreReserve(id2, [k2], [b], obj.size)), t)
            && t.handlers == s.handlers[id2 := Storing([Item(k2, obj, b, false)], [])]
            && t.mem == s.mem && k2 in t.l1.entries && (k != k2 ==> k !in t.l1.entries) && Supplied(t, k2, b)
  {
    hide ReserveWrite, WithoutKey, AllocateFrom, Release;
    var obj := s.l1.entries[k].obj;
    var u := s.(l1 := WithoutKey(s.l1, k));
    ReservesSameSlice(s.l1, k, k2);
    var got := ReserveWrite(u.l1, [k2], obj.size, false).1;
    assert [k2][..1] == [k2] && [k2][..0] == [] && [k2][1..] == [];
    assert ItemsOf(got, [], [b]) == [];
    assert ItemsOf(got, [k2], [b]) == [Item(k2, obj, b, false)];
    assert TakenKeys(got, []) == [];
    var t := DoStoreReserve(u, id2, [k2], [b], obj.size);
    assert ([k2][0], [b][0]) in t.stored;
    assert OneGeometry(u, [k2], obj.size);
    assert k != k2 ==> k !in (s.l1.entries - {k})[k2 := Entry(obj, true, 0, false)];
  }

  lemma CopiesNow(t: State, id2: nat, k2: ChunkKey, obj: Slice, b: Blob)
    requires id2 in t.handlers && t.handlers[id2] == Storing([Item(k2, obj, b, false)], [])
    requires |b| == obj.size && obj.off + obj.size <= |t.mem|
    ensures CanStoreCopy(t, id2, 0, b)
    ensures var v := DoStoreCopy(t, id2, 0, b);
            && Leads(t, ByStore(StoreCopy(id2, 0, b)), v) && BytesAt(v, obj) == b
            && v.l1 == t.l1 && v.stored == t.stored
            && forall j :: j in t.handlers && j != id2 ==> j in v.handlers && v.handlers[j] == t.handlers[j]
  {
    WriteThenRead(t.mem, obj, b, obj);
  }

  // ---- sending the rest ---------------------------------------------------------------------------

  /** RETRIEVE id has got on from s to t, nothing else having happened. */
  ghost predicate SentOn(s: State, t: State, id: nat) {
    && id in s.handlers && s.handlers[id].Reading? && id in t.handlers && t.handlers[id].Reading?
    && t == s.(handlers := t.handlers) && t.handlers[id] == s.handlers[id].(out := t.handlers[id].out)
    && s.handlers[id].out <= t.handlers[id].out
    && forall j :: |s.handlers[id].out| <= j < |t.handlers[id].out| && j < |s.handlers[id].objs| ==>
         t.handlers[id].out[j] == BytesAt(s, s.handlers[id].objs[j])
  }

  /** It sends chunk after chunk, up to the i-th. */
  lemma {:induction false} SendsUpTo(states: seq<State>, steps: seq<Step>, id: nat, i: nat)
    returns (states': seq<State>, steps': seq<Step>)
    requires |states| == |steps| + 1 && Run(states, steps) && id in states[|steps|].handlers
    requires states[|steps|].handlers[id].Reading?
               && |states[|steps|].handlers[id].out| <= i + 1 <= |states[|steps|].handlers[id].objs|
    ensures |states'| == |steps'| + 1 && Run(states', steps') && states <= states' && steps <= steps'
    ensures SentOn(states[|steps|], states'[|steps'|], id) && |states'[|steps'|].handlers[id].out| == i + 1
    decreases i + 1 - |states[|steps|].handlers[id].out|
  {
    hide Run, Enabled, Apply, BytesAt;
    var s := states[|steps|];
    if |s.handlers[id].out| == i + 1 {
      states', steps' := states, steps;
    } else {
      SendsOne(s, id);
      var t := DoRetrieveCopy(s, id);
      var ts, ps := Extend(states, steps, ByCall(RetrieveCopy(id)), t);
      states', steps' := SendsUpTo(ts, ps, id, i);
      SentOnFurther(s, t, states'[|steps'|], id);
    }
  }

  lemma SendsOne(s: State, id: nat)
    requires CanRetrieveCopy(s, id)
    ensures Leads(s, ByCall(RetrieveCopy(id)), DoRetrieveCopy(s, id)) && SentOn(s, DoRetrieveCopy(s, id), id)
    ensures var h := DoRetrieveCopy(s, id).handlers[id];
            |h.out| == |s.handlers[id].out| + 1 && h.objs == s.handlers[id].objs
  {
    hide BytesAt;
  }

  lemma SentOnFurther(s: State, t: State, u: State, id: nat)
    requires SentOn(s, t, id) && SentOn(t, u, id)
    ensures SentOn(s, u, id)
  {
    assert forall o :: BytesAt(t, o) == BytesAt(s, o);
  }

  // ---- what can go wrong does --------------------------------------------------------------------------

  /** The i-th chunk of RETRIEVE id has been sent as the blob b of another key; its own is gone. */
  ghost predicate SentAnothers(s: State, id: nat, i: nat, k2: ChunkKey, b: Blob) {
    && id in s.handlers && s.handlers[id].Reading? && i < |s.handlers[id].out| && i < |s.handlers[id].keys|
    && s.handlers[id].out[i] == b && Supplied(s, k2, b)
    && s.handlers[id].keys[i] != k2 && s.handlers[id].keys[i] !in s.l1.entries
  }

  lemma ExposedIs(s: State, id: nat, i: nat)
    requires Inv(s) && Exposed(s, id, i)
    ensures var k := s.handlers[id].keys[i];
            var obj := s.handlers[id].objs[i];
            && k in s.l1.entries && s.l1.entries[k].obj == obj && s.l1.entries[k].Unlocked()
            && 0 < obj.size == SizeOf(s, k) && obj.off + obj.size <= |s.mem| && |BytesAt(s, obj)| == obj.size
  {
    hide Books, TempsOk, ContentOk, RecordsOk, CoverOk, HandlersOk, JobOk, QueueOk, SessionsOk, MirrorOk;
    var k := s.handlers[id].keys[i];
    OwnedApart(s.l1.entries, s.l1.pool, k, k);
    assert s.l1.entries[k].obj in SlicesOf(s.l1.entries);
  }

  /** Another blob of the same length. */
  lemma OtherBlob(b: Blob) returns (c: Blob)
    requires |b| > 0
    ensures |c| == |b| && c != b
  {
    var x: Byte := if b[0] == 0 then 1 else 0;
    c := b[0 := x];
    assert c[0] != b[0];
  }

  /** The evictor takes the chunk, and a STORE of another key of the same size gets its slice and fills it. */
  lemma Overwritten(states: seq<State>, steps: seq<Step>, id: nat, i: nat)
    returns (states': seq<State>, steps': seq<Step>, k2: ChunkKey, b: Blob)
    requires |states| == |steps| + 1 && Run(states, steps)
    requires Exposed(states[|steps|], id, i) && states[|steps|].victims == None
    ensures |states'| == |steps'| + 1 && Run(states', steps') && states <= states' && steps <= steps'
    ensures var s := states[|steps|];
            var u := states'[|steps'|];
            var h := s.handlers[id];
            && id in u.handlers && u.handlers[id] == h && BytesAt(u, h.objs[i]) == b != BytesAt(s, h.objs[i])
            && h.keys[i] != k2 && h.keys[i] !in u.l1.entries && Supplied(u, k2, b)
  {
    hide Run, Inv, Enabled, Apply, Exposed, BytesAt, WithoutKey, Leads, DoStoreReserve, DoStoreCopy, CanStoreCopy;
    var s := states[|steps|];
    RunKeepsInvAt(states, steps);
    ExposedIs(s, id, i);
    ExposedReads(s, id, i);
    var k, obj := s.handlers[id].keys[i], s.handlers[id].objs[i];
    EvictsNow(s, k);
    states', steps' := Extend(states, steps, ByKeeper(EvictPick([k])), s.(victims := Some([k])));
    states', steps' := Extend(states', steps', ByKeeper(EvictDelete), s.(l1 := WithoutKey(s.l1, k)));
    var rank := FreshRank(s.l1.entries.Keys);
    k2 := ChunkKey(k.chunkHash, k.model, rank);
    assert k2 !in s.l1.entries.Keys;
    var id2 := FreshId(s.handlers.Keys);
    assert id2 !in s.handlers.Keys;
    b := OtherBlob(BytesAt(s, obj));
    ReservesNow(s, k, k2, id2, b);
    var t := DoStoreReserve(s.(l1 := WithoutKey(s.l1, k)), id2, [k2], [b], obj.size);
    states', steps' := Extend(states', steps', ByStore(StoreReserve(id2, [k2], [b], obj.size)), t);
    CopiesNow(t, id2, k2, obj, b);
    states', steps' := Extend(states', steps', ByStore(StoreCopy(id2, 0, b)), DoStoreCopy(t, id2, 0, b));
  }

  lemma RunKeepsInvAt(states: seq<State>, steps: seq<Step>)
    requires |states| == |steps| + 1 && Run(states, steps)
    ensures Inv(states[|steps|])
  {
    RunKeepsInv(states, steps, |steps|);
  }

  lemma ExposedReads(s: State, id: nat, i: nat)
    requires Exposed(s, id, i)
    ensures id in s.handlers && s.handlers[id].Reading?
    ensures |s.handlers[id].out| <= i < |s.handlers[id].keys| == |s.handlers[id].objs|
  {
  }

  /**
   * The other half of what RETRIEVE promises: as soon as a chunk still to be
   * sent is locked by nobody (and the evictor is between two rounds), some
   * continuation of the run sends other bytes for it than its entry showed,
   * bytes that a STORE supplied under another key.
   */
  lemma UnlockedCanGoWrong(states: seq<State>, steps: seq<Step>, id: nat, i: nat)
    returns (states': seq<State>, steps': seq<Step>, k2: ChunkKey, b: Blob)
    requires |states| == |steps| + 1 && Run(states, steps)
    requires Exposed(states[|steps|], id, i) && states[|steps|].victims == None
    ensures |states'| == |steps'| + 1 && Run(states', steps') && states <= states' && steps <= steps'
    ensures SentAnothers(states'[|steps'|], id, i, k2, b)
    ensures b != BytesAt(states[|steps|], states[|steps|].handlers[id].objs[i])
  {
    hide Run, Inv, Enabled, Apply, Exposed, BytesAt;
    var s := states[|steps|];
    ExposedReads(s, id, i);
    states', steps', k2, b := Overwritten(states, steps, id, i);
    var u := states'[|steps'|];
    states', steps' := SendsUpTo(states', steps', id, i);
    assert states'[|steps'|].handlers[id].out[i] == BytesAt(u, u.handlers[id].objs[i]);
  }
}
