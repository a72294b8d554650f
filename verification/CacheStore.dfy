// The STORE handler's steps keep the invariant.
module CacheStore {
  import opened Types
  import opened Memory
  import opened LockProtocol
  import opened Cache
  import opened CacheInv
  import opened CacheBooks

  /** An item of a message: a reserved key with its slice, and the blob sent for it. */
  ghost predicate ItemFrom(got: map<ChunkKey, Option<Slice>>, keys: seq<ChunkKey>, chunks: seq<Blob>, it: Item)
    requires |keys| <= |chunks|
  {
    && !it.done && it.key in got && got[it.key] == Some(it.obj)
    && exists i :: 0 <= i < |keys| && it.key == keys[i] && it.blob == chunks[i]
  }

  lemma ItemFromGrows(got: map<ChunkKey, Option<Slice>>, keys: seq<ChunkKey>, chunks: seq<Blob>, n: nat, it: Item)
    requires n <= |keys| <= |chunks| && ItemFrom(got, keys[..n], chunks, it)
    ensures ItemFrom(got, keys, chunks, it)
  {
    var i :| 0 <= i < n && it.key == keys[..n][i] && it.blob == chunks[i];
    assert it.key == keys[i];
  }

  /** The reserved keys split into those the message has bytes for and the others. */
  lemma {:induction false} ItemsOfEffect(got: map<ChunkKey, Option<Slice>>, keys: seq<ChunkKey>, chunks: seq<Blob>)
    requires |keys| <= |chunks| && NoDup(keys)
    ensures var items := ItemsOf(got, keys, chunks);
            && NoDup(ItemKeys(items))
            && (forall k :: k in ItemKeys(items) <==> k in keys && k in got && got[k].Some?)
            && (forall it :: it in items ==> ItemFrom(got, keys, chunks, it))
    decreases |keys|
  {
    if keys != [] {
      var n := |keys| - 1;
      ItemsOfEffect(got, keys[..n], chunks);
      ItemsOfLast(got, keys, chunks);
    }
  }

  lemma ItemsOfLast(got: map<ChunkKey, Option<Slice>>, keys: seq<ChunkKey>, chunks: seq<Blob>)
    requires 0 < |keys| <= |chunks| && NoDup(keys)
    requires var before := ItemsOf(got, keys[..|keys| - 1], chunks);
             && NoDup(ItemKeys(before))
             && (forall k :: k in ItemKeys(before) <==> k in keys[..|keys| - 1] && k in got && got[k].Some?)
             && (forall it :: it in before ==> ItemFrom(got, keys[..|keys| - 1], chunks, it))
    ensures var items := ItemsOf(got, keys, chunks);
            && NoDup(ItemKeys(items))
            && (forall k :: k in ItemKeys(items) <==> k in keys && k in got && got[k].Some?)
            && (forall it :: it in items ==> ItemFrom(got, keys, chunks, it))
  {
    hide ItemFrom, ItemKeys, NoDup, ItemsOf;
    var n := |keys| - 1;
    var before, items := ItemsOf(got, keys[..n], chunks), ItemsOf(got, keys, chunks);
    forall it | it in before
      ensures ItemFrom(got, keys, chunks, it)
    {
      ItemFromGrows(got, keys, chunks, n, it);
    }
    LastIsNew(keys);
    ItemsOfSplit(got, keys, chunks);
    if keys[n] in got && got[keys[n]].Some? {
      var it := Item(keys[n], got[keys[n]].value, chunks[n], false);
      LastItem(got, keys, chunks, it);
      OneMoreKey(before, it);
    }
  }

  lemma ItemsOfSplit(got: map<ChunkKey, Option<Slice>>, keys: seq<ChunkKey>, chunks: seq<Blob>)
    requires 0 < |keys| <= |chunks|
    ensures var n := |keys| - 1;
            ItemsOf(got, keys, chunks) ==
              if keys[n] in got && got[keys[n]].Some? then
                  ItemsOf(got, keys[..n], chunks) + [Item(keys[n], got[keys[n]].value, chunks[n], false)]
              else ItemsOf(got, keys[..n], chunks)
  {
    assert ItemsOf(got, keys[..|keys| - 1], chunks) + [] == ItemsOf(got, keys[..|keys| - 1], chunks);
  }

  lemma LastIsNew(keys: seq<ChunkKey>)
    requires keys != [] && NoDup(keys)
    ensures keys[|keys| - 1] !in keys[..|keys| - 1]
    ensures forall k :: k in keys <==> k in keys[..|keys| - 1] || k == keys[|keys| - 1]
  {
    assert keys == keys[..|keys| - 1] + [keys[|keys| - 1]];
  }

  lemma OneMoreKey(before: seq<Item>, it: Item)
    requires NoDup(ItemKeys(before)) && it.key !in ItemKeys(before)
    ensures NoDup(ItemKeys(before + [it]))
    ensures forall k :: k in ItemKeys(before + [it]) <==> k in ItemKeys(before) || k == it.key
  {
    assert ItemKeys(before + [it]) == ItemKeys(before) + [it.key];
    NoDupConcat(ItemKeys(before), [it.key]);
  }

  lemma LastItem(got: map<ChunkKey, Option<Slice>>, keys: seq<ChunkKey>, chunks: seq<Blob>, it: Item)
    requires 0 < |keys| <= |chunks| && keys[|keys| - 1] in got && got[keys[|keys| - 1]] == Some(it.obj)
    requires it.key == keys[|keys| - 1] && it.blob == chunks[|keys| - 1] && !it.done
    ensures ItemFrom(got, keys, chunks, it)
  {
  }

  lemma SplitMember(keys: seq<ChunkKey>, n: nat, k: ChunkKey)
    requires n <= |keys|
    ensures k in keys <==> k in keys[..n] || k in keys[n..]
  {
    assert keys == keys[..n] + keys[n..];
  }

  lemma SplitApart(keys: seq<ChunkKey>, n: nat)
    requires NoDup(keys) && n <= |keys|
    ensures NoDup(keys[..n]) && forall k :: k in keys[n..] ==> k !in keys[..n]
  {
  }

  /** What the new handler owns is exactly what reserve_write took. */
  lemma StoreReserveClaims(s: State, t: State, id: nat, got: map<ChunkKey, Option<Slice>>, keys: seq<ChunkKey>,
                           chunks: seq<Blob>)
    requires id !in s.handlers && NoDup(keys) && t.ses == s.ses && t.job == s.job && t.mirror == s.mirror
    requires var sent := Sent(keys, chunks);
             t.handlers == s.handlers[id := Storing(ItemsOf(got, keys[..sent], chunks), TakenKeys(got, keys[sent..]))]
    ensures forall k :: k in Claim(t, Writes, Call(id)) <==> k in keys && k in got && got[k].Some?
    ensures Claim(t, Reads, Call(id)) == [] && Claim(s, Writes, Call(id)) == [] && Claim(s, Reads, Call(id)) == []
    ensures OthersKeepClaims(s, t, Call(id), Call(id))
  {
    var sent := Sent(keys, chunks);
    ItemsOfEffect(got, keys[..sent], chunks);
    hide ItemsOf, TakenKeys;
    forall k
      ensures k in Claim(t, Writes, Call(id)) <==> k in keys && k in got && got[k].Some?
    {
      SplitMember(keys, sent, k);
    }
  }

  lemma StoreReserveHandler(t: State, got: map<ChunkKey, Option<Slice>>, keys: seq<ChunkKey>, chunks: seq<Blob>,
                            extra: seq<ChunkKey>)
    requires |keys| <= |chunks| && NoDup(keys)
    requires forall k :: k in keys && k in got && got[k].Some? ==> ObjAt(t, k, got[k].value)
    requires forall i :: 0 <= i < |keys| ==> Supplied(t, keys[i], chunks[i])
    requires forall k :: k in extra ==> k !in keys
    ensures HandlerOk(t, Storing(ItemsOf(got, keys, chunks), extra))
  {
    ItemsOfEffect(got, keys, chunks);
    var items := ItemsOf(got, keys, chunks);
    hide ItemsOf, ItemKeys;
    forall it | it in items
      ensures ItemOk(t, it)
    {
      var i :| 0 <= i < |keys| && it.key == keys[i] && it.blob == chunks[i];
      assert Supplied(t, keys[i], chunks[i]);
    }
  }

  /** STORE's reservation: all missing keys become write-locked for this handler alone, or none do. */
  lemma StoreReserveKeeps(s: State, id: nat, keys: seq<ChunkKey>, chunks: seq<Blob>, n: nat)
    requires Inv(s) && CanStoreReserve(s, id, keys, chunks, n)
    ensures Kept(s, DoStoreReserve(s, id, keys, chunks, n))
  {
    hide ContentOk, CoverOk, QueueOk, SessionsOk, MirrorOk, JobOk, KeyCovered, TempsOk, Books, RecordsOk;
    var t := DoStoreReserve(s, id, keys, chunks, n);
    var (m, got) := ReserveWrite(s.l1, keys, n, false);
    var sent := Sent(keys, chunks);
    ReserveWriteReserves(s.l1, keys, n, false);
    hide ReserveWrite, L1Inv, HandlerOk, ItemsOf, TakenKeys, Books, TempsOk, ContentOk, RecordsOk, CoverOk;
    StoreReserveClaims(s, t, id, got, keys, chunks);
    ReserveKeepsBooks(s, t, Call(id), keys, got, n, false);
    forall i | 0 <= i < sent
      ensures Supplied(t, keys[i], chunks[i])
    {
      assert (keys[i], chunks[i]) in t.stored;
    }
    SplitApart(keys, sent);
    StoreReserveHandler(t, got, keys[..sent], chunks, TakenKeys(got, keys[sent..]));
    StoreReserveRest(s, t, id);
  }

  /** Write-locked additions by handler id leave everything readable as it was. */
  lemma StoreReserveRest(s: State, t: State, id: nat)
    requires Inv(s) && id !in s.handlers && Quiet(s, t, None) && CoreOk(t)
    requires t == s.(l1 := t.l1, handlers := t.handlers, stored := t.stored)
    requires t.handlers.Keys == s.handlers.Keys + {id} && forall j :: j in s.handlers ==> t.handlers[j] == s.handlers[j]
    requires OthersKeepClaims(s, t, Call(id), Call(id)) && HandlerOk(t, t.handlers[id])
    requires forall k :: k in s.l1.entries ==> k in t.l1.entries && t.l1.entries[k] == s.l1.entries[k]
    requires forall k :: k in t.l1.entries && k !in s.l1.entries ==>
               t.l1.entries[k].writeLocked && !t.l1.entries[k].isTemporary
    requires forall k :: k in Claim(t, Writes, Call(id)) ==> k !in s.l1.entries
    ensures Kept(s, t)
  {
    hide CoreOk, Claim, OthersKeepClaims, HandlerOk, KeyCovered, ContentOk, CoverOk, RecordsOk, JobOk, QueueOk,
         SessionsOk, MirrorOk;
    CoreLocksOf(s);
    TempsCarry(s, t, Call(id), Call(id));
    PendingOk(s);
    Bystanders(s, t, None, id);
    ContentCarries(s, t, None, Call(id), {});
    DueSame(s, t);
    CoverCarries(s, t, None, {});
    RecordsCarry(s, t);
    KeptBy(s, t, None, Call(id));
  }

  // ---- copying ---------------------------------------------------------------------

  lemma ItemKeysSame(items: seq<Item>, j: nat, done: bool)
    requires j < |items|
    ensures ItemKeys(items[j := items[j].(done := done)]) == ItemKeys(items)
  {
  }

  lemma CopiedHandler(s: State, t: State, h: Handler, j: nat, data: Blob)
    requires h.Storing? && HandlerOk(s, h) && j < |h.items|
    requires Carries(s, t, Some(h.items[j].key)) && t.l1 == s.l1 && t.stored == s.stored
    requires BytesAt(t, h.items[j].obj) == data
    ensures HandlerOk(t, h.(items := h.items[j := h.items[j].(done := data == h.items[j].blob)]))
  {
    var it := h.items[j];
    var items := h.items[j := it.(done := data == it.blob)];
    ItemKeysSame(h.items, j, data == it.blob);
    assert ItemOk(s, it);
    forall i | 0 <= i < |items|
      ensures ItemOk(t, items[i])
    {
      if i != j {
        assert items[i] == h.items[i] && ItemOk(s, h.items[i]);
        assert ItemKeys(h.items)[i] != ItemKeys(h.items)[j];
      }
    }
  }

  lemma StoreCopyClaims(s: State, id: nat, j: nat, data: Blob)
    requires CanStoreCopy(s, id, j, data)
    ensures var t := DoStoreCopy(s, id, j, data);
            && (forall role, o :: Claim(t, role, o) == Claim(s, role, o))
            && s.handlers[id].items[j].key in Claim(s, Writes, Call(id))
  {
    var h := s.handlers[id];
    ItemKeysSame(h.items, j, data == h.items[j].blob);
    ItemKeyAt(h.items, h.extra, h.items[j]);
  }

  /** Copying bytes, half done or complete, disturbs only the write-locked slice it goes to. */
  lemma StoreCopyKeeps(s: State, id: nat, j: nat, data: Blob)
    requires Inv(s) && CanStoreCopy(s, id, j, data)
    ensures Kept(s, DoStoreCopy(s, id, j, data))
  {
    var t := DoStoreCopy(s, id, j, data);
    var h := s.handlers[id];
    var it := h.items[j];
    assert HandlerOk(s, h) && ItemOk(s, it);
    StoreCopyClaims(s, id, j, data);
    hide Claim, Books, TempsOk, ContentOk, CoverOk, RecordsOk, JobOk, QueueOk, SessionsOk, MirrorOk, L1Inv;
    WriteCarries(s, t, it.key, data);
    BooksSame(s, t);
    CopiedHandler(s, t, h, j, data);
    HandlerStepKeeps(s, t, Some(it.key), id);
  }

  /** A step of handler id over unchanged entries and claims, writing at most w. */
  lemma HandlerStepKeeps(s: State, t: State, w: Option<ChunkKey>, id: nat)
    requires Inv(s) && CoreOk(t) && Books(t) && Carries(s, t, w) && WrittenBy(s, w, Call(id))
    requires t.l1 == s.l1 && t == s.(mem := t.mem, handlers := t.handlers)
    requires forall role, o :: Claim(t, role, o) == Claim(s, role, o)
    requires forall j :: j in t.handlers && j != id ==> j in s.handlers && t.handlers[j] == s.handlers[j]
    requires id in t.handlers ==> HandlerOk(t, t.handlers[id])
    ensures Kept(s, t)
  {
    hide CoreOk, Claim, HandlerOk, KeyCovered, ContentOk, CoverOk, RecordsOk, JobOk, QueueOk, SessionsOk, Books,
         Carries;
    CoreLocksOf(s);
    CoreLocksOf(t);
    TempsCarry(s, t, Call(id), Call(id));
    PendingOk(s);
    Bystanders(s, t, w, id);
    ContentCarries(s, t, w, Call(id), {});
    DueSame(s, t);
    CoverCarries(s, t, w, {});
    RecordsCarry(s, t);
    KeptBy(s, t, w, Call(id));
  }

  /** A STORE that raises keeps its write locks for ever. */
  lemma StoreRaiseKeeps(s: State, id: nat, j: nat)
    requires Inv(s) && CanStoreRaise(s, id, j)
    ensures Kept(s, DoStoreRaise(s, id))
  {
    hide ContentOk, CoverOk, QueueOk, SessionsOk, MirrorOk, JobOk, KeyCovered, TempsOk, Books, RecordsOk;
    var t := DoStoreRaise(s, id);
    assert forall role, o :: Claim(t, role, o) == Claim(s, role, o);
    BooksSame(s, t);
    assert forall k :: SizeOf(t, k) == SizeOf(s, k);
    hide Books, Claim, L1Inv;
    HandlerStepKeeps(s, t, None, id);
  }

  // ---- finishing -----------------------------------------------------------------------

  lemma WrittenAreLocked(s: State, id: nat)
    requires CoreOk(s) && Books(s) && TempsOk(s) && IsStoring(s, id)
    ensures forall k :: k in ItemKeys(s.handlers[id].items) ==>
              k in s.l1.entries && s.l1.entries[k].writeLocked && !s.l1.entries[k].isTemporary
                  && s.l1.entries[k].readCount == 0
  {
    var h := s.handlers[id];
    forall k | k in ItemKeys(h.items)
      ensures k in s.l1.entries && s.l1.entries[k].writeLocked && !s.l1.entries[k].isTemporary
                && s.l1.entries[k].readCount == 0
    {
      assert k in Claim(s, Writes, Call(id));
      WriterLocks(s, Call(id), k);
    }
  }

  lemma StoreFinishClaims(s: State, id: nat)
    requires IsStoring(s, id)
    ensures var t := DoStoreFinish(s, id);
            var h := s.handlers[id];
            && OthersKeepClaims(s, t, Call(id), Call(id))
            && Claim(t, Writes, Call(id)) == h.extra && Claim(s, Writes, Call(id)) == ItemKeys(h.items) + h.extra
            && Claim(t, Reads, Call(id)) == [] && Claim(s, Reads, Call(id)) == []
  {
  }

  /** finish_write publishes complete, supplied bytes and queues them for write-back. */
  lemma StoreFinishKeeps(s: State, id: nat)
    requires Inv(s) && CanStoreFinish(s, id)
    ensures Kept(s, DoStoreFinish(s, id))
  {
    var t := DoStoreFinish(s, id);
    var h := s.handlers[id];
    var written := ItemKeys(h.items);
    assert HandlerOk(s, h);
    WrittenAreLocked(s, id);
    FinishWriteKeepsInv(s.l1, written);
    StoreFinishClaims(s, id);
    hide L1Inv, Claim, OthersKeepClaims, JobOk, QueueOk, SessionsOk, TempsOk, Books, ContentOk, CoverOk,
         RecordsOk, HandlersOk, Unlock;
    UnlockBooks(s, t, Call(id), written, h.extra);
    StoreFinishRest(s, t, id);
  }

  lemma StoreFinishRest(s: State, t: State, id: nat)
    requires Inv(s) && CanStoreFinish(s, id) && t == DoStoreFinish(s, id)
    requires CoreOk(t) && Books(t) && Quiet(s, t, None) && OthersKeepClaims(s, t, Call(id), Call(id))
    requires Claim(t, Writes, Call(id)) == s.handlers[id].extra
               && Claim(s, Writes, Call(id)) == ItemKeys(s.handlers[id].items) + s.handlers[id].extra
    ensures Kept(s, t)
  {
    hide CoreOk, Claim, OthersKeepClaims, KeyCovered, ContentOk, CoverOk, RecordsOk, JobOk, QueueOk, SessionsOk,
         Books, Quiet, ItemOk;
    var h := s.handlers[id];
    var written := ItemKeys(h.items);
    assert HandlerOk(s, h);
    CoreLocksOf(s);
    FinishedContent(s, t, id);
    FinishedCover(s, t, written);
    TempsCarry(s, t, Call(id), Call(id));
    PendingOk(s);
    Bystanders(s, t, None, id);
    ContentCarries(s, t, None, Call(id), Elems(written));
    forall i: nat, k | i < |s.l2| && Due(s, i, k)
      ensures Due(t, i, k)
    {
      DueGrows(s, t, i, k);
    }
    QuietMeans(s, t, None);
    CoverCarries(s, t, None, Elems(written));
    RecordsCarry(s, t);
    KeptBy(s, t, None, Call(id));
  }

  lemma FinishedContent(s: State, t: State, id: nat)
    requires CanStoreFinish(s, id) && HandlerOk(s, s.handlers[id]) && t == DoStoreFinish(s, id)
    ensures forall k :: k in ItemKeys(s.handlers[id].items) && CanRead(t.l1.entries, k) ==>
              Supplied(t, k, BytesAt(t, t.l1.entries[k].obj))
  {
    var items := s.handlers[id].items;
    forall k | k in ItemKeys(items) && CanRead(t.l1.entries, k)
      ensures Supplied(t, k, BytesAt(t, t.l1.entries[k].obj))
    {
      var i :| 0 <= i < |items| && items[i].key == k;
      assert ItemOk(s, items[i]);
    }
  }

  lemma FinishedCover(s: State, t: State, written: seq<ChunkKey>)
    requires t.fromStore == s.fromStore + Elems(written) && t.l2 == s.l2
    requires t.pending == if s.l2 == [] then s.pending else s.pending + [written]
    ensures forall k :: k in written ==> KeyCovered(t, k)
  {
    if s.l2 != [] {
      assert t.pending[|s.pending|] == written;
    }
  }

  lemma DueGrows(s: State, t: State, i: nat, k: ChunkKey)
    requires Due(s, i, k) && t.mirror == s.mirror && forall b :: b in s.pending ==> b in t.pending
    ensures Due(t, i, k)
  {
  }

  // ---- all of them ---------------------------------------------------------------------

  lemma StoreStepKeeps(s: State, a: StoreStep)
    requires Inv(s) && StoreEnabled(s, a)
    ensures Kept(s, StoreApply(s, a))
  {
    hide Inv, CanStoreReserve, CanStoreCopy, CanStoreRaise, CanStoreFinish;
    match a
    case StoreReserve(id, keys, chunks, n) => StoreReserveKeeps(s, id, keys, chunks, n);
    case StoreCopy(id, j, data) => StoreCopyKeeps(s, id, j, data);
    case StoreRaise(id, j) => StoreRaiseKeeps(s, id, j);
    case StoreFinish(id) => StoreFinishKeeps(s, id);
  }
}
