// How each kind of L1 section keeps the accounting of claims.
module CacheBooks {
  import opened Types
  import opened Memory
  import opened LockProtocol
  import opened Cache
  import opened CacheInv

  lemma CoreLocks(s: State)
    requires L1Inv(s.l1)
    ensures Locks(s.l1.entries)
  {
  }

  lemma CoreLocksOf(s: State)
    requires CoreOk(s)
    ensures Locks(s.l1.entries)
  {
  }

  lemma PendingOk(s: State)
    requires MirrorOk(s)
    ensures forall i :: 0 <= i < |s.pending| ==> NoDup(s.pending[i])
  {
  }

  /** Taking keys that were free, write-locked for o, keeps the books. */
  lemma ReserveKeepsBooks(s: State, t: State, o: Owner, keys: seq<ChunkKey>, got: map<ChunkKey, Option<Slice>>, n: nat,
                          temporary: bool)
    requires CoreOk(s) && Books(s) && OneGeometry(s, keys, n)
    requires L1Inv(t.l1) && t.l1.pool.total == s.l1.pool.total && Reserved(s.l1, t.l1, keys, got, n, temporary)
    requires t.mem == s.mem && t.geo == s.geo && t.l2 == s.l2 && s.stored <= t.stored
    requires OthersKeepClaims(s, t, o, o) && forall k :: k in Claim(t, Reads, o) <==> k in Claim(s, Reads, o)
    requires forall k :: k in Claim(t, Writes, o) <==>
               k in Claim(s, Writes, o) || (k in keys && k in got && got[k].Some?)
    ensures CoreOk(t) && Books(t) && Quiet(s, t, None)
  {
    hide L1Inv, OthersKeepClaims, Claim;
    CoreLocks(s);
    CoreLocks(t);
    forall role, k
      ensures Recorded(t.l1.entries, role, k) == Recorded(s.l1.entries, role, k) + Delta(s, t, role, o, k)
    {
      if k in Claim(s, Writes, o) {
        WriterLocks(s, o, k);
      }
      if role.Writes? {
        assert k in s.l1.entries ==> Recorded(t.l1.entries, role, k) == Recorded(s.l1.entries, role, k);
        assert k !in s.l1.entries && k in t.l1.entries ==> Recorded(t.l1.entries, role, k) == 1;
        assert k !in t.l1.entries ==> Recorded(t.l1.entries, role, k) == 0;
        assert k in Claim(s, role, o) ==> k in Claim(t, role, o);
        assert Delta(s, t, role, o, k) == if k in t.l1.entries && k !in s.l1.entries then 1 else 0;
      } else {
        assert Recorded(t.l1.entries, role, k) == Recorded(s.l1.entries, role, k);
        assert Delta(s, t, role, o, k) == 0;
      }
    }
    BooksCarry(s, t, o, o);
    hide Books;
    assert forall k :: SizeOf(t, k) == SizeOf(s, k);
  }

  /** Unlocking the keys of one writer, who keeps only its other claims, keeps the books. */
  lemma UnlockBooks(s: State, t: State, o: Owner, written: seq<ChunkKey>, extra: seq<ChunkKey>)
    requires CoreOk(s) && Books(s) && L1Inv(t.l1)
    requires t.l1.entries == Unlock(s.l1.entries, written) && t.l1.pool == s.l1.pool
    requires t.mem == s.mem && t.geo == s.geo && t.l2 == s.l2 && t.stored == s.stored
    requires OthersKeepClaims(s, t, o, o) && forall k :: k in extra ==> k !in written
    requires Claim(s, Writes, o) == written + extra && Claim(t, Writes, o) == extra
    requires Claim(s, Reads, o) == [] && Claim(t, Reads, o) == []
    ensures CoreOk(t) && Books(t) && Quiet(s, t, None)
  {
    hide L1Inv, Claim, OthersKeepClaims;
    CoreLocks(s);
    CoreLocks(t);
    forall role, k
      ensures Recorded(t.l1.entries, role, k) == Recorded(s.l1.entries, role, k) + Delta(s, t, role, o, k)
    {
      assert k in written + extra <==> k in written || k in extra;
      if k in written {
        WriterLocks(s, o, k);
      }
      assert role.Reads? ==> Delta(s, t, role, o, k) == 0;
      assert role.Writes? ==> Delta(s, t, role, o, k) == if k in written then -1 else 0;
    }
    BooksCarry(s, t, o, o);
    hide Books;
    assert forall k :: SizeOf(t, k) == SizeOf(s, k);
  }

  /** Step by which owner o drops one hold on each of keys. */
  lemma DropBooks(s: State, t: State, o: Owner, keys: seq<ChunkKey>)
    requires CoreOk(s) && Books(s) && NoDup(keys)
    requires Sized(s.l1) && Finds(s.l1, keys) && t.l1 == FinishRead(s.l1, keys)
    requires t.mem == s.mem && t.geo == s.geo && t.l2 == s.l2 && t.stored == s.stored
    requires OthersKeepClaims(s, t, o, o)
    requires forall k :: k in Claim(s, Reads, o) <==> k in keys
    requires Claim(t, Reads, o) == [] && Claim(s, Writes, o) == Claim(t, Writes, o)
    ensures CoreOk(t) && Books(t) && Quiet(s, t, None) && Dropped(s.l1.entries, t.l1.entries, keys)
  {
    hide L1Inv, Claim, OthersKeepClaims, FinishRead, Sized, Finds, Dropped;
    CoreLocks(s);
    ClaimsAreHoldable(s, o, keys);
    FinishReadEffect(s.l1, keys);
    DroppedBooks(s, t, o, keys);
  }

  lemma DroppedBooks(s: State, t: State, o: Owner, keys: seq<ChunkKey>)
    requires CoreOk(s) && Books(s) && L1Inv(t.l1) && t.l1.pool.total == s.l1.pool.total
    requires Dropped(s.l1.entries, t.l1.entries, keys) && Holdable(s.l1.entries, keys)
    requires t.mem == s.mem && t.geo == s.geo && t.l2 == s.l2 && t.stored == s.stored
    requires OthersKeepClaims(s, t, o, o)
    requires forall k :: k in Claim(s, Reads, o) <==> k in keys
    requires Claim(t, Reads, o) == [] && Claim(s, Writes, o) == Claim(t, Writes, o)
    ensures CoreOk(t) && Books(t) && Quiet(s, t, None)
  {
    hide L1Inv, Claim, OthersKeepClaims;
    CoreLocks(s);
    CoreLocks(t);
    forall role, k
      ensures Recorded(t.l1.entries, role, k) == Recorded(s.l1.entries, role, k) + Delta(s, t, role, o, k)
    {
      if role.Writes? {
        assert Delta(s, t, role, o, k) == 0;
        if k in keys {
          assert CanRead(s.l1.entries, k);
        }
      }
    }
    BooksCarry(s, t, o, o);
    hide Books;
    assert forall k :: SizeOf(t, k) == SizeOf(s, k);
  }

  lemma ClaimsAreHoldable(s: State, o: Owner, keys: seq<ChunkKey>)
    requires Books(s) && Locks(s.l1.entries) && forall k :: k in keys ==> k in Claim(s, Reads, o)
    ensures Holdable(s.l1.entries, keys)
  {
    forall k | k in keys
      ensures CanRead(s.l1.entries, k) && s.l1.entries[k].readCount > 0
    {
      HolderReads(s, o, k);
    }
  }

  /** No lookup of a finish_read over claimed keys misses. */
  lemma ClaimsAreFound(s: State, o: Owner, keys: seq<ChunkKey>)
    requires CoreOk(s) && Books(s) && NoDup(keys) && forall k :: k in keys ==> k in Claim(s, Reads, o)
    ensures Sized(s.l1) && Finds(s.l1, keys)
  {
    CoreLocks(s);
    ClaimsAreHoldable(s, o, keys);
    FinishReadEffect(s.l1, keys);
  }

  /** Step by which owner o takes one hold on each of keys. */
  lemma HoldBooks(s: State, t: State, o: Owner, keys: seq<ChunkKey>)
    requires CoreOk(s) && Books(s) && L1Inv(t.l1) && t.l1.pool == s.l1.pool && t.l1.entries.Keys == s.l1.entries.Keys
    requires forall k :: k in s.l1.entries ==>
               t.l1.entries[k] == if k in keys then s.l1.entries[k].(readCount := s.l1.entries[k].readCount + 1)
                   else s.l1.entries[k]
    requires forall k :: k in keys ==> CanRead(s.l1.entries, k)
    requires t.mem == s.mem && t.geo == s.geo && t.l2 == s.l2 && t.stored == s.stored
    requires OthersKeepClaims(s, t, o, o)
    requires Claim(s, Reads, o) == [] && Claim(s, Writes, o) == Claim(t, Writes, o)
    requires forall k :: k in Claim(t, Reads, o) <==> k in keys
    ensures CoreOk(t) && Books(t) && Quiet(s, t, None)
  {
    hide L1Inv, Claim, OthersKeepClaims;
    CoreLocks(s);
    CoreLocks(t);
    forall role, k
      ensures Recorded(t.l1.entries, role, k) == Recorded(s.l1.entries, role, k) + Delta(s, t, role, o, k)
    {
      if role.Writes? {
        assert Delta(s, t, role, o, k) == 0;
      }
    }
    BooksCarry(s, t, o, o);
    hide Books;
    assert forall k :: SizeOf(t, k) == SizeOf(s, k);
  }

  /** Moving holds from a to b changes no entry. */
  lemma TransferBooks(s: State, t: State, a: Owner, b: Owner)
    requires Books(s) && t.l1.entries == s.l1.entries && a != b && OthersKeepClaims(s, t, a, b)
    requires forall role, k :: Delta(s, t, role, a, k) + Delta(s, t, role, b, k) == 0
    ensures Books(t)
  {
    hide Claim, OthersKeepClaims;
    BooksCarry(s, t, a, b);
  }

  /** A delete removes only what nobody claims, or what its owner o has write-locked. */
  lemma DeleteBooks(s: State, t: State, o: Owner, keys: seq<ChunkKey>, force: bool)
    requires CoreOk(s) && Books(s) && Sized(s.l1) && t.l1 == Delete(s.l1, keys, force)
    requires t.mem == s.mem && t.geo == s.geo && t.l2 == s.l2 && t.stored == s.stored
    requires OthersKeepClaims(s, t, o, o)
    requires Claim(t, Reads, o) == Claim(s, Reads, o)
    requires forall k :: k in Claim(s, Writes, o) <==> k in Claim(t, Writes, o) || (force && k in keys)
    requires force ==> forall k :: k in keys ==> k !in Claim(t, Writes, o)
    ensures CoreOk(t) && Books(t) && Quiet(s, t, None)
    ensures forall k :: k in t.l1.entries <==> k in s.l1.entries && !(k in keys && Deletable(s.l1.entries, force, k))
    ensures forall k :: k in t.l1.entries ==> t.l1.entries[k] == s.l1.entries[k]
  {
    hide L1Inv, Claim, OthersKeepClaims, Delete, Sized;
    DeleteEffect(s.l1, keys, force);
    DeletedBooks(s, t, o, keys, force);
  }

  lemma DeletedBooks(s: State, t: State, o: Owner, keys: seq<ChunkKey>, force: bool)
    requires CoreOk(s) && Books(s) && L1Inv(t.l1) && t.l1.pool.total == s.l1.pool.total
    requires t.mem == s.mem && t.geo == s.geo && t.l2 == s.l2 && t.stored == s.stored
    requires OthersKeepClaims(s, t, o, o)
    requires Claim(t, Reads, o) == Claim(s, Reads, o)
    requires forall k :: k in Claim(s, Writes, o) <==> k in Claim(t, Writes, o) || (force && k in keys)
    requires force ==> forall k :: k in keys ==> k !in Claim(t, Writes, o)
    requires forall k :: k in t.l1.entries <==> k in s.l1.entries && !(k in keys && Deletable(s.l1.entries, force, k))
    requires forall k :: k in t.l1.entries ==> t.l1.entries[k] == s.l1.entries[k]
    ensures CoreOk(t) && Books(t) && Quiet(s, t, None)
  {
    hide L1Inv, Claim, OthersKeepClaims;
    CoreLocks(s);
    CoreLocks(t);
    forall role, k
      ensures Recorded(t.l1.entries, role, k) == Recorded(s.l1.entries, role, k) + Delta(s, t, role, o, k)
    {
      if force && k in keys {
        WriterLocks(s, o, k);
        assert Deletable(s.l1.entries, force, k);
      }
      if role.Reads? {
        assert Delta(s, t, role, o, k) == 0;
      }
    }
    BooksCarry(s, t, o, o);
    hide Books;
    assert forall k :: SizeOf(t, k) == SizeOf(s, k);
  }

  // ---- parts of a key list ------------------------------------------------------------

  lemma PartSplit(keys: seq<ChunkKey>, a: nat, b: nat, c: nat, k: ChunkKey)
    requires a <= b <= c <= |keys| && NoDup(keys)
    ensures k in Part(keys, a, c) <==> k in Part(keys, a, b) || k in Part(keys, b, c)
    ensures !(k in Part(keys, a, b) && k in Part(keys, b, c))
  {
    assert keys[a..c] == keys[a..b] + keys[b..c];
  }

  lemma PartNoDup(keys: seq<ChunkKey>, a: nat, b: nat)
    requires NoDup(keys)
    ensures NoDup(Part(keys, a, b))
    ensures forall k :: k in Part(keys, a, b) ==> k in keys
  {
  }
}
