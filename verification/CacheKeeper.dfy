// Write-back and eviction keep the invariant.
module CacheKeeper {
  import opened Types
  import opened Memory
  import opened LockProtocol
  import opened Cache
  import opened CacheInv
  import opened CacheBooks

  /** A write-back or eviction step: nothing becomes readable, and coverage has been shown. */
  lemma KeeperStepKeeps(s: State, t: State)
    requires Inv(s) && CoreOk(t) && Books(t) && Quiet(s, t, None)
    requires t == s.(l1 := t.l1, l2 := t.l2, mirror := t.mirror, pending := t.pending, victims := t.victims)
    requires OthersKeepClaims(s, t, Mirror, Mirror)
    requires forall k :: k in t.l1.entries ==>
               k in s.l1.entries && t.l1.entries[k].isTemporary == s.l1.entries[k].isTemporary
    requires forall k :: CanRead(t.l1.entries, k) ==> CanRead(s.l1.entries, k)
    requires MirrorOk(t) && CoverOk(t) && RecordsOk(t)
    ensures Kept(s, t)
  {
    assert Claim(t, Writes, Mirror) == [];
    hide CoreOk, Claim, OthersKeepClaims, KeyCovered, ContentOk, CoverOk, RecordsOk, JobOk, QueueOk, SessionsOk,
         Books, Quiet, HandlersOk, MirrorOk;
    CoreLocksOf(s);
    TempsCarry(s, t, Mirror, Mirror);
    JobCarries(s, t, None, Mirror);
    QuietMeans(s, t, None);
    QueueCarries(s, t);
    KeeperHandlers(s, t);
    ContentCarries(s, t, None, Mirror, {});
    SessionsSame(s, t);
    KeptBy(s, t, None, Mirror);
  }

  lemma KeeperHandlers(s: State, t: State)
    requires HandlersOk(s) && Quiet(s, t, None) && t.handlers == s.handlers && t.ses == s.ses
    ensures HandlersOk(t)
  {
    hide Quiet;
    HandlersCarry(s, t, None, Mirror);
  }

  lemma MirrorClaims(s: State, t: State)
    requires t.ses == s.ses && t.handlers == s.handlers && t.job == s.job
    ensures OthersKeepClaims(s, t, Mirror, Mirror)
    ensures forall u: State :: Claim(u, Writes, Mirror) == []
    ensures forall u: State :: Claim(u, Reads, Mirror) == if u.mirror.Mirroring? then u.mirror.locked else []
  {
  }

  lemma MirrorTakeKeeps(s: State)
    requires Inv(s) && CanMirrorTake(s)
    ensures Kept(s, DoMirrorTake(s))
  {
    var t := DoMirrorTake(s);
    MirrorClaims(s, t);
    assert forall role, o :: Claim(t, role, o) == Claim(s, role, o);
    BooksSame(s, t);
    forall i: nat, k | i < |s.l2| && Due(s, i, k)
      ensures Due(t, i, k)
    {
      if b :| b in s.pending && k in b {
        if b != s.pending[0] {
          assert b in s.pending[1..];
        }
      }
    }
    assert forall k :: SizeOf(t, k) == SizeOf(s, k);
    CoreLocksOf(s);
    hide Due, Claim, L1Inv, Books, OthersKeepClaims, KeyCovered, ContentOk, JobOk, QueueOk, SessionsOk, TempsOk,
         HandlersOk;
    CoverCarries(s, t, None, {});
    RecordsCarry(s, t);
    KeeperStepKeeps(s, t);
  }

  lemma {:induction false} TakenNoDup(got: map<ChunkKey, Option<Slice>>, keys: seq<ChunkKey>)
    requires NoDup(keys)
    ensures NoDup(TakenKeys(got, keys))
  {
    if keys != [] {
      var init, k := keys[..|keys| - 1], keys[|keys| - 1];
      TakenNoDup(got, init);
      NoDupConcat(TakenKeys(got, init), if k in got && got[k].Some? then [k] else []);
    }
  }

  /** The batch's readable keys are held until they are mirrored. */
  lemma MirrorReserveKeeps(s: State)
    requires Inv(s) && s.mirror.Picked?
    ensures Kept(s, DoMirrorReserve(s))
  {
    var t := DoMirrorReserve(s);
    var batch := s.mirror.batch;
    var (m, got) := ReserveRead(s.l1, batch);
    var locked := TakenKeys(got, batch);
    ReserveReadEffect(s.l1, batch);
    TakenNoDup(got, batch);
    MirrorClaims(s, t);
    forall k
      ensures k in locked <==> k in batch && CanRead(s.l1.entries, k)
    {
    }
    MirrorReserveCover(s, t, locked);
    MirrorReserveMirror(s, t, got, locked);
    hide Due, Claim, L1Inv, Books, OthersKeepClaims, KeyCovered, ContentOk, CoverOk, JobOk, QueueOk, SessionsOk,
         TempsOk, HandlersOk, MirrorOk, ReserveRead;
    HoldBooks(s, t, Mirror, locked);
    RecordsCarry(s, t);
    KeeperStepKeeps(s, t);
  }

  lemma MirrorReserveMirror(s: State, t: State, got: map<ChunkKey, Option<Slice>>, locked: seq<ChunkKey>)
    requires MirrorOk(s) && s.mirror.Picked? && t == DoMirrorReserve(s) && NoDup(locked)
    requires got == ReadableObjs(s.l1.entries, s.mirror.batch) && locked == TakenKeys(got, s.mirror.batch)
    requires forall k :: k in s.l1.entries ==> k in t.l1.entries && t.l1.entries[k].obj == s.l1.entries[k].obj
    ensures MirrorOk(t)
  {
    var slices := SlicesFor(got, locked);
    forall i | 0 <= i < |locked|
      ensures ObjAt(t, locked[i], slices[i])
    {
      assert locked[i] in locked;
    }
  }

  lemma MirrorReserveCover(s: State, t: State, locked: seq<ChunkKey>)
    requires CoverOk(s) && s.mirror.Picked? && t.pending == s.pending && t.l2 == s.l2 && t.fromStore == s.fromStore
    requires forall k :: CanRead(t.l1.entries, k) ==> CanRead(s.l1.entries, k)
    requires forall k :: k in locked <==> k in s.mirror.batch && CanRead(s.l1.entries, k)
    requires if locked == [] then t.mirror == Waiting
             else t.mirror.Mirroring? && t.mirror.locked == locked && t.mirror.done == seq(|s.l2|, _ => 0)
    ensures CoverOk(t)
  {
    forall k | CanRead(t.l1.entries, k)
      ensures KeyCovered(t, k)
    {
      assert KeyCovered(s, k);
      if k in s.fromStore {
        forall i: nat | i < |t.l2|
          ensures k in t.l2[i] || Due(t, i, k)
        {
          assert k in s.l2[i] || Due(s, i, k);
          if k in locked {
            assert t.mirror.done[i] == 0 && locked[0..] == locked;
          }
        }
      } else {
        var i :| 0 <= i < |s.l2| && k in s.l2[i];
        assert k in t.l2[i];
      }
    }
  }

  lemma MirrorCopyRecords(s: State, i: nat)
    requires Inv(s) && CanMirrorCopy(s, i)
    ensures RecordsOk(DoMirrorCopy(s, i))
  {
    var t := DoMirrorCopy(s, i);
    var j := s.mirror.done[i];
    var key, obj := s.mirror.locked[j], s.mirror.slices[j];
    CoreLocksOf(s);
    assert ObjAt(s, key, obj);
    assert key in Claim(s, Reads, Mirror);
    HolderReads(s, Mirror, key);
    OwnedApart(s.l1.entries, s.l1.pool, key, key);
    assert Supplied(s, key, BytesAt(s, obj));
    forall a: nat, k
      ensures RecordOk(t, a, k)
    {
      assert RecordOk(s, a, k);
    }
  }

  lemma MirrorCopyCover(s: State, i: nat)
    requires CoverOk(s) && MirrorOk(s) && CanMirrorCopy(s, i)
    ensures CoverOk(DoMirrorCopy(s, i))
  {
    var t := DoMirrorCopy(s, i);
    var j := s.mirror.done[i];
    var locked := s.mirror.locked;
    assert locked[j..] == [locked[j]] + locked[j + 1..];
    forall k | CanRead(t.l1.entries, k)
      ensures KeyCovered(t, k)
    {
      assert KeyCovered(s, k);
      if k in s.fromStore {
        forall a: nat | a < |t.l2|
          ensures k in t.l2[a] || Due(t, a, k)
        {
          assert k in s.l2[a] || Due(s, a, k);
        }
      } else {
        var a :| 0 <= a < |s.l2| && k in s.l2[a];
        assert k in t.l2[a];
      }
    }
  }

  /** An adapter receives the bytes of a chunk that write-back holds. */
  lemma MirrorCopyKeeps(s: State, i: nat)
    requires Inv(s) && CanMirrorCopy(s, i)
    ensures Kept(s, DoMirrorCopy(s, i))
  {
    hide Due, L1Inv, Books, OthersKeepClaims, KeyCovered, ContentOk, CoverOk, RecordsOk, JobOk, QueueOk,
         SessionsOk, TempsOk, HandlersOk, MirrorOk;
    var t := DoMirrorCopy(s, i);
    MirrorCopyRecords(s, i);
    MirrorCopyCover(s, i);
    MirrorClaims(s, t);
    assert forall role, o :: Claim(t, role, o) == Claim(s, role, o);
    hide Claim;
    BooksSame(s, t);
    assert forall k :: SizeOf(t, k) == SizeOf(s, k);
    CoreLocksOf(s);
    MirrorCopied(s, t, i);
    KeeperStepKeeps(s, t);
  }

  lemma MirrorCopied(s: State, t: State, i: nat)
    requires MirrorOk(s) && CanMirrorCopy(s, i) && t == DoMirrorCopy(s, i)
    ensures MirrorOk(t)
  {
    assert forall k, obj :: ObjAt(s, k, obj) ==> ObjAt(t, k, obj);
  }

  /** When every adapter has the whole batch, its holds are dropped and nothing is due. */
  lemma MirrorFinishKeeps(s: State)
    requires Inv(s) && CanMirrorFinish(s)
    ensures Kept(s, DoMirrorFinish(s))
  {
    hide ContentOk, CoverOk, QueueOk, SessionsOk, HandlersOk, JobOk, KeyCovered, TempsOk, Books, RecordsOk;
    var t := DoMirrorFinish(s);
    MirrorClaims(s, t);
    forall i: nat, k | i < |s.l2| && Due(s, i, k)
      ensures Due(t, i, k)
    {
    }
    hide Due, Claim, L1Inv, Books, OthersKeepClaims, KeyCovered, ContentOk, CoverOk, RecordsOk, JobOk, QueueOk,
         SessionsOk, TempsOk, HandlersOk, FinishRead, Sized, Finds;
    DropBooks(s, t, Mirror, s.mirror.locked);
    QuietMeans(s, t, None);
    CoverCarries(s, t, None, {});
    RecordsCarry(s, t);
    KeeperStepKeeps(s, t);
  }

  lemma EvictPickKeeps(s: State, keys: seq<ChunkKey>)
    requires Inv(s)
    ensures Kept(s, DoEvictPick(s, keys))
  {
    var t := DoEvictPick(s, keys);
    MirrorClaims(s, t);
    assert forall role, o :: Claim(t, role, o) == Claim(s, role, o);
    BooksSame(s, t);
    assert forall k :: SizeOf(t, k) == SizeOf(s, k);
    CoreLocksOf(s);
    DueSame(s, t);
    hide Due, Claim, L1Inv, Books, OthersKeepClaims, KeyCovered, ContentOk, JobOk, QueueOk, SessionsOk, TempsOk,
         HandlersOk;
    CoverCarries(s, t, None, {});
    RecordsCarry(s, t);
    KeeperStepKeeps(s, t);
  }

  /** However stale the victims are, only entries nobody uses go. */
  lemma EvictDeleteKeeps(s: State)
    requires Inv(s) && CanEvictDelete(s)
    ensures Kept(s, DoEvictDelete(s))
  {
    var t := DoEvictDelete(s);
    MirrorClaims(s, t);
    DueSame(s, t);
    hide Due, Claim, L1Inv, Books, OthersKeepClaims, KeyCovered, ContentOk, CoverOk, RecordsOk, JobOk, QueueOk,
         SessionsOk, TempsOk, HandlersOk, Delete, Sized, MirrorOk;
    DeleteBooks(s, t, Mirror, s.victims.value, false);
    PendingOk(s);
    EvictMirror(s, t);
    QuietMeans(s, t, None);
    CoverCarries(s, t, None, {});
    RecordsCarry(s, t);
    KeeperStepKeeps(s, t);
  }

  /** Write-back's own chunks cannot be evicted under it. */
  lemma EvictMirror(s: State, t: State)
    requires MirrorOk(s) && Quiet(s, t, None) && t.mirror == s.mirror && t.pending == s.pending
    ensures MirrorOk(t)
  {
    PendingOk(s);
    MirrorCarries(s, t, None, Call(0));
  }

  lemma KeeperStepsKeep(s: State, a: KeeperStep)
    requires Inv(s) && KeeperEnabled(s, a)
    ensures Kept(s, KeeperApply(s, a))
  {
    hide Inv, CanMirrorTake, CanMirrorCopy, CanMirrorFinish, CanEvictDelete;
    match a
    case MirrorTake => MirrorTakeKeeps(s);
    case MirrorReserve => MirrorReserveKeeps(s);
    case MirrorCopy(i) => MirrorCopyKeeps(s, i);
    case MirrorFinish => MirrorFinishKeeps(s);
    case EvictPick(keys) => EvictPickKeeps(s, keys);
    case EvictDelete => EvictDeleteKeeps(s);
  }
}
