// RETRIEVE, FREE_LOOKUP_LOCKS and END_SESSION keep the invariant.
module CacheCalls {
  import opened Types
  import opened LockProtocol
  import opened Sessions
  import opened Cache
  import opened CacheInv
  import opened CacheBooks
  import opened CacheStore

  /** A step of handler id that at most takes held keys away from its session. */
  lemma CallRest(s: State, t: State, id: nat, b: Owner)
    requires Inv(s) && CoreOk(t) && Books(t) && Quiet(s, t, None)
    requires t == s.(l1 := t.l1, ses := t.ses, handlers := t.handlers)
    requires OthersKeepClaims(s, t, b, Call(id)) && TempsOf(t, b) && TempsOf(t, Call(id)) && NoNewTemps(s, t)
    requires forall k :: CanRead(t.l1.entries, k) ==> CanRead(s.l1.entries, k)
    requires SessionsShrink(s, t) && SessionsOk(t)
    requires forall j :: j in t.handlers && j != id ==> j in s.handlers && t.handlers[j] == s.handlers[j]
    requires id in t.handlers ==> HandlerOk(t, t.handlers[id])
    ensures Kept(s, t)
  {
    hide CoreOk, Claim, OthersKeepClaims, TempsOf, HandlerOk, KeyCovered, ContentOk, CoverOk, RecordsOk, JobOk,
         QueueOk, SessionsOk, Books, Quiet, SessionsShrink, NoNewTemps;
    CoreLocksOf(s);
    TempsCarry(s, t, b, Call(id));
    JobCarries(s, t, None, Call(id));
    QuietMeans(s, t, None);
    QueueCarries(s, t);
    PendingOk(s);
    MirrorCarries(s, t, None, Call(id));
    HandlersCarry(s, t, None, Call(id));
    ContentCarries(s, t, None, Call(id), {});
    DueSame(s, t);
    CoverCarries(s, t, None, {});
    RecordsCarry(s, t);
    KeptBy(s, t, None, Call(id));
  }

  /** Handler id moves on over unchanged tables, entries and claims. */
  lemma HandlerMoves(s: State, t: State, id: nat)
    requires Inv(s) && t == s.(handlers := t.handlers)
    requires forall role, o :: Claim(t, role, o) == Claim(s, role, o)
    requires forall j :: j in t.handlers && j != id ==> j in s.handlers && t.handlers[j] == s.handlers[j]
    requires id in t.handlers ==> HandlerOk(t, t.handlers[id])
    ensures Kept(s, t)
  {
    hide Claim, L1Inv, JobOk, HandlersOk, SessionsOk, QueueOk, MirrorOk, RecordsOk, ContentOk, CoverOk, TempsOk,
         HandlerOk, Books;
    BooksSame(s, t);
    assert forall k :: SizeOf(t, k) == SizeOf(s, k);
    HandlerStepKeeps(s, t, None, id);
  }

  lemma RetrieveKeeps(s: State, id: nat, rid: string, keys: seq<ChunkKey>)
    requires Inv(s) && CanRetrieve(s, id, rid, keys)
    ensures Kept(s, DoRetrieve(s, id, rid, keys))
  {
    hide Books, CoreOk, TempsOk, ContentOk, RecordsOk, CoverOk, JobOk, QueueOk, SessionsOk, MirrorOk, Kept;
    var t := DoRetrieve(s, id, rid, keys);
    assert forall role, o :: Claim(t, role, o) == Claim(s, role, o);
    hide Inv, Claim;
    HandlerMoves(s, t, id);
  }

  /** A chunk read under a session's hold is a blob supplied under that very key. */
  lemma HeldIsSupplied(s: State, rid: string, k: ChunkKey)
    requires Inv(s) && k in HeldKeys(s.ses, rid)
    ensures CanRead(s.l1.entries, k) && Supplied(s, k, BytesAt(s, s.l1.entries[k].obj))
  {
    CoreLocksOf(s);
    assert k in Claim(s, Reads, Session(rid));
    HolderReads(s, Session(rid), k);
  }

  lemma RetrieveCopyKeeps(s: State, id: nat)
    requires Inv(s) && CanRetrieveCopy(s, id)
    ensures Kept(s, DoRetrieveCopy(s, id))
  {
    hide CoreOk, Books, TempsOk, ContentOk, RecordsOk, CoverOk, JobOk, QueueOk, SessionsOk, MirrorOk;
    var t := DoRetrieveCopy(s, id);
    assert HandlerOk(s, s.handlers[id]);
    assert forall role, o :: Claim(t, role, o) == Claim(s, role, o);
    hide Inv, Claim;
    HandlerMoves(s, t, id);
  }

  /** Promoting changes no lock, count or slice, and only clears flags. */
  lemma PromoteBooks(s: State, t: State, id: nat, keys: seq<ChunkKey>)
    requires CoreOk(s) && Books(s)
    requires t == s.(l1 := Promote(s.l1, keys), handlers := t.handlers)
    requires forall role, o :: Claim(t, role, o) == Claim(s, role, o)
    ensures CoreOk(t) && Books(t) && Quiet(s, t, None) && NoNewTemps(s, t)
    ensures forall k :: CanRead(t.l1.entries, k) ==> CanRead(s.l1.entries, k)
  {
    hide Claim, L1Inv;
    PromoteKeepsInv(s.l1, keys);
    CoreLocks(s);
    CoreLocks(t);
    BooksCarry(s, t, Call(id), Call(id));
    hide Books;
    assert forall k :: SizeOf(t, k) == SizeOf(s, k);
  }

  /**
   * The promote after the reply. The session may be gone by then, and a key
   * reserved again by the worker: its entry is promoted under construction.
   */
  lemma RetrievePromoteKeeps(s: State, id: nat)
    requires Inv(s) && CanRetrievePromote(s, id)
    ensures Kept(s, DoRetrievePromote(s, id))
  {
    hide L1Inv, Books, ContentOk, CoverOk, TempsOk, JobOk, QueueOk, SessionsOk, MirrorOk, RecordsOk, Promote, Quiet;
    var t := DoRetrievePromote(s, id);
    var h := s.handlers[id];
    assert HandlerOk(s, h);
    PromoteClaims(s, id);
    hide Claim;
    PromoteBooks(s, t, id, h.keys);
    SessionsSame(s, t);
    CallRest(s, t, id, Call(id));
  }

  lemma PromoteClaims(s: State, id: nat)
    requires CanRetrievePromote(s, id)
    ensures var t := DoRetrievePromote(s, id);
            (forall role, o :: Claim(t, role, o) == Claim(s, role, o)) && Claim(t, Writes, Call(id)) == []
  {
  }

  lemma HeldNoDup(s: State, rid: string)
    requires SessionsOk(s)
    ensures NoDup(HeldKeys(s.ses, rid))
  {
    assert rid in s.ses.held ==> SessionOk(s, rid);
  }

  lemma FreeFirstKeeps(s: State, id: nat, rid: string, count: nat)
    requires Inv(s) && id !in s.handlers
    ensures Kept(s, DoFreeFirst(s, id, rid, count))
  {
    var t := DoFreeFirst(s, id, rid, count);
    HeldNoDup(s, rid);
    assert forall role, o :: Claim(t, role, o) == Claim(s, role, o);
    hide Inv, Claim;
    HandlerMoves(s, t, id);
  }

  // ---- taking held keys out of a session -----------------------------------------------

  /** What leaves the session is claimed by the handler instead, key by key. */
  lemma TakeClaims(s: State, id: nat, rid: string, keys: seq<ChunkKey>, ending: bool)
    requires id in s.handlers ==> s.handlers[id].Releasing?
    ensures var t := Take(s, id, rid, keys, ending);
            && OthersKeepClaims(s, t, Session(rid), Call(id))
            && (forall role, k :: Delta(s, t, role, Session(rid), k) + Delta(s, t, role, Call(id), k) == 0)
            && Claim(t, Writes, Session(rid)) == [] && Claim(t, Writes, Call(id)) == []
            && (forall k :: k in HeldKeys(t.ses, rid) <==> k in HeldKeys(s.ses, rid) && k !in keys)
  {
    var t := Take(s, id, rid, keys, ending);
    assert Claim(s, Reads, Call(id)) == [];
    assert Claim(t, Reads, Call(id)) == Within(keys, HeldKeys(s.ses, rid));
  }

  lemma TakeSessions(s: State, rid: string, keys: seq<ChunkKey>, t: State)
    requires SessionsOk(s) && t.ses == TakeReleasedOf(s.ses, rid, keys).0 && t.asked == s.asked
    ensures SessionsOk(t)
  {
    forall r | r in t.ses.held
      ensures SessionOk(t, r)
    {
      assert SessionOk(s, r);
      WithinNoDup(s.ses.held[r], Within(keys, HeldKeys(s.ses, rid)));
    }
  }

  /** Holds go from session rid to handler id and no entry changes. */
  lemma HoldsMove(s: State, t: State, id: nat, rid: string)
    requires Inv(s) && t == s.(ses := t.ses, handlers := t.handlers)
    requires OthersKeepClaims(s, t, Session(rid), Call(id))
    requires forall role, k :: Delta(s, t, role, Session(rid), k) + Delta(s, t, role, Call(id), k) == 0
    requires Claim(t, Writes, Session(rid)) == [] && Claim(t, Writes, Call(id)) == []
    requires SessionsShrink(s, t) && SessionsOk(t)
    requires forall j :: j in t.handlers && j != id ==> j in s.handlers && t.handlers[j] == s.handlers[j]
    requires id in t.handlers ==> HandlerOk(t, t.handlers[id])
    ensures Kept(s, t)
  {
    hide Claim, L1Inv, OthersKeepClaims, TempsOk, ContentOk, CoverOk, RecordsOk, HandlersOk, HandlerOk, MirrorOk,
         QueueOk, SessionsOk, JobOk, Books, SessionsShrink;
    TransferBooks(s, t, Session(rid), Call(id));
    assert forall k :: SizeOf(t, k) == SizeOf(s, k);
    CoreLocksOf(s);
    CallRest(s, t, id, Session(rid));
  }

  /** release's first section: each key leaves the session at most once. */
  lemma TakeKeeps(s: State, id: nat, rid: string, keys: seq<ChunkKey>, ending: bool)
    requires Inv(s) && NoDup(keys)
    requires id in s.handlers ==> s.handlers[id].Releasing?
    ensures Kept(s, Take(s, id, rid, keys, ending))
  {
    hide Claim, CoreOk, OthersKeepClaims, TempsOk, ContentOk, CoverOk, RecordsOk, HandlersOk, MirrorOk, QueueOk,
         SessionsOk, JobOk, Books;
    var t := Take(s, id, rid, keys, ending);
    TakeClaims(s, id, rid, keys, ending);
    TakeSessions(s, rid, keys, t);
    WithinNoDup(keys, HeldKeys(s.ses, rid));
    HoldsMove(s, t, id, rid);
  }

  // ---- dropping and closing -----------------------------------------------------------------

  lemma ReleaseFinishClaims(s: State, id: nat)
    requires CanReleaseFinish(s, id)
    ensures var t := DoReleaseFinish(s, id);
            && OthersKeepClaims(s, t, Call(id), Call(id))
            && Claim(s, Reads, Call(id)) == s.handlers[id].keys && Claim(t, Reads, Call(id)) == []
            && Claim(s, Writes, Call(id)) == [] == Claim(t, Writes, Call(id))
  {
  }

  /** release's second section: finish_read drops exactly the holds taken out of the session. */
  lemma ReleaseFinishKeeps(s: State, id: nat)
    requires Inv(s) && CanReleaseFinish(s, id)
    ensures Kept(s, DoReleaseFinish(s, id))
  {
    hide Claim, L1Inv, OthersKeepClaims, FinishRead, Sized, Finds, TempsOk, ContentOk, CoverOk, RecordsOk,
         MirrorOk, QueueOk, SessionsOk, JobOk, Books, Quiet;
    var t := DoReleaseFinish(s, id);
    var h := s.handlers[id];
    ReleaseFinishClaims(s, id);
    assert HandlerOk(s, h);
    SessionsSame(s, t);
    DropBooks(s, t, Call(id), h.keys);
    CallRest(s, t, id, Call(id));
  }

  lemma EndSecondClaims(s: State, id: nat)
    requires CanEndSecond(s, id)
    ensures var t := DoEndSecond(s, id);
            var rid := s.handlers[id].rid;
            && OthersKeepClaims(s, t, Session(rid), Call(id))
            && (forall role, k :: Delta(s, t, role, Session(rid), k) + Delta(s, t, role, Call(id), k) == 0)
            && Claim(t, Writes, Session(rid)) == [] && Claim(t, Writes, Call(id)) == []
  {
    var t := DoEndSecond(s, id);
    var rid := s.handlers[id].rid;
    assert Claim(t, Reads, Session(rid)) == [] && Claim(s, Reads, Call(id)) == [];
    assert Claim(t, Reads, Call(id)) == HeldKeys(s.ses, rid) == Claim(s, Reads, Session(rid));
  }

  lemma CloseSessions(s: State, t: State, rid: string)
    requires SessionsOk(s) && t.ses == Close(s.ses, rid) && t.asked == s.asked
    ensures SessionsOk(t)
  {
    forall r | r in t.ses.held
      ensures SessionOk(t, r)
    {
      assert SessionOk(s, r);
    }
  }

  /** END_SESSION's second section: holds that appeared meanwhile move to the handler's tombstone. */
  lemma EndSecondKeeps(s: State, id: nat)
    requires Inv(s) && CanEndSecond(s, id)
    ensures Kept(s, DoEndSecond(s, id))
  {
    hide Claim, CoreOk, OthersKeepClaims, TempsOk, ContentOk, CoverOk, RecordsOk, HandlersOk, MirrorOk, QueueOk,
         SessionsOk, JobOk, Books;
    var t := DoEndSecond(s, id);
    var rid := s.handlers[id].rid;
    EndSecondClaims(s, id);
    CloseSessions(s, t, rid);
    HoldsMove(s, t, id, rid);
  }

  // ---- all of them ------------------------------------------------------------------------------

  lemma CallStepKeeps(s: State, a: CallStep)
    requires Inv(s) && CallEnabled(s, a)
    ensures Kept(s, CallApply(s, a))
  {
    match a
    case Retrieve(id, rid, keys) => RetrieveKeeps(s, id, rid, keys);
    case RetrieveCopy(id) => RetrieveCopyKeeps(s, id);
    case RetrievePromote(id) => RetrievePromoteKeeps(s, id);
    case FreeFirst(id, rid, count) => FreeFirstKeeps(s, id, rid, count);
    case EndFirst(id, rid) =>
      HeldNoDup(s, rid);
      TakeKeeps(s, id, rid, HeldKeys(s.ses, rid), true);
    case ReleaseTake(id) =>
      assert HandlerOk(s, s.handlers[id]);
      TakeKeeps(s, id, s.handlers[id].rid, s.handlers[id].keys, false);
    case ReleaseFinish(id) => ReleaseFinishKeeps(s, id);
    case EndSecond(id) => EndSecondKeeps(s, id);
  }
}
