// Two runs that end badly, both by an END_SESSION that does not wait: in one a
// hold is lost, since the lookup resolves between its two sections; in the
// other a RETRIEVE sends another chunk's bytes, since its locks are gone.
module CacheWitness {
  import opened Types
  import opened Memory
  import opened Eviction
  import opened LockProtocol
  import opened Sessions
  import opened Cache
  import opened CacheSafety
  import opened CacheHolds

  const KEY := ChunkKey([], "m", 0)
  const BLOB: Blob := [7]
  const OBJ := Slice(0, 1)
  const RID := "r"
  const LOOKUP := Lookup(RID, [KEY], true)
  const FRESH := L1(map[], Pool(1, 0, map[], 0), [])
  const CARVED := Pool(1, 1, map[1 := []], 1)
  const WRITING := L1(map[KEY := Entry(OBJ, true, 0, false)], CARVED, [])
  const READABLE := L1(map[KEY := Entry(OBJ, false, 0, false)], CARVED, [KEY])
  const HELD := L1(map[KEY := Entry(OBJ, false, 1, false)], CARVED, [KEY])
  const GOT := map[KEY := Some(OBJ)]

  const KEY2 := ChunkKey([1], "m", 0)
  const BLOB2: Blob := [9]
  const FREED := Pool(1, 1, map[1 := [0]], 0)
  const WRITING2 := L1(map[KEY2 := Entry(OBJ, true, 0, false)], CARVED, [])
  const GOT2 := map[KEY2 := Some(OBJ)]

  // The states of the run.

  /** One adapter, which has the chunk from an earlier run of the server. */
  ghost function Empty(): State {
    State(map["m" := 1], FRESH, [0], [map[KEY := BLOB]], Sessions(map[], map[], []), Idle, [], Waiting, None, map[],
          {(KEY, BLOB)}, {}, map[])
  }

  ghost function Reserved0(): State {
    Empty().(l1 := WRITING, handlers := map[0 := Storing([Item(KEY, OBJ, BLOB, false)], [])])
  }

  ghost function Copied(): State {
    Reserved0().(mem := [7], handlers := map[0 := Storing([Item(KEY, OBJ, BLOB, true)], [])])
  }

  ghost function StoredNow(): State {
    Copied().(l1 := READABLE, handlers := map[], pending := [[KEY]], fromStore := {KEY})
  }

  ghost function Asked(): State {
    StoredNow().(ses := Sessions(map[RID := None], map[], [LOOKUP]), asked := map[RID := [KEY]])
  }

  ghost function TakenUp(): State {
    Asked().(ses := Sessions(map[RID := None], map[], []), job := Fresh(LOOKUP))
  }

  ghost function Looked(): State {
    TakenUp().(l1 := HELD, job := Looking(LOOKUP, 1, map[]))
  }

  ghost function NothingMissing(): State {
    Looked().(job := Reserving(LOOKUP, 1, [], [], false))
  }

  ghost function NothingToLoad(): State {
    Looked().(job := Loading(LOOKUP, 1, [], [], [], None, 0))
  }

  ghost function NothingLoaded(): State {
    Looked().(job := Publishing(LOOKUP, 1, [], 0))
  }

  ghost function NothingPublished(): State {
    Looked().(job := Trimming(LOOKUP, 1, [], 0))
  }

  /** The lookup has found its chunk in the L1 and is about to be resolved. */
  ghost function Found(): State {
    Looked().(job := Resolving(LOOKUP, 1, 0))
  }

  // The first ending.

  ghost function Ending(): State {
    Found().(handlers := map[1 := Dropping(RID, [], true)])
  }

  ghost function InGap(): State {
    Found().(handlers := map[1 := Closing(RID)])
  }

  ghost function ResolvedInGap(): State {
    InGap().(ses := Sessions(map[RID := Some((1, 0))], map[RID := [KEY]], []), job := Idle)
  }

  ghost function Leaked(): State {
    ResolvedInGap().(ses := Sessions(map[], map[], []), handlers := map[1 := Lost([KEY])])
  }

  // The second ending.

  ghost function Resolved(): State {
    Found().(ses := Sessions(map[RID := Some((1, 0))], map[RID := [KEY]], []), job := Idle)
  }

  ghost function Retrieving(): State {
    Resolved().(handlers := map[3 := Reading(RID, [KEY], [OBJ], [])])
  }

  ghost function EndedEarly(): State {
    Retrieving().(ses := Sessions(map[RID := Some((1, 0))], map[RID := []], []),
                  handlers := Retrieving().handlers[4 := Dropping(RID, [KEY], true)])
  }

  ghost function Unpinned(): State {
    EndedEarly().(l1 := READABLE, handlers := Retrieving().handlers[4 := Closing(RID)])
  }

  ghost function Chosen(): State {
    Unpinned().(victims := Some([KEY]))
  }

  ghost function Evicted(): State {
    Unpinned().(l1 := L1(map[], FREED, []))
  }

  ghost function Reused(): State {
    Evicted().(l1 := WRITING2, handlers := Unpinned().handlers[5 := Storing([Item(KEY2, OBJ, BLOB2, false)], [])],
               stored := {(KEY, BLOB), (KEY2, BLOB2)})
  }

  ghost function Overwritten(): State {
    Reused().(mem := [9], handlers := Unpinned().handlers[5 := Storing([Item(KEY2, OBJ, BLOB2, true)], [])])
  }

  ghost function SentWrong(): State {
    Overwritten().(handlers := Overwritten().handlers[3 := Reading(RID, [KEY], [OBJ], [BLOB2])])
  }

  lemma Allocates()
    ensures AllocateFrom(FRESH.pool, 1, 1) == (CARVED, Some([OBJ]))
  {
    var p := Pool(1, 0, map[1 := []], 0);
    assert FRESH.pool.free[1 := FreeOf(FRESH.pool, 1)] == map[1 := []];
    var q := Collect(p.(brk := p.brk + 1), 1, 0);
    assert q == (CARVED.(used := 0), []);
    assert [p.brk] + q.1 == [0];
    assert p.free[1] == [] && p.brk + 1 <= p.total;
    assert Collect(p, 1, 1) == (q.0, [p.brk] + q.1);
    assert SlicesAt([0], 1) == [OBJ];
  }

  lemma ReservesOne()
    ensures ReserveWrite(FRESH, [KEY], 1, false) == (WRITING, GOT)
  {
    Allocates();
    hide AllocateFrom;
    assert Missing(map[], [KEY][1..]) == [];
    assert Missing(map[], [KEY]) == [KEY];
    assert [KEY][1..] == [] && [OBJ][1..] == [];
    assert Install(map[], [KEY], [OBJ], false) == WRITING.entries;
    assert NewObjs(map[], WRITING.entries, [KEY]) == GOT;
  }

  lemma Reserves()
    ensures Leads(Empty(), ByStore(StoreReserve(0, [KEY], [BLOB], 1)), Reserved0())
  {
    ReservesOne();
    hide ReserveWrite;
    assert [KEY][..0] == [] && [KEY][..1] == [KEY] && [KEY][1..] == [];
    assert ItemsOf(GOT, [KEY], [BLOB]) == [Item(KEY, OBJ, BLOB, false)];
    var more := set i | 0 <= i < 1 :: ([KEY][i], [BLOB][i]);
    assert more == {(KEY, BLOB)} by {
      assert ([KEY][0], [BLOB][0]) in more;
    }
    assert DoStoreReserve(Empty(), 0, [KEY], [BLOB], 1) == Reserved0();
  }

  lemma Copies()
    ensures Leads(Reserved0(), ByStore(StoreCopy(0, 0, BLOB)), Copied())
  {
    assert WriteSlice([0], OBJ, BLOB) == [7];
    var h := Reserved0().handlers[0];
    assert h.items[0 := h.items[0].(done := true)] == [Item(KEY, OBJ, BLOB, true)];
    assert DoStoreCopy(Reserved0(), 0, 0, BLOB) == Copied();
  }

  lemma Finishes()
    ensures Leads(Copied(), ByStore(StoreFinish(0)), StoredNow())
  {
    assert ItemKeys(Copied().handlers[0].items) == [KEY];
    assert [KEY][1..] == [] && Remove([], KEY) == [];
    assert Touch([], [KEY]) == [KEY];
    assert Unlock(WRITING.entries, [KEY]) == READABLE.entries;
    assert DoStoreFinish(Copied(), 0) == StoredNow();
  }

  lemma Asks()
    ensures Leads(StoredNow(), ByLookup(StartLookup(RID, [KEY], true)), Asked())
    ensures Leads(Asked(), ByLookup(JobTake), TakenUp())
  {
    assert OneGeometry(StoredNow(), [KEY], 1);
    assert DoStartLookup(StoredNow(), RID, [KEY], true) == Asked();
    assert DoJobTake(Asked()) == TakenUp();
  }

  lemma Looks()
    ensures Leads(TakenUp(), ByLookup(JobPrefix), Looked())
  {
    assert [KEY][1..] == [] && [KEY][..1] == [KEY];
    assert PrefixHits(READABLE.entries, [KEY]) == 1;
    assert Count([KEY], KEY) == 1;
    assert Hold(READABLE.entries, [KEY]) == HELD.entries;
    assert DoJobPrefix(TakenUp()) == Looked();
  }

  // All of the lookup is in the L1, so the loading part of the job does nothing.

  lemma AnswersNothing()
    ensures Leads(Looked(), ByLookup(JobAnswered), NothingMissing())
  {
    assert MissingKeys(Looked().job) == [];
  }

  lemma NothingWanted()
    ensures Wanted(Reserving(LOOKUP, 1, [], [], false)) == 0 && BestFirst([], [])
  {
    assert MissingKeys(Reserving(LOOKUP, 1, [], [], false)) == [];
  }

  lemma ReservesNothing()
    ensures Leads(NothingMissing(), ByLookup(JobReserved([])), NothingToLoad())
  {
    hide Wanted, BestFirst;
    NothingWanted();
    assert DoJobReserved(NothingMissing(), []) == NothingToLoad();
  }

  lemma LoadsNothing()
    ensures Leads(NothingToLoad(), ByLookup(JobLoaded), NothingLoaded())
  {
  }

  lemma PublishesNothing()
    ensures Leads(NothingLoaded(), ByLookup(JobPublish), NothingPublished())
  {
    assert Part([KEY], 1, 1) == [];
    assert Hold(Unlock(HELD.entries, []), []) == HELD.entries;
    assert FinishWriteAndHold(HELD, []) == HELD;
    assert NothingLoaded().fromStore - Elems([]) == NothingLoaded().fromStore;
    assert DoJobPublish(NothingLoaded()) == NothingPublished();
  }

  lemma DeletesNothing()
    ensures Sized(HELD) && Delete(HELD, [], true) == HELD
  {
  }

  lemma TrimsNothing()
    ensures Leads(NothingPublished(), ByLookup(JobTrim), Found())
  {
    hide Delete, Sized;
    DeletesNothing();
    assert Part([KEY], 1, 1) == [];
    assert DoJobTrim(NothingPublished()) == Found();
  }

  lemma Ends()
    ensures Leads(Found(), ByCall(EndFirst(1, RID)), Ending())
    ensures Leads(Ending(), ByCall(ReleaseFinish(1)), InGap())
  {
    assert Take(Found(), 1, RID, [], true) == Ending();
    assert FinishRead(HELD, []) == HELD;
    assert DoReleaseFinish(Ending(), 1) == InGap();
  }

  lemma ResolvesLate()
    ensures Leads(InGap(), ByLookup(JobResolve), ResolvedInGap())
  {
    assert [KEY][..1] == [KEY] && [KEY][..0] == [];
    assert FromKeys([KEY]) == [KEY];
    assert DoJobResolve(InGap()) == ResolvedInGap();
  }

  lemma Loses()
    ensures Leads(ResolvedInGap(), ByCall(EndSecond(1)), Leaked())
  {
    assert DoEndSecond(ResolvedInGap(), 1) == Leaked();
  }

  /** A STORE and a lookup that finds its chunk, up to its resolve. */
  lemma RunToFound() returns (states: seq<State>, steps: seq<Step>)
    ensures |states| == |steps| + 1 && Run(states, steps) && states[|steps|] == Found()
  {
    hide Empty, Reserved0, Copied, StoredNow, Asked, TakenUp, Looked, NothingMissing, NothingToLoad, NothingLoaded,
         NothingPublished, Found, Leads, Run;
    StartsEmpty();
    states, steps := [Empty()], [];
    Reserves();
    states, steps := Extend(states, steps, ByStore(StoreReserve(0, [KEY], [BLOB], 1)), Reserved0());
    Copies();
    states, steps := Extend(states, steps, ByStore(StoreCopy(0, 0, BLOB)), Copied());
    Finishes();
    states, steps := Extend(states, steps, ByStore(StoreFinish(0)), StoredNow());
    Asks();
    states, steps := Extend(states, steps, ByLookup(StartLookup(RID, [KEY], true)), Asked());
    states, steps := Extend(states, steps, ByLookup(JobTake), TakenUp());
    Looks();
    states, steps := Extend(states, steps, ByLookup(JobPrefix), Looked());
    AnswersNothing();
    states, steps := Extend(states, steps, ByLookup(JobAnswered), NothingMissing());
    ReservesNothing();
    states, steps := Extend(states, steps, ByLookup(JobReserved([])), NothingToLoad());
    LoadsNothing();
    states, steps := Extend(states, steps, ByLookup(JobLoaded), NothingLoaded());
    PublishesNothing();
    states, steps := Extend(states, steps, ByLookup(JobPublish), NothingPublished());
    TrimsNothing();
    states, steps := Extend(states, steps, ByLookup(JobTrim), Found());
  }

  /** An END_SESSION around the lookup's resolve: the hold is lost. */
  lemma LeakHappens() returns (states: seq<State>, steps: seq<Step>)
    ensures |states| == |steps| + 1 && Run(states, steps) && SomeLost(states[|steps|])
    ensures var s := states[|steps|];
            KEY in s.l1.entries && s.l1.entries[KEY].readCount == 1 && LiveHolders(s, KEY) == {}
  {
    hide Found, Ending, InGap, ResolvedInGap, Leaked, Leads, Run, SomeLost, LiveHolders;
    states, steps := RunToFound();
    Ends();
    states, steps := Extend(states, steps, ByCall(EndFirst(1, RID)), Ending());
    states, steps := Extend(states, steps, ByCall(ReleaseFinish(1)), InGap());
    ResolvesLate();
    states, steps := Extend(states, steps, ByLookup(JobResolve), ResolvedInGap());
    Loses();
    states, steps := Extend(states, steps, ByCall(EndSecond(1)), Leaked());
    LeakedState();
  }

  // ---- the second ending -------------------------------------------------------------

  lemma Resolves()
    ensures Leads(Found(), ByLookup(JobResolve), Resolved())
  {
    assert [KEY][..1] == [KEY] && [KEY][..0] == [];
    assert FromKeys([KEY]) == [KEY];
    assert DoJobResolve(Found()) == Resolved();
  }

  lemma Retrieves()
    ensures Leads(Resolved(), ByCall(Retrieve(3, RID, [KEY])), Retrieving())
  {
    assert ObjsOf(HELD.entries, [KEY]) == [OBJ];
    assert DoRetrieve(Resolved(), 3, RID, [KEY]) == Retrieving();
  }

  lemma EndsEarly()
    ensures Leads(Retrieving(), ByCall(EndFirst(4, RID)), EndedEarly())
  {
    assert [KEY][..0] == [];
    assert Within([], [KEY]) == [];
    assert Within([KEY], [KEY]) == [KEY];
    assert Without([KEY], [KEY]) == [];
    assert Take(Retrieving(), 4, RID, [KEY], true) == EndedEarly();
  }

  lemma Unpins()
    ensures Leads(EndedEarly(), ByCall(ReleaseFinish(4)), Unpinned())
  {
    hide FinishRead, LockProtocol.Finds, Sized;
    Drops();
    assert DoReleaseFinish(EndedEarly(), 4) == Unpinned();
  }

  lemma Drops()
    ensures Sized(HELD) && LockProtocol.Finds(HELD, [KEY]) && FinishRead(HELD, [KEY]) == READABLE
  {
    assert [KEY][1..] == [] && [KEY] + [] == [KEY];
    assert DropOne(HELD, KEY) == READABLE;
    assert LockProtocol.Finds(READABLE, []);
    assert DropAll(READABLE, []) == (READABLE, [], []);
    assert DropAll(HELD, [KEY]) == (READABLE, [], [KEY]);
    assert Remove([KEY], KEY) == [] && Touch([KEY], []) == [KEY];
    assert Touch([KEY], [KEY]) == [KEY];
  }

  lemma Chooses()
    ensures Leads(Unpinned(), ByKeeper(EvictPick([KEY])), Chosen())
  {
  }

  lemma Deletes()
    ensures Sized(READABLE) && Delete(READABLE, [KEY], false) == L1(map[], FREED, [])
  {
    assert [KEY][1..] == [] && [KEY] + [] == [KEY] && [] + [0] == [0];
    assert READABLE.entries - {KEY} == map[];
    assert Release(CARVED, OBJ) == FREED by {
      assert CARVED.free[1 := [] + [0]] == FREED.free;
    }
    var m := RemoveEntry(READABLE, KEY);
    assert DeleteAll(m, [], false) == (m, []);
    assert DeleteAll(READABLE, [KEY], false) == (m, [KEY]);
    assert Remove([KEY], KEY) == [];
    assert Forget([KEY], [KEY]) == [];
  }

  lemma Evicts()
    ensures Leads(Chosen(), ByKeeper(EvictDelete), Evicted())
  {
    hide Delete, Sized;
    Deletes();
    assert DoEvictDelete(Chosen()) == Evicted();
  }

  lemma Reallocates()
    ensures AllocateFrom(FREED, 1, 1) == (CARVED, Some([OBJ]))
  {
    assert FREED.free[1 := FreeOf(FREED, 1)] == FREED.free;
    assert [0][..0] == [] && FREED.free[1] == [0];
    assert FREED.free[1 := []] == CARVED.free;
    assert [0] + [] == [0];
    assert Collect(CARVED.(used := 0), 1, 0) == (CARVED.(used := 0), []);
    assert Collect(FREED, 1, 1) == (CARVED.(used := 0), [0]);
    assert SlicesAt([0], 1) == [OBJ];
  }

  lemma ReservesAgain()
    ensures ReserveWrite(Evicted().l1, [KEY2], 1, false) == (WRITING2, GOT2)
  {
    Reallocates();
    hide AllocateFrom;
    assert Missing(map[], [KEY2][1..]) == [];
    assert Missing(map[], [KEY2]) == [KEY2];
    assert [KEY2][1..] == [] && [OBJ][1..] == [];
    assert Install(map[], [KEY2], [OBJ], false) == WRITING2.entries;
    assert NewObjs(map[], WRITING2.entries, [KEY2]) == GOT2;
  }

  lemma ReusedItems()
    ensures ItemsOf(GOT2, [KEY2], [BLOB2]) == [Item(KEY2, OBJ, BLOB2, false)] && TakenKeys(GOT2, []) == []
    ensures (set i | 0 <= i < 1 :: ([KEY2][i], [BLOB2][i])) == {(KEY2, BLOB2)}
  {
    assert [KEY2][..0] == [];
    var more := set i | 0 <= i < 1 :: ([KEY2][i], [BLOB2][i]);
    assert ([KEY2][0], [BLOB2][0]) in more;
  }

  lemma Reuses()
    ensures Leads(Evicted(), ByStore(StoreReserve(5, [KEY2], [BLOB2], 1)), Reused())
  {
    hide ReserveWrite, ItemsOf, TakenKeys;
    ReservesAgain();
    ReusedItems();
    assert [KEY2][..1] == [KEY2] && [KEY2][1..] == [];
    var t := DoStoreReserve(Evicted(), 5, [KEY2], [BLOB2], 1);
    assert t.handlers == Reused().handlers && t.l1 == Reused().l1;
    assert t.stored == Evicted().stored + {(KEY2, BLOB2)} == Reused().stored;
  }

  lemma Overwrites()
    ensures Leads(Reused(), ByStore(StoreCopy(5, 0, BLOB2)), Overwritten())
  {
    assert WriteSlice([7], OBJ, BLOB2) == [9];
    var h := Reused().handlers[5];
    assert h.items[0 := h.items[0].(done := true)] == [Item(KEY2, OBJ, BLOB2, true)];
    assert DoStoreCopy(Reused(), 5, 0, BLOB2) == Overwritten();
  }

  lemma SendsWrong()
    ensures Leads(Overwritten(), ByCall(RetrieveCopy(3)), SentWrong())
  {
    assert Overwritten().handlers[3] == Reading(RID, [KEY], [OBJ], []);
    assert BytesAt(Overwritten(), OBJ) == BLOB2;
    assert [] + [BLOB2] == [BLOB2];
    assert DoRetrieveCopy(Overwritten(), 3).handlers == SentWrong().handlers;
  }

  /**
   * An END_SESSION that overtakes a RETRIEVE of its own session: the chunk is
   * evicted and its slice reused before it is sent, and the reply carries
   * bytes that no STORE ever sent under the key asked for.
   */
  lemma WrongBytesHappen() returns (states: seq<State>, steps: seq<Step>)
    ensures |states| == |steps| + 1 && Run(states, steps)
    ensures var s := states[|steps|];
            3 in s.handlers && s.handlers[3] == Reading(RID, [KEY], [OBJ], [BLOB2])
                && !Origin(states, steps, |steps|, KEY, BLOB2)
  {
    hide Found, Resolved, Retrieving, EndedEarly, Unpinned, Chosen, Evicted, Reused, Overwritten, SentWrong, Leads,
         Run, Origin;
    states, steps := RunToFound();
    Resolves();
    states, steps := Extend(states, steps, ByLookup(JobResolve), Resolved());
    Retrieves();
    states, steps := Extend(states, steps, ByCall(Retrieve(3, RID, [KEY])), Retrieving());
    EndsEarly();
    states, steps := Extend(states, steps, ByCall(EndFirst(4, RID)), EndedEarly());
    Unpins();
    states, steps := Extend(states, steps, ByCall(ReleaseFinish(4)), Unpinned());
    Chooses();
    states, steps := Extend(states, steps, ByKeeper(EvictPick([KEY])), Chosen());
    Evicts();
    states, steps := Extend(states, steps, ByKeeper(EvictDelete), Evicted());
    Reuses();
    states, steps := Extend(states, steps, ByStore(StoreReserve(5, [KEY2], [BLOB2], 1)), Reused());
    Overwrites();
    states, steps := Extend(states, steps, ByStore(StoreCopy(5, 0, BLOB2)), Overwritten());
    SendsWrong();
    states, steps := Extend(states, steps, ByCall(RetrieveCopy(3)), SentWrong());
    SentWrongState();
    if Origin(states, steps, |steps|, KEY, BLOB2) {
      OriginIsSupplied(states, steps, |steps|, KEY, BLOB2);
    }
  }

  lemma SentWrongState()
    ensures var s := SentWrong();
            3 in s.handlers && s.handlers[3] == Reading(RID, [KEY], [OBJ], [BLOB2]) && !Supplied(s, KEY, BLOB2)
  {
  }

  lemma StartsEmpty()
    ensures Run([Empty()], [])
  {
    assert InAdapter(Empty(), KEY, BLOB) by {
      assert KEY in Empty().l2[0];
    }
  }

  lemma LeakedState()
    ensures SomeLost(Leaked()) && KEY in Leaked().l1.entries && Leaked().l1.entries[KEY].readCount == 1
    ensures LiveHolders(Leaked(), KEY) == {}
  {
    assert 1 in Leaked().handlers;
    forall o
      ensures o !in LiveHolders(Leaked(), KEY)
    {
    }
  }
}
