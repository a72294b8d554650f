// A third run that ends badly: a RETRIEVE's promote comes so late that it
// clears the flag of an entry another lookup is just loading.
module CacheLatePromote {
  import opened Types
  import opened Memory
  import opened LockProtocol
  import opened Sessions
  import opened SecondTier
  import opened Cache
  import opened CacheInv
  import opened CacheWitness

  const RID2 := "s"
  const LOOKUP2 := Lookup(RID2, [KEY], true)
  const GONE := L1(map[], FREED, [])
  const LOADING := L1(map[KEY := Entry(OBJ, true, 0, true)], CARVED, [])

  // The states after the RETRIEVE has begun.

  ghost function Sent(): State {
    Retrieving().(handlers := map[3 := Reading(RID, [KEY], [OBJ], [BLOB])])
  }

  ghost function Ended(): State {
    Sent().(ses := Sessions(map[RID := Some((1, 0))], map[RID := []], []),
            handlers := Sent().handlers[4 := Dropping(RID, [KEY], true)])
  }

  ghost function Released(): State {
    Ended().(l1 := READABLE, handlers := Sent().handlers[4 := Closing(RID)])
  }

  ghost function Forgotten(): State {
    Released().(ses := Sessions(map[], map[], []), handlers := Sent().handlers)
  }

  ghost function Picked(): State {
    Forgotten().(victims := Some([KEY]))
  }

  ghost function Gone(): State {
    Forgotten().(l1 := GONE)
  }

  ghost function AskedAgain(): State {
    Gone().(ses := Sessions(map[RID2 := None], map[], [LOOKUP2]), asked := map[RID := [KEY], RID2 := [KEY]])
  }

  ghost function TakenUpAgain(): State {
    AskedAgain().(ses := Sessions(map[RID2 := None], map[], []), job := Fresh(LOOKUP2))
  }

  ghost function Missed(): State {
    TakenUpAgain().(job := Looking(LOOKUP2, 0, map[]))
  }

  ghost function FoundBelow(): State {
    TakenUpAgain().(job := Looking(LOOKUP2, 0, map[0 := 1]))
  }

  ghost function ToReserve(): State {
    TakenUpAgain().(job := Reserving(LOOKUP2, 0, [1], [], false))
  }

  ghost function LoadBegun(): State {
    TakenUpAgain().(l1 := LOADING, job := Reserving(LOOKUP2, 0, [1], [OBJ], false))
  }

  ghost function PromotedLate(): State {
    LoadBegun().(l1 := WRITING, handlers := map[3 := Releasing(RID, [KEY])])
  }

  // The steps.

  lemma Sends()
    ensures Leads(Retrieving(), ByCall(RetrieveCopy(3)), Sent())
  {
    assert Retrieving().handlers[3] == Reading(RID, [KEY], [OBJ], []);
    assert BytesAt(Retrieving(), OBJ) == BLOB;
    assert [] + [BLOB] == [BLOB];
    assert DoRetrieveCopy(Retrieving(), 3).handlers == Sent().handlers;
  }

  lemma TakesKey()
    ensures Within([KEY], [KEY]) == [KEY] && Without([KEY], [KEY]) == []
  {
    assert [KEY][..0] == [];
    assert Within([], [KEY]) == [];
  }

  lemma EndsAfterReply()
    ensures Leads(Sent(), ByCall(EndFirst(4, RID)), Ended())
  {
    hide Within, Without;
    TakesKey();
    assert Take(Sent(), 4, RID, [KEY], true) == Ended();
  }

  lemma Releases()
    ensures Leads(Ended(), ByCall(ReleaseFinish(4)), Released())
  {
    hide FinishRead, LockProtocol.Finds, Sized;
    Drops();
    assert DoReleaseFinish(Ended(), 4) == Released();
  }

  lemma Forgets()
    ensures Leads(Released(), ByCall(EndSecond(4)), Forgotten())
  {
    assert Released().handlers - {4} == Sent().handlers;
    assert DoEndSecond(Released(), 4) == Forgotten();
  }

  lemma Picks()
    ensures Leads(Forgotten(), ByKeeper(EvictPick([KEY])), Picked())
  {
  }

  lemma EvictsIt()
    ensures Leads(Picked(), ByKeeper(EvictDelete), Gone())
  {
    hide Delete, Sized;
    Deletes();
    assert DoEvictDelete(Picked()) == Gone();
  }

  lemma AsksAgain()
    ensures Leads(Gone(), ByLookup(StartLookup(RID2, [KEY], true)), AskedAgain())
  {
    assert OneGeometry(Gone(), [KEY], 1);
    assert map[RID := [KEY]][RID2 := [KEY]] == map[RID := [KEY], RID2 := [KEY]];
    assert DoStartLookup(Gone(), RID2, [KEY], true) == AskedAgain();
  }

  lemma TakesUpAgain()
    ensures Leads(AskedAgain(), ByLookup(JobTake), TakenUpAgain())
  {
    assert DoJobTake(AskedAgain()) == TakenUpAgain();
  }

  lemma Misses()
    ensures Leads(TakenUpAgain(), ByLookup(JobPrefix), Missed())
  {
    assert PrefixHits(map[], [KEY]) == 0;
    assert Hold(map[], [KEY][..0]) == map[];
    assert DoJobPrefix(TakenUpAgain()) == Missed();
  }

  lemma HitsBelow()
    ensures LookupHits(map[KEY := BLOB], [KEY]) == 1 && MissingKeys(Looking(LOOKUP2, 0, map[])) == [KEY]
  {
    assert [KEY][1..] == [] && [KEY][0..] == [KEY];
  }

  lemma AsksBelow()
    ensures Leads(Missed(), ByLookup(JobAsk(0)), FoundBelow())
  {
    hide LookupHits, MissingKeys;
    HitsBelow();
    assert DoJobAsk(Missed(), 0) == FoundBelow();
  }

  lemma Answers()
    ensures Leads(FoundBelow(), ByLookup(JobAnswered), ToReserve())
  {
    hide StoreEnabled, KeeperEnabled, CallEnabled, StoreApply, KeeperApply, CallApply, LookupHits;
    assert [KEY][0..] == [KEY];
    assert DoJobAnswered(FoundBelow()).job.hits == [1];
    assert DoJobAnswered(FoundBelow()) == ToReserve();
  }

  lemma ReservesTemporary()
    ensures ReserveWrite(GONE, [KEY], 1, true) == (LOADING, GOT)
  {
    Reallocates();
    hide AllocateFrom;
    assert Missing(map[], [KEY][1..]) == [];
    assert Missing(map[], [KEY]) == [KEY];
    assert [KEY][1..] == [] && [OBJ][1..] == [];
    assert Install(map[], [KEY], [OBJ], true) == LOADING.entries;
    assert NewObjs(map[], LOADING.entries, [KEY]) == GOT;
  }

  lemma WantsOne()
    ensures MissingKeys(Reserving(LOOKUP2, 0, [1], [], false)) == [KEY]
              && Wanted(Reserving(LOOKUP2, 0, [1], [], false)) == 1
  {
    assert [KEY][0..] == [KEY];
    assert [1][..0] == [];
    assert Best([]) == 0;
    assert Best([1]) == 1;
  }

  lemma BeginsLoad()
    ensures Leads(ToReserve(), ByLookup(JobReserve), LoadBegun())
  {
    hide ReserveWrite, MissingKeys, Wanted;
    WantsOne();
    ReservesTemporary();
    assert [] + [OBJ] == [OBJ];
    assert DoJobReserve(ToReserve()) == LoadBegun();
  }

  lemma ClearsFlag()
    ensures Promote(LOADING, [KEY]) == WRITING
  {
    assert Promote(LOADING, [KEY]).entries == WRITING.entries;
  }

  lemma PromotesLate()
    ensures Leads(LoadBegun(), ByCall(RetrievePromote(3)), PromotedLate())
  {
    hide Promote;
    ClearsFlag();
    assert LoadBegun().handlers[3] == Reading(RID, [KEY], [OBJ], [BLOB]);
    var t := DoRetrievePromote(LoadBegun(), 3);
    assert t.handlers == PromotedLate().handlers && t.l1 == PromotedLate().l1;
  }

  /** Up to the moment the RETRIEVE's session is forgotten and its chunk evicted. */
  lemma RunToGone() returns (states: seq<State>, steps: seq<Step>)
    ensures |states| == |steps| + 1 && Run(states, steps) && states[|steps|] == Gone()
  {
    hide CacheWitness.Found, Resolved, Retrieving, Sent, Ended, Released, Forgotten, Picked, Gone, Leads, Run;
    states, steps := RunToFound();
    Resolves();
    states, steps := Extend(states, steps, ByLookup(JobResolve), Resolved());
    Retrieves();
    states, steps := Extend(states, steps, ByCall(Retrieve(3, RID, [KEY])), Retrieving());
    Sends();
    states, steps := Extend(states, steps, ByCall(RetrieveCopy(3)), Sent());
    EndsAfterReply();
    states, steps := Extend(states, steps, ByCall(EndFirst(4, RID)), Ended());
    Releases();
    states, steps := Extend(states, steps, ByCall(ReleaseFinish(4)), Released());
    Forgets();
    states, steps := Extend(states, steps, ByCall(EndSecond(4)), Forgotten());
    Picks();
    states, steps := Extend(states, steps, ByKeeper(EvictPick([KEY])), Picked());
    EvictsIt();
    states, steps := Extend(states, steps, ByKeeper(EvictDelete), Gone());
  }

  /** On to the moment another lookup begins to load the chunk again. */
  lemma RunToLoadBegun() returns (states: seq<State>, steps: seq<Step>)
    ensures |states| == |steps| + 1 && Run(states, steps) && states[|steps|] == LoadBegun()
  {
    hide Gone, AskedAgain, TakenUpAgain, Missed, FoundBelow, ToReserve, LoadBegun, Leads, Run;
    states, steps := RunToGone();
    AsksAgain();
    states, steps := Extend(states, steps, ByLookup(StartLookup(RID2, [KEY], true)), AskedAgain());
    TakesUpAgain();
    states, steps := Extend(states, steps, ByLookup(JobTake), TakenUpAgain());
    Misses();
    states, steps := Extend(states, steps, ByLookup(JobPrefix), Missed());
    AsksBelow();
    states, steps := Extend(states, steps, ByLookup(JobAsk(0)), FoundBelow());
    Answers();
    states, steps := Extend(states, steps, ByLookup(JobAnswered), ToReserve());
    BeginsLoad();
    states, steps := Extend(states, steps, ByLookup(JobReserve), LoadBegun());
  }

  /**
   * The reply is sent, the session ended, the chunk evicted and another
   * lookup begins to load it again before the first call promotes: what the
   * worker is writing is then not temporary.
   */
  lemma LatePromoteHappens() returns (states: seq<State>, steps: seq<Step>)
    ensures |states| == |steps| + 1 && Run(states, steps)
    ensures var s := states[|steps|];
            && KEY in JobWrites(s.job) && KEY in s.l1.entries
            && s.l1.entries[KEY].writeLocked && !s.l1.entries[KEY].isTemporary
  {
    hide LoadBegun, PromotedLate, Leads, Run;
    states, steps := RunToLoadBegun();
    PromotesLate();
    states, steps := Extend(states, steps, ByCall(RetrievePromote(3)), PromotedLate());
    LateState();
  }

  lemma LateState()
    ensures var s := PromotedLate();
            && KEY in JobWrites(s.job) && KEY in s.l1.entries
            && s.l1.entries[KEY].writeLocked && !s.l1.entries[KEY].isTemporary
  {
    assert [KEY][0..1][0] == KEY;
  }
}
