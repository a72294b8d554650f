// A run in which a lookup finds its chunk in an adapter only, and loads it.
module CacheLoadWitness {
  import opened Types
  import opened Memory
  import opened Eviction
  import opened LockProtocol
  import opened Sessions
  import opened Cache
  import opened CacheWitness
  import opened CacheLatePromote

  const LOADED := L1(map[KEY := Entry(OBJ, false, 1, true)], CARVED, [KEY])

  ghost function ToPick(): State {
    LoadBegun().(job := Loading(LOOKUP2, 0, [1], [OBJ], [0], None, 0))
  }

  ghost function Asking(): State {
    LoadBegun().(job := Loading(LOOKUP2, 0, [1], [OBJ], [], Some(0), 0))
  }

  ghost function Loaded(): State {
    LoadBegun().(job := Loading(LOOKUP2, 0, [1], [OBJ], [], Some(0), 1))
  }

  ghost function NothingLeft(): State {
    LoadBegun().(job := Loading(LOOKUP2, 0, [1], [OBJ], [], None, 1))
  }

  ghost function ToPublish(): State {
    LoadBegun().(job := Publishing(LOOKUP2, 0, [OBJ], 1))
  }

  ghost function ToTrim(): State {
    LoadBegun().(l1 := LOADED, job := Trimming(LOOKUP2, 0, [OBJ], 1), fromStore := {})
  }

  ghost function ToResolve(): State {
    ToTrim().(job := Resolving(LOOKUP2, 0, 1))
  }

  ghost function Answered(): State {
    ToTrim().(job := Idle, ses := Sessions(map[RID2 := Some((0, 1))], map[RID2 := [KEY]], []))
  }

  // The steps.

  lemma OrdersOne()
    ensures BestFirst([0], [1])
  {
  }

  lemma Reserves()
    ensures Leads(LoadBegun(), ByLookup(JobReserved([0])), ToPick())
  {
    hide BestFirst;
    OrdersOne();
    assert [1][..0] == [];
    assert Best([]) == 0;
    assert Best([1]) == 1;
    assert DoJobReserved(LoadBegun(), [0]) == ToPick();
  }

  lemma PicksAdapter()
    ensures Leads(ToPick(), ByLookup(JobPick), Asking())
  {
    assert [0][1..] == [];
    assert DoJobPick(ToPick()) == Asking();
  }

  lemma HasRecord()
    ensures LoadingFrom(Asking()) && NextRecord(Asking()) == Some(BLOB)
  {
    assert MissingKeys(Asking().job) == [KEY];
  }

  lemma Loads()
    ensures Leads(Asking(), ByLookup(JobLoad(BLOB)), Loaded())
  {
    hide NextRecord;
    HasRecord();
    assert WriteSlice([7], OBJ, BLOB) == [7];
    assert DoJobLoad(Asking(), BLOB) == Loaded();
  }

  lemma LeavesAdapter()
    ensures Leads(Loaded(), ByLookup(JobNext), NothingLeft())
  {
    assert DoJobNext(Loaded()) == NothingLeft();
  }

  lemma LeavesLoad()
    ensures Leads(NothingLeft(), ByLookup(JobLoaded), ToPublish())
  {
    assert DoJobLoaded(NothingLeft()) == ToPublish();
  }

  lemma PublishesOne()
    ensures FinishWriteAndHold(LOADING, [KEY]) == LOADED
  {
    assert [KEY][1..] == [] && [KEY][..0] == [];
    assert Touch([], []) == [] && Touch([], [KEY]) == [KEY];
    assert Count([KEY], KEY) == 1;
    assert FinishWriteAndHold(LOADING, [KEY]).entries == LOADED.entries;
  }

  lemma Publishes()
    ensures Leads(ToPublish(), ByLookup(JobPublish), ToTrim())
  {
    hide FinishWriteAndHold;
    PublishesOne();
    assert Part([KEY], 0, 1) == [KEY];
    assert DoJobPublish(ToPublish()).fromStore == {};
    assert DoJobPublish(ToPublish()) == ToTrim();
  }

  lemma TrimsNone()
    ensures Sized(LOADED) && Delete(LOADED, [], true) == LOADED
  {
  }

  lemma Trims()
    ensures Leads(ToTrim(), ByLookup(JobTrim), ToResolve())
  {
    hide Delete, Sized;
    TrimsNone();
    assert Part([KEY], 1, 1) == [];
    assert DoJobTrim(ToTrim()) == ToResolve();
  }

  lemma OneKey()
    ensures FromKeys([KEY]) == [KEY]
  {
    assert [KEY][..0] == [];
    assert FromKeys([]) == [];
  }

  lemma Resolves()
    ensures Leads(ToResolve(), ByLookup(JobResolve), Answered())
  {
    hide FromKeys;
    OneKey();
    assert [KEY][..1] == [KEY];
    assert DoJobResolve(ToResolve()) == Answered();
  }

  /** The chunk has been evicted; the adapter still has it, and QUERY answers (0, 1). */
  lemma LoadHappens() returns (states: seq<State>, steps: seq<Step>)
    ensures |states| == |steps| + 1 && Run(states, steps)
    ensures var s := states[|steps|];
            && RID2 in s.ses.hits && s.ses.hits[RID2] == Some((0, 1)) && HeldKeys(s.ses, RID2) == [KEY]
            && CanRead(s.l1.entries, KEY) && BytesAt(s, s.l1.entries[KEY].obj) == BLOB
  {
    hide LoadBegun, ToPick, Asking, Loaded, NothingLeft, ToPublish, ToTrim, ToResolve, Answered, Leads, Run;
    states, steps := RunToLoadBegun();
    Reserves();
    states, steps := Extend(states, steps, ByLookup(JobReserved([0])), ToPick());
    PicksAdapter();
    states, steps := Extend(states, steps, ByLookup(JobPick), Asking());
    Loads();
    states, steps := Extend(states, steps, ByLookup(JobLoad(BLOB)), Loaded());
    LeavesAdapter();
    states, steps := Extend(states, steps, ByLookup(JobNext), NothingLeft());
    LeavesLoad();
    states, steps := Extend(states, steps, ByLookup(JobLoaded), ToPublish());
    Publishes();
    states, steps := Extend(states, steps, ByLookup(JobPublish), ToTrim());
    Trims();
    states, steps := Extend(states, steps, ByLookup(JobTrim), ToResolve());
    Resolves();
    states, steps := Extend(states, steps, ByLookup(JobResolve), Answered());
    AnswersWithTheRecord();
  }

  lemma AnswersWithTheRecord()
    ensures var s := Answered();
            && RID2 in s.ses.hits && s.ses.hits[RID2] == Some((0, 1)) && HeldKeys(s.ses, RID2) == [KEY]
            && CanRead(s.l1.entries, KEY) && BytesAt(s, s.l1.entries[KEY].obj) == BLOB
  {
    assert ReadSlice([7], OBJ) == BLOB;
  }
}
