// No actor is ever stuck: every lookup it makes finds what it needs, and each
// actor that is in the middle of its work has a step it can take.
module CacheLive {
  import opened Types
  import opened LockProtocol
  import opened Sessions
  import opened Cache
  import opened CacheInv
  import opened CacheFrames
  import opened CacheBooks
  import opened CacheCalls
  import opened CacheSafety

  // ---- lookups that cannot miss ---------------------------------------------------

  /**
   * In every reachable state: each finish_read about to run finds all its
   * keys, each finish_write finds its keys write-locked, and every slice that
   * may be freed has a free list to go to.
   */
  lemma NoLookupMisses(states: seq<State>, steps: seq<Step>, n: nat)
    requires Run(states, steps) && n < |states|
    ensures var s := states[n];
            && Sized(s.l1)
            && (forall id :: id in s.handlers && s.handlers[id].Dropping? ==> Finds(s.l1, s.handlers[id].keys))
            && (s.job.Returning? ==> Finds(s.l1, s.job.keys))
            && (s.mirror.Mirroring? ==> Finds(s.l1, s.mirror.locked))
            && (forall id, k :: IsStoring(s, id) && k in ItemKeys(s.handlers[id].items) ==>
               k in s.l1.entries && s.l1.entries[k].writeLocked)
            && (forall k :: k in JobWrites(s.job) ==> k in s.l1.entries && s.l1.entries[k].writeLocked)
            && (forall rid, k :: k in HeldKeys(s.ses, rid) ==> CanRead(s.l1.entries, k))
  {
    hide Run, TempsOk, ContentOk, RecordsOk, CoverOk, QueueOk, SessionsOk, L1Inv, Books, Sized, Finds;
    var s := states[n];
    RunKeepsInv(states, steps, n);
    InvIsSized(s.l1);
    CoreLocksOf(s);
    forall id | id in s.handlers && s.handlers[id].Dropping?
      ensures Finds(s.l1, s.handlers[id].keys)
    {
      assert HandlerOk(s, s.handlers[id]);
      ClaimsAreFound(s, Call(id), s.handlers[id].keys);
    }
    if s.job.Returning? {
      ClaimsAreFound(s, Worker, s.job.keys);
    }
    if s.mirror.Mirroring? {
      ClaimsAreFound(s, Mirror, s.mirror.locked);
    }
    forall id, k | IsStoring(s, id) && k in ItemKeys(s.handlers[id].items)
      ensures k in s.l1.entries && s.l1.entries[k].writeLocked
    {
      assert k in Claim(s, Writes, Call(id));
      WriterLocks(s, Call(id), k);
    }
    forall k | k in JobWrites(s.job)
      ensures k in s.l1.entries && s.l1.entries[k].writeLocked
    {
      assert k in Claim(s, Writes, Worker);
      WriterLocks(s, Worker, k);
    }
    forall rid, k | k in HeldKeys(s.ses, rid)
      ensures CanRead(s.l1.entries, k)
    {
      HeldIsSupplied(s, rid, k);
    }
  }

  // ---- handlers ---------------------------------------------------------------------

  /** The STORE's next move: copy the next chunk, raise on it, or finish. */
  lemma StoreHasStep(s: State, id: nat) returns (a: StoreStep)
    requires Inv(s) && IsStoring(s, id)
    ensures StoreEnabled(s, a) && !a.StoreReserve? && a.id == id
  {
    hide Books, TempsOk, ContentOk, RecordsOk, CoverOk, JobOk, QueueOk, SessionsOk, MirrorOk;
    var items := s.handlers[id].items;
    var j := NextItem(items);
    if j == |items| {
      a := StoreFinish(id);
      assert forall i :: 0 <= i < |items| ==> items[i].done;
    } else {
      assert HandlerOk(s, s.handlers[id]) && ItemOk(s, items[j]);
      OwnedApart(s.l1.entries, s.l1.pool, items[j].key, items[j].key);
      a := if |items[j].blob| != items[j].obj.size then StoreRaise(id, j) else StoreCopy(id, j, items[j].blob);
    }
  }

  ghost function NextItem(items: seq<Item>): (j: nat)
    ensures j <= |items| && (forall i :: 0 <= i < j ==> items[i].done) && (j < |items| ==> !items[j].done)
  {
    if items == [] || !items[0].done then 0 else 1 + NextItem(items[1..])
  }

  /** A RETRIEVE copies or promotes; a release takes, then drops what it took; an END_SESSION then forgets. */
  lemma CallHasStep(s: State, id: nat)
    requires Inv(s) && id in s.handlers
    ensures s.handlers[id].Reading? ==> CanRetrieveCopy(s, id) || CanRetrievePromote(s, id)
    ensures s.handlers[id].Releasing? ==> CanReleaseTake(s, id)
    ensures s.handlers[id].Dropping? ==> CanReleaseFinish(s, id)
    ensures s.handlers[id].Closing? ==> CanEndSecond(s, id)
  {
    hide TempsOk, ContentOk, RecordsOk, CoverOk, JobOk, QueueOk, SessionsOk, MirrorOk, L1Inv, Books;
    if s.handlers[id].Dropping? {
      assert HandlerOk(s, s.handlers[id]);
      ClaimsAreFound(s, Call(id), s.handlers[id].keys);
    }
  }

  /** A RETRIEVE of distinct held keys can always start. */
  lemma HeldCanBeRetrieved(s: State, id: nat, rid: string, keys: seq<ChunkKey>)
    requires Inv(s) && id !in s.handlers && NoDup(keys) && forall k :: k in keys ==> k in HeldKeys(s.ses, rid)
    ensures CanRetrieve(s, id, rid, keys)
  {
    forall k | k in keys
      ensures k in s.l1.entries
    {
      HeldIsSupplied(s, rid, k);
    }
  }

  /** Any STORE of distinct keys of one size, any first LOOKUP of a session, any FREE and END_SESSION can begin. */
  lemma RequestsCanStart(s: State, id: nat, rid: string, keys: seq<ChunkKey>, chunks: seq<Blob>, n: nat, count: nat)
    requires Inv(s) && id !in s.handlers && NoDup(keys) && OneGeometry(s, keys, n)
    ensures StoreEnabled(s, StoreReserve(id, keys, chunks, n))
    ensures rid !in s.asked ==>
              LookupEnabled(s, StartLookup(rid, keys, true)) && LookupEnabled(s, StartLookup(rid, [], false))
    ensures CallEnabled(s, FreeFirst(id, rid, count)) && CallEnabled(s, EndFirst(id, rid))
  {
  }

  /** The evictor can always pick its victims, and then delete those among them that are unused. */
  lemma EvictorHasStep(s: State, victims: seq<ChunkKey>)
    requires Inv(s)
    ensures KeeperEnabled(s, if s.victims == None then EvictPick(victims) else EvictDelete)
  {
    InvIsSized(s.l1);
  }

  // ---- write-back ------------------------------------------------------------------------

  /** Write-back always has something to do until its batch is in every adapter. */
  lemma MirrorHasStep(s: State) returns (a: KeeperStep)
    requires Inv(s) && (s.mirror != Waiting || s.pending != [])
    ensures KeeperEnabled(s, a) && !a.EvictPick? && !a.EvictDelete?
  {
    hide TempsOk, ContentOk, RecordsOk, CoverOk, JobOk, QueueOk, SessionsOk, HandlersOk, L1Inv, Books;
    match s.mirror
    case Waiting => a := MirrorTake;
    case Picked(_) => a := MirrorReserve;
    case Mirroring(locked, slices, done) =>
      if i: nat :| i < |done| && done[i] < |locked| {
        a := MirrorCopy(i);
      } else {
        ClaimsAreFound(s, Mirror, locked);
        a := MirrorFinish;
      }
  }

  // ---- the prefetch worker -----------------------------------------------------------------

  /** Adapter i goes behind those with at least its hits; earlier adapters are already placed. */
  ghost function Place(todo: seq<nat>, hits: seq<nat>, i: nat): seq<nat> {
    if todo == [] then [i]
    else
      var last := todo[|todo| - 1];
      if last < |hits| && i < |hits| && hits[last] < hits[i] then Place(todo[..|todo| - 1], hits, i) + [last]
      else todo + [i]
  }

  ghost function Order(hits: seq<nat>, n: nat): seq<nat> {
    if n == 0 then [] else Place(Order(hits, n - 1), hits, n - 1)
  }

  ghost predicate Ahead(hits: seq<nat>, i: nat, j: nat) {
    i < |hits| && j < |hits| && (hits[i] > hits[j] || (hits[i] == hits[j] && i < j))
  }

  ghost predicate Sorted(todo: seq<nat>, hits: seq<nat>) {
    forall a, b :: 0 <= a < b < |todo| ==> Ahead(hits, todo[a], todo[b])
  }

  ghost predicate AllAhead(hits: seq<nat>, todo: seq<nat>, j: nat) {
    forall a :: 0 <= a < |todo| ==> Ahead(hits, todo[a], j)
  }

  /** Adapter i joins those numbered below it, and stays behind whatever all of them and i are behind of. */
  lemma {:induction false} PlaceSorts(todo: seq<nat>, hits: seq<nat>, i: nat)
    requires i < |hits| && Sorted(todo, hits) && forall a :: 0 <= a < |todo| ==> todo[a] < i
    ensures Sorted(Place(todo, hits, i), hits)
    ensures forall j :: j in Place(todo, hits, i) <==> j in todo || j == i
    ensures forall j :: AllAhead(hits, todo, j) && Ahead(hits, i, j) ==> AllAhead(hits, Place(todo, hits, i), j)
  {
    if todo != [] {
      var init, last := todo[..|todo| - 1], todo[|todo| - 1];
      assert todo == init + [last];
      assert AllAhead(hits, init, last);
      if hits[last] < hits[i] {
        PlaceSorts(init, hits, i);
        assert AllAhead(hits, Place(init, hits, i), last);
        forall j | AllAhead(hits, todo, j) && Ahead(hits, i, j)
          ensures AllAhead(hits, Place(todo, hits, i), j)
        {
          assert forall a :: 0 <= a < |init| ==> init[a] == todo[a];
          assert AllAhead(hits, init, j) && Ahead(hits, todo[|todo| - 1], j);
        }
      } else {
        assert forall a :: 0 <= a < |init| ==> init[a] == todo[a];
        assert forall a :: 0 <= a < |todo| ==> Ahead(hits, todo[a], last) || todo[a] == last;
        assert AllAhead(hits, todo, i);
      }
    }
  }

  /** The adapters can always be put in load order. */
  lemma {:induction false} OrderSorts(hits: seq<nat>, n: nat)
    requires n <= |hits|
    ensures Sorted(Order(hits, n), hits)
    ensures forall i: nat :: i in Order(hits, n) <==> i < n
  {
    if n > 0 {
      var before := Order(hits, n - 1);
      OrderSorts(hits, n - 1);
      forall a | 0 <= a < |before|
        ensures before[a] < n - 1
      {
        assert before[a] in before;
      }
      PlaceSorts(before, hits, n - 1);
    }
  }

  lemma SortedIsBestFirst(todo: seq<nat>, hits: seq<nat>)
    requires Sorted(todo, hits) && forall i: nat :: i in todo <==> i < |hits|
    ensures BestFirst(todo, hits)
  {
    forall a, b | 0 <= a < b < |todo|
      ensures todo[a] != todo[b]
    {
      assert Ahead(hits, todo[a], todo[b]);
    }
    assert NoDup(todo);
    forall a | 0 <= a < |todo|
      ensures todo[a] < |hits|
    {
      assert todo[a] in todo;
    }
    hide NoDup;
    forall a, b | 0 <= a < b < |todo|
      ensures hits[todo[a]] > hits[todo[b]] || (hits[todo[a]] == hits[todo[b]] && todo[a] < todo[b])
    {
      assert Ahead(hits, todo[a], todo[b]);
    }
  }

  lemma OrderIsBestFirst(hits: seq<nat>)
    ensures BestFirst(Order(hits, |hits|), hits)
  {
    OrderSorts(hits, |hits|);
    hide Order, Sorted, BestFirst;
    SortedIsBestFirst(Order(hits, |hits|), hits);
  }

  /** Adapter numbers the worker has noted are in range. */
  ghost predicate AdaptersOk(s: State) {
    match s.job
    case Reserving(_, _, hits, _, _) => |hits| <= |s.l2|
    case Loading(_, _, hits, _, _, from, _) => |hits| <= |s.l2| && (from.Some? ==> from.value < |s.l2|)
    case _ => true
  }

  lemma LookupKeepsAdapters(s: State, a: LookupStep)
    requires LookupEnabled(s, a) && AdaptersOk(s)
    ensures AdaptersOk(LookupApply(s, a))
  {
    hide ReserveWrite, ReserveReadPrefix, FinishRead, Finds, FinishWriteAndHold, Delete, ResolveOf, BestFirst,
         MissingKeys, Part;
  }

  lemma {:induction false} RunKeepsAdapters(states: seq<State>, steps: seq<Step>, n: nat)
    requires Run(states, steps) && n < |states|
    ensures AdaptersOk(states[n])
  {
    if n > 0 {
      hide Init, LookupEnabled, LookupApply, AdaptersOk;
      RunKeepsAdapters(states, steps, n - 1);
      AdaptersStep(states, steps, n - 1);
    }
  }

  lemma AdaptersStep(states: seq<State>, steps: seq<Step>, n: nat)
    requires Run(states, steps) && n < |steps| && AdaptersOk(states[n])
    ensures AdaptersOk(states[n + 1])
  {
    hide Init, StoreEnabled, LookupEnabled, KeeperEnabled, CallEnabled, StoreApply, LookupApply, KeeperApply,
         CallApply, Smooth;
    RunStep(states, steps, n);
    RunSmooth(states, steps, n);
    SmoothAdapters(states[n], states[n + 1]);
    match steps[n]
    case ByStore(a) => StoreFrame(states[n], a);
    case ByLookup(a) => LookupKeepsAdapters(states[n], a);
    case ByKeeper(a) => KeeperFrame(states[n], a);
    case ByCall(a) => CallFrame(states[n], a);
  }

  /** The next record fits its slot, which lies inside the pool. */
  lemma NextRecordFits(s: State)
    requires CoreOk(s) && RecordsOk(s) && LoadingFrom(s) && NextRecord(s).Some?
    requires LoadOk(s, s.job.msg, s.job.l1, s.job.objs, s.job.loaded)
    ensures CanJobLoad(s, NextRecord(s).value)
  {
    var job := s.job;
    var k := MissingKeys(job)[job.loaded];
    var ks := Part(job.msg.keys, job.l1, job.l1 + |job.objs|);
    assert ks[job.loaded] == k && ObjAt(s, k, job.objs[job.loaded]);
    assert RecordOk(s, job.from.value, k);
    OwnedApart(s.l1.entries, s.l1.pool, k, k);
  }

  /** The worker can copy the next record whole, or move on. */
  lemma LoadHasStep(s: State) returns (a: LookupStep)
    requires Inv(s) && AdaptersOk(s) && s.job.Loading?
    ensures LookupEnabled(s, a) && !a.StartLookup?
  {
    hide Books, TempsOk, ContentOk, CoverOk, HandlersOk, QueueOk, SessionsOk, MirrorOk, CoreOk, RecordsOk,
         LoadOk, NextRecord;
    if s.job.from == None {
      a := if LoadOver(s.job) then JobLoaded else JobPick;
    } else if NextRecord(s).None? {
      a := JobNext;
    } else {
      NextRecordFits(s);
      a := JobLoad(NextRecord(s).value);
    }
  }

  /** All adapters have answered, or one can still be asked. */
  lemma LookingHasStep(s: State) returns (a: LookupStep)
    requires s.job.Looking?
    ensures LookupEnabled(s, a) && !a.StartLookup?
  {
    hide MissingKeys;
    if i: nat :| i < |s.l2| && i !in s.job.answers && MissingKeys(s.job) != [] {
      a := JobAsk(i);
    } else {
      a := JobAnswered;
    }
  }

  lemma ReservingHasStep(s: State) returns (a: LookupStep)
    requires s.job.Reserving?
    ensures LookupEnabled(s, a) && !a.StartLookup?
  {
    hide MissingKeys, BestFirst, Order, Wanted;
    OrderIsBestFirst(s.job.hits);
    a := if CanJobReserve(s) then JobReserve else JobReserved(Order(s.job.hits, |s.job.hits|));
  }

  /** Past the load, the keys and holds the worker needs are all there. */
  lemma LateHasStep(s: State) returns (a: LookupStep)
    requires Inv(s) && (s.job.Trimming? || s.job.Resolving? || s.job.Returning?)
    ensures LookupEnabled(s, a) && !a.StartLookup?
  {
    hide TempsOk, ContentOk, RecordsOk, CoverOk, HandlersOk, QueueOk, SessionsOk, MirrorOk, L1Inv, Books, Sized, Finds;
    InvIsSized(s.l1);
    if s.job.Returning? {
      ClaimsAreFound(s, Worker, s.job.keys);
    }
    a := if s.job.Trimming? then JobTrim else if s.job.Resolving? then JobResolve else JobReturn;
  }

  /** The prefetch worker is never stuck on a lookup it has taken up, and takes up the next one. */
  lemma WorkerHasStep(states: seq<State>, steps: seq<Step>, n: nat) returns (a: LookupStep)
    requires Run(states, steps) && n < |states| && (states[n].job != Idle || states[n].ses.jobs != [])
    ensures LookupEnabled(states[n], a) && !a.StartLookup?
  {
    hide Run, Inv, AdaptersOk;
    var s := states[n];
    RunKeepsInv(states, steps, n);
    RunKeepsAdapters(states, steps, n);
    match s.job
    case Idle => a := JobTake;
    case Fresh(_) => a := JobPrefix;
    case Looking(_, _, _) => a := LookingHasStep(s);
    case Reserving(_, _, _, _, _) => a := ReservingHasStep(s);
    case Loading(_, _, _, _, _, _, _) => a := LoadHasStep(s);
    case Publishing(_, _, _, _) => a := JobPublish;
    case _ => a := LateHasStep(s);
  }
}
