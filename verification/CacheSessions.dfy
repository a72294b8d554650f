// What a client may rely on: advertised hits stay held until it releases
// them, and STOREs that send what they should never leave locks behind.
module CacheSessions {
  import opened Types
  import opened LockProtocol
  import opened Sessions
  import opened Cache
  import opened CacheInv
  import opened CacheFrames
  import opened CacheBooks
  import opened CacheStore
  import opened CacheSafety

  // ---- advertised hits ---------------------------------------------------------------

  ghost predicate TakenBefore(states: seq<State>, steps: seq<Step>, n: nat, rid: string, k: ChunkKey)
    requires n < |states| == |steps| + 1
  {
    exists j :: 0 <= j < n && TakesFrom(states[j], steps[j], rid, k)
  }

  ghost predicate Advertises(s: State, rid: string, hits: (nat, nat)) {
    rid in s.ses.hits && s.ses.hits[rid] == Some(hits)
  }

  lemma CallSessions(s: State, a: CallStep, rid: string, hits: (nat, nat), k: ChunkKey)
    requires CallEnabled(s, a) && Advertises(CallApply(s, a), rid, hits)
    ensures Advertises(s, rid, hits) && CallApply(s, a).asked == s.asked
    ensures k in HeldKeys(s.ses, rid) ==> k in HeldKeys(CallApply(s, a).ses, rid) || TakesFrom(s, ByCall(a), rid, k)
  {
    hide FinishRead, Finds, Sized, Promote;
  }

  lemma LookupSessions(s: State, a: LookupStep, rid: string, hits: (nat, nat))
    requires LookupEnabled(s, a) && Advertises(LookupApply(s, a), rid, hits) && rid in s.asked
    ensures rid in LookupApply(s, a).asked && LookupApply(s, a).asked[rid] == s.asked[rid]
    ensures || (Advertises(s, rid, hits) && HeldKeys(LookupApply(s, a).ses, rid) == HeldKeys(s.ses, rid))
            || (ResolvesFor(s, ByLookup(a), rid) && hits == (s.job.l1, s.job.loaded)
                && HeldKeys(LookupApply(s, a).ses, rid) == FromKeys(Part(s.job.msg.keys, 0, s.job.l1 + s.job.loaded)))
  {
    hide ReserveWrite, ReserveReadPrefix, FinishRead, Finds, FinishWriteAndHold, Delete, BestFirst, FromKeys;
  }

  /** The session's first hits.0 + hits.1 keys, in the order it asked for them. */
  ghost predicate AllHeld(s: State, rid: string, hits: (nat, nat)) {
    rid in s.asked && hits.0 + hits.1 <= |s.asked[rid]| && HeldKeys(s.ses, rid) == s.asked[rid][..hits.0 + hits.1]
  }

  /** The moment a lookup is published, its session holds exactly the advertised prefix of its key list. */
  lemma ResolveHoldsPrefix(s: State, rid: string, hits: (nat, nat))
    requires Inv(s) && ResolvesFor(s, ByLookup(JobResolve), rid) && CanJobResolve(s)
               && Advertises(DoJobResolve(s), rid, hits)
    requires rid in s.ses.hits
    ensures AllHeld(DoJobResolve(s), rid, hits) && hits == (s.job.l1, s.job.loaded)
  {
    hide Books, TempsOk, ContentOk, RecordsOk, CoverOk, HandlersOk, QueueOk, SessionsOk, MirrorOk, CoreOk, FromKeys;
    var hitKeys := s.job.msg.keys[..s.job.l1 + s.job.loaded];
    assert LookupOk(s, s.job.msg);
    FromKeysNoDup(hitKeys);
    assert NoDup(hitKeys);
  }

  /** One step of: advertised keys are held until taken. */
  lemma HeldStep(s: State, step: Step, rid: string, hits: (nat, nat), k: ChunkKey)
    requires Inv(s) && Enabled(s, step) && Advertises(Apply(s, step), rid, hits)
    requires rid in s.asked && rid in Apply(s, step).asked && s.asked[rid] == Apply(s, step).asked[rid]
    ensures || (AllHeld(Apply(s, step), rid, hits))
            || (Advertises(s, rid, hits) && (k in HeldKeys(s.ses, rid) ==>
               k in HeldKeys(Apply(s, step).ses, rid) || TakesFrom(s, step, rid, k)))
  {
    hide Inv, StoreEnabled, LookupEnabled, KeeperEnabled, CallEnabled, StoreApply, LookupApply, KeeperApply,
         CallApply, TakesFrom, AllHeld;
    match step
    case ByStore(a) => StoreFrame(s, a);
    case ByKeeper(a) => KeeperFrame(s, a);
    case ByCall(a) => CallSessions(s, a, rid, hits, k);
    case ByLookup(a) =>
      LookupSessions(s, a, rid, hits);
      if ResolvesFor(s, step, rid) {
        ResolveStep(s, rid, hits);
      }
  }

  lemma ResolveStep(s: State, rid: string, hits: (nat, nat))
    requires Inv(s) && ResolvesFor(s, ByLookup(JobResolve), rid) && LookupEnabled(s, JobResolve)
    requires Advertises(LookupApply(s, JobResolve), rid, hits)
    ensures AllHeld(LookupApply(s, JobResolve), rid, hits)
  {
    hide Inv, AllHeld;
    ResolveHoldsPrefix(s, rid, hits);
  }

  lemma AskedStays(s: State, step: Step, rid: string, hits: (nat, nat))
    requires SessionsOk(s) && Enabled(s, step) && Advertises(Apply(s, step), rid, hits)
    ensures rid in s.asked && rid in Apply(s, step).asked && Apply(s, step).asked[rid] == s.asked[rid]
  {
    hide StoreEnabled, LookupEnabled, KeeperEnabled, CallEnabled, StoreApply, LookupApply, KeeperApply,
         CallApply, ResolvesFor, SessionOk;
    match step
    case ByStore(a) => StoreFrame(s, a);
    case ByLookup(a) => LookupFrame(s, a);
    case ByKeeper(a) => KeeperFrame(s, a);
    case ByCall(a) => CallFrame(s, a);
  }

  lemma SessionsOf(s: State)
    requires Inv(s)
    ensures SessionsOk(s)
  {
  }

  /**
   * From the moment hits (l1, l2) are advertised for a session, each of the
   * first l1 + l2 keys of its lookup is held, and so readable, until a
   * release of that session takes it.
   */
  lemma {:induction false} AdvertisedIsHeld(states: seq<State>, steps: seq<Step>, n: nat, rid: string, hits: (nat, nat),
                                            i: nat)
    requires Run(states, steps) && n < |states| && Advertises(states[n], rid, hits) && i < hits.0 + hits.1
    ensures rid in states[n].asked && hits.0 + hits.1 <= |states[n].asked[rid]|
    ensures var k := states[n].asked[rid][i];
            || (k in HeldKeys(states[n].ses, rid) && CanRead(states[n].l1.entries, k))
            || TakenBefore(states, steps, n, rid, k)
  {
    hide Inv, Enabled, Apply, TakesFrom, Init, AllHeld, Advertises;
    if n == 0 {
      NoneAdvertised(states[0], rid, hits);
    } else {
      var s, step, t := states[n - 1], steps[n - 1], states[n];
      RunKeepsInv(states, steps, n - 1);
      RunKeepsInv(states, steps, n);
      RunStep(states, steps, n - 1);
      SessionsOf(s);
      AskedStays(s, step, rid, hits);
      if AllHeld(t, rid, hits) {
        AllHeldAt(t, rid, hits, i);
      } else {
        HeldStep(s, step, rid, hits, ChunkKey([], "", 0));
        AdvertisedIsHeld(states, steps, n - 1, rid, hits, i);
        var k := s.asked[rid][i];
        HeldStep(s, step, rid, hits, k);
        if k in HeldKeys(t.ses, rid) {
          HeldReads(t, rid, k);
        }
      }
    }
  }

  lemma NoneAdvertised(s: State, rid: string, hits: (nat, nat))
    requires Init(s)
    ensures !Advertises(s, rid, hits)
  {
  }

  lemma HeldReads(s: State, rid: string, k: ChunkKey)
    requires Inv(s) && k in HeldKeys(s.ses, rid)
    ensures CanRead(s.l1.entries, k)
  {
    CoreLocksOf(s);
    assert k in Claim(s, Reads, Session(rid));
    HolderReads(s, Session(rid), k);
  }

  lemma AllHeldAt(s: State, rid: string, hits: (nat, nat), i: nat)
    requires Inv(s) && AllHeld(s, rid, hits) && i < hits.0 + hits.1
    ensures rid in s.asked && hits.0 + hits.1 <= |s.asked[rid]|
    ensures s.asked[rid][i] in HeldKeys(s.ses, rid) && CanRead(s.l1.entries, s.asked[rid][i])
  {
    assert s.asked[rid][..hits.0 + hits.1][i] == s.asked[rid][i];
    HeldReads(s, rid, s.asked[rid][i]);
  }

  // ---- well-formed STOREs ---------------------------------------------------------------

  /** A STORE message with one blob of the right size per key. */
  ghost predicate WellSent(step: Step) {
    step.ByStore? && step.store.StoreReserve? ==>
      |step.store.chunks| == |step.store.keys| && forall b :: b in step.store.chunks ==> |b| == step.store.n
  }

  ghost predicate TidyHandler(h: Handler) {
    !h.Dead? && (h.Storing? ==> h.extra == [] && forall it :: it in h.items ==> |it.blob| == it.obj.size)
  }

  ghost predicate Tidy(s: State) {
    forall id :: id in s.handlers ==> TidyHandler(s.handlers[id])
  }

  lemma ReserveTidy(s: State, keys: seq<ChunkKey>, chunks: seq<Blob>, n: nat)
    requires L1Inv(s.l1) && NoDup(keys) && n > 0 && |chunks| == |keys| && forall b :: b in chunks ==> |b| == n
    ensures var got := ReserveWrite(s.l1, keys, n, false).1;
            var sent := Sent(keys, chunks);
            TidyHandler(Storing(ItemsOf(got, keys[..sent], chunks), TakenKeys(got, keys[sent..])))
  {
    var (m, got) := ReserveWrite(s.l1, keys, n, false);
    var sent := Sent(keys, chunks);
    assert keys[..sent] == keys && keys[sent..] == [];
    ReserveWriteReserves(s.l1, keys, n, false);
    ItemsOfEffect(got, keys, chunks);
    hide ReserveWrite, L1Inv, ItemsOf, ItemKeys;
    forall it | it in ItemsOf(got, keys, chunks)
      ensures |it.blob| == it.obj.size
    {
      assert it.key in keys && got[it.key].Some?;
    }
  }

  lemma TidyItem(h: Handler, j: nat, data: Blob)
    requires h.Storing? && TidyHandler(h) && j < |h.items|
    ensures TidyHandler(h.(items := h.items[j := h.items[j].(done := data == h.items[j].blob)]))
  {
  }

  lemma StoreKeepsTidy(s: State, a: StoreStep)
    requires Inv(s) && Tidy(s) && StoreEnabled(s, a) && WellSent(ByStore(a))
    ensures Tidy(StoreApply(s, a)) && !a.StoreRaise?
  {
    hide Inv, TidyHandler, ReserveWrite, ItemsOf, TakenKeys, FinishWrite;
    match a
    case StoreReserve(id, keys, chunks, n) =>
      CoreOf(s);
      ReserveTidy(s, keys, chunks, n);
    case StoreCopy(id, j, data) => TidyItem(s.handlers[id], j, data);
    case StoreRaise(id, j) => TidyMeans(s.handlers[id]);
    case StoreFinish(id) => TidyMeans(s.handlers[id]);
  }

  lemma CoreOf(s: State)
    requires Inv(s)
    ensures L1Inv(s.l1)
  {
  }

  lemma TidyMeans(h: Handler)
    requires TidyHandler(h) && h.Storing?
    ensures h.extra == [] && forall j: nat :: j < |h.items| ==> |h.items[j].blob| == h.items[j].obj.size
  {
  }

  lemma CallKeepsTidy(s: State, a: CallStep)
    requires CallEnabled(s, a) && Tidy(s)
    ensures Tidy(CallApply(s, a))
  {
    hide FinishRead, Finds, Sized, TakeReleasedOf, Promote, Close;
  }

  lemma {:induction false} RunKeepsTidy(states: seq<State>, steps: seq<Step>, n: nat)
    requires Run(states, steps) && n < |states| && forall j :: 0 <= j < n ==> WellSent(steps[j])
    ensures Tidy(states[n])
  {
    hide Inv, StoreEnabled, LookupEnabled, KeeperEnabled, CallEnabled, StoreApply, LookupApply, KeeperApply,
         CallApply, TidyHandler;
    if n > 0 {
      var s := states[n - 1];
      RunKeepsTidy(states, steps, n - 1);
      RunKeepsInv(states, steps, n - 1);
      RunStep(states, steps, n - 1);
      match steps[n - 1]
      case ByStore(a) => StoreKeepsTidy(s, a);
      case ByLookup(a) => LookupFrame(s, a);
      case ByKeeper(a) => KeeperFrame(s, a);
      case ByCall(a) => CallKeepsTidy(s, a);
    }
  }

  /**
   * When every STORE sends exactly one blob of the chunk size per key, none
   * ever raises, and each write-locked entry belongs to a STORE that will
   * finish or to the prefetch worker.
   */
  lemma WellSentNeverStrands(states: seq<State>, steps: seq<Step>, n: nat, k: ChunkKey)
    requires Run(states, steps) && n < |states| && forall j :: 0 <= j < n ==> WellSent(steps[j])
    requires k in states[n].l1.entries && states[n].l1.entries[k].writeLocked
    ensures (exists id :: IsStoring(states[n], id) && k in ItemKeys(states[n].handlers[id].items))
              || k in JobWrites(states[n].job)
    ensures forall id, j: nat :: !CanStoreRaise(states[n], id, j)
  {
    hide Run, Inv;
    var s := states[n];
    RunKeepsTidy(states, steps, n);
    var o := WriteLockIsExclusive(states, steps, n, k);
    assert k in Claim(s, Writes, o);
    if o.Call? {
      assert TidyHandler(s.handlers[o.id]);
      assert IsStoring(s, o.id) && k in ItemKeys(s.handlers[o.id].items);
    }
    forall id, j: nat
      ensures !CanStoreRaise(s, id, j)
    {
      if IsStoring(s, id) && j < |s.handlers[id].items| {
        assert s.handlers[id].items[j] in s.handlers[id].items;
      }
    }
  }
}
