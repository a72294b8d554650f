// What becomes of the temporary flag over whole runs: who sets it, the one
// thing that clears it, and what an entry without it is good for.
module CacheFlags {
  import opened Types
  import opened LockProtocol
  import opened Sessions
  import opened Cache
  import opened CacheInv
  import opened CacheFrames
  import opened CacheBooks
  import opened CachePrefetch
  import opened CacheSafety

  /** The step is the promote of a RETRIEVE that named k, whoever holds k by now. */
  ghost predicate Promotes(s: State, step: Step, k: ChunkKey) {
    && step.ByCall? && step.call.RetrievePromote? && CanRetrievePromote(s, step.call.id)
    && k in s.handlers[step.call.id].keys
  }

  /** Between the two entry tables k keeps its flag unless `cleared`, is not locked anew, and appears only locked. */
  ghost predicate Flagged(l: Entries, m: Entries, k: ChunkKey, cleared: bool, temporary: bool) {
    && (k in l && k in m ==>
          (m[k].isTemporary <==> l[k].isTemporary && !cleared) && (m[k].writeLocked ==> l[k].writeLocked))
    && (k !in l && k in m ==> m[k].writeLocked && m[k].isTemporary == temporary)
  }

  /** What is readable and not temporary is still there. */
  ghost predicate Stays(l: Entries, m: Entries, k: ChunkKey) {
    CanRead(l, k) && !l[k].isTemporary ==> k in m
  }

  // ---- the sections ----------------------------------------------------------------

  lemma {:induction false} DropAllFlags(l: L1, keys: seq<ChunkKey>, k: ChunkKey)
    requires Sized(l) && Finds(l, keys)
    ensures var m := DropAll(l, keys).0.entries;
            && (k in m ==>
                  && k in l.entries && m[k].isTemporary == l.entries[k].isTemporary
                  && m[k].writeLocked == l.entries[k].writeLocked)
            && (k in l.entries && !l.entries[k].isTemporary ==> k in m)
    decreases keys
  {
    if keys != [] {
      DropAllFlags(DropOne(l, keys[0]), keys[1..], k);
    }
  }

  lemma FinishReadFlags(l: L1, keys: seq<ChunkKey>, k: ChunkKey)
    requires Sized(l) && Finds(l, keys)
    ensures Flagged(l.entries, FinishRead(l, keys).entries, k, false, true)
              && Stays(l.entries, FinishRead(l, keys).entries, k)
    ensures k in FinishRead(l, keys).entries ==> k in l.entries
  {
    DropAllFlags(l, keys, k);
  }

  lemma ReserveFlags(l: L1, keys: seq<ChunkKey>, n: nat, temporary: bool, k: ChunkKey)
    requires L1Inv(l) && NoDup(keys) && n > 0
    ensures var m := ReserveWrite(l, keys, n, temporary).0.entries;
            Flagged(l.entries, m, k, false, temporary) && Stays(l.entries, m, k)
  {
    hide L1Inv, ReserveWrite;
    ReserveWriteReserves(l, keys, n, temporary);
  }

  // ---- every step --------------------------------------------------------------------

  lemma InvL1(s: State)
    requires Inv(s)
    ensures L1Inv(s.l1)
  {
  }

  lemma StoreFlags(s: State, a: StoreStep, k: ChunkKey)
    requires Inv(s) && StoreEnabled(s, a)
    ensures var t := StoreApply(s, a);
            Flagged(s.l1.entries, t.l1.entries, k, false, false) && Stays(s.l1.entries, t.l1.entries, k)
  {
    hide Inv, ReserveWrite, ItemsOf, TakenKeys, L1Inv;
    InvL1(s);
    if a.StoreReserve? {
      ReserveFlags(s.l1, a.keys, a.n, false, k);
    }
  }

  lemma ReserveStepFlags(s: State, k: ChunkKey)
    requires Inv(s) && CanJobReserve(s)
    ensures var t := DoJobReserve(s);
            Flagged(s.l1.entries, t.l1.entries, k, false, true) && Stays(s.l1.entries, t.l1.entries, k)
  {
    hide Inv, ReserveWrite, MissingKeys, Wanted;
    InvL1(s);
    NextKey(s);
    var key := s.job.msg.keys[s.job.l1 + |s.job.objs|];
    ReserveFlags(s.l1, [key], SizeOf(s, key), true, k);
  }

  lemma UntouchedIsLocked(s: State, k: ChunkKey)
    requires Inv(s) && s.job.Trimming? && k in Untouched(s.job)
    ensures !CanRead(s.l1.entries, k)
  {
    CoreLocksOf(s);
    assert k in Claim(s, Writes, Worker);
    WriterLocks(s, Worker, k);
  }

  lemma TrimFlags(s: State, k: ChunkKey)
    requires Inv(s) && CanJobTrim(s)
    ensures var t := DoJobTrim(s);
            Flagged(s.l1.entries, t.l1.entries, k, false, true) && Stays(s.l1.entries, t.l1.entries, k)
    ensures k in DoJobTrim(s).l1.entries ==> k in s.l1.entries
  {
    hide Inv, Delete, L1Inv, Sized;
    InvL1(s);
    DeleteEffect(s.l1, Untouched(s.job), true);
    if k in Untouched(s.job) {
      UntouchedIsLocked(s, k);
    }
  }

  lemma LookupFlags(s: State, a: LookupStep, k: ChunkKey)
    requires Inv(s) && LookupEnabled(s, a)
    ensures var t := LookupApply(s, a);
            && Flagged(s.l1.entries, t.l1.entries, k, false, true) && Stays(s.l1.entries, t.l1.entries, k)
            && (k in t.l1.entries && k !in s.l1.entries ==> a == JobReserve)
  {
    hide Inv, ReserveWrite, FinishRead, Finds, Sized, Delete, BestFirst, FromKeys, DoJobReserve, CanJobReserve,
           DoJobTrim, CanJobTrim;
    match a
    case JobReserve => ReserveStepFlags(s, k);
    case JobTrim => TrimFlags(s, k);
    case JobReturn => FinishReadFlags(s.l1, s.job.keys, k);
    case _ =>
  }

  /** The evictor removes k, which nobody uses. */
  ghost predicate Evicts(s: State, step: Step, k: ChunkKey) {
    step == ByKeeper(EvictDelete) && s.victims.Some? && k in s.victims.value && k in s.l1.entries
        && !s.l1.entries[k].writeLocked && s.l1.entries[k].readCount == 0
  }

  lemma KeeperFlags(s: State, a: KeeperStep, k: ChunkKey)
    requires Inv(s) && KeeperEnabled(s, a)
    ensures var t := KeeperApply(s, a);
            && Flagged(s.l1.entries, t.l1.entries, k, false, true)
            && (Stays(s.l1.entries, t.l1.entries, k) || Evicts(s, ByKeeper(a), k))
            && (k in t.l1.entries ==> k in s.l1.entries)
  {
    hide Inv, FinishRead, Finds, Sized, Delete, L1Inv;
    InvL1(s);
    match a
    case MirrorFinish => FinishReadFlags(s.l1, s.mirror.locked, k);
    case EvictDelete => DeleteEffect(s.l1, s.victims.value, false);
    case _ =>
  }

  lemma CallFlags(s: State, a: CallStep, k: ChunkKey)
    requires CallEnabled(s, a)
    ensures var t := CallApply(s, a);
            && Flagged(s.l1.entries, t.l1.entries, k, Promotes(s, ByCall(a), k), true)
               && Stays(s.l1.entries, t.l1.entries, k)
            && (k in t.l1.entries ==> k in s.l1.entries)
  {
    hide FinishRead, Finds, Sized, TakeReleasedOf, Close;
    if a.ReleaseFinish? {
      FinishReadFlags(s.l1, s.handlers[a.id].keys, k);
    }
  }

  /**
   * Any step of anyone: a surviving entry stays temporary unless the step
   * promotes it; a new one is temporary exactly when the worker reserved it;
   * and only the evictor takes away what is readable and resident.
   */
  lemma StepFlags(s: State, step: Step, k: ChunkKey)
    requires Inv(s) && Enabled(s, step)
    ensures var t := Apply(s, step);
            && Flagged(s.l1.entries, t.l1.entries, k, Promotes(s, step, k), step == ByLookup(JobReserve))
            && (Stays(s.l1.entries, t.l1.entries, k) || Evicts(s, step, k))
  {
    hide Inv, StoreEnabled, LookupEnabled, KeeperEnabled, CallEnabled, StoreApply, LookupApply, KeeperApply, CallApply;
    match step
    case ByStore(a) => StoreFlags(s, a, k);
    case ByLookup(a) => LookupFlags(s, a, k);
    case ByKeeper(a) => KeeperFlags(s, a, k);
    case ByCall(a) => CallFlags(s, a, k);
  }

  // ---- over a run ------------------------------------------------------------------------

  /** Step r installed the entry that k has in state n. */
  ghost predicate Installed(states: seq<State>, steps: seq<Step>, r: nat, n: nat, k: ChunkKey)
    requires n < |states| == |steps| + 1
  {
    r < n && k !in states[r].l1.entries && forall m: nat :: r < m <= n ==> k in states[m].l1.entries
  }

  ghost predicate PromotedSince(states: seq<State>, steps: seq<Step>, r: nat, n: nat, k: ChunkKey)
    requires n < |states| == |steps| + 1
  {
    exists m: nat :: r < m < n && Promotes(states[m], steps[m], k)
  }

  /** The entry k has in state n was installed once, and is temporary exactly by its own history. */
  ghost predicate FlagHistory(states: seq<State>, steps: seq<Step>, r: nat, n: nat, k: ChunkKey)
    requires n < |states| == |steps| + 1
  {
    && Installed(states, steps, r, n, k)
    && (states[n].l1.entries[k].isTemporary <==>
       steps[r] == ByLookup(JobReserve) && !PromotedSince(states, steps, r, n, k))
  }

  lemma HistoryGoesOn(states: seq<State>, steps: seq<Step>, r: nat, n: nat, k: ChunkKey)
    requires Run(states, steps) && n + 1 < |states| && FlagHistory(states, steps, r, n, k)
               && k in states[n + 1].l1.entries
    ensures FlagHistory(states, steps, r, n + 1, k)
  {
    hide Inv, Enabled, Apply, Init, Promotes;
    RunKeepsInv(states, steps, n);
    RunStep(states, steps, n);
    StepFlags(states[n], steps[n], k);
    if PromotedSince(states, steps, r, n, k) {
      var m: nat :| r < m < n && Promotes(states[m], steps[m], k);
    }
  }

  /**
   * In every reachable state an entry is temporary if and only if the
   * prefetch worker reserved it and no RETRIEVE that named its key has been
   * promoted since.
   */
  lemma {:induction false} TemporaryIff(states: seq<State>, steps: seq<Step>, n: nat, k: ChunkKey) returns (r: nat)
    requires Run(states, steps) && n < |states| && k in states[n].l1.entries
    ensures FlagHistory(states, steps, r, n, k)
  {
    hide Inv, Enabled, Apply, Promotes, FlagHistory;
    assert n > 0 by {
      StartsBare(states[0], k);
    }
    if k in states[n - 1].l1.entries {
      r := TemporaryIff(states, steps, n - 1, k);
      HistoryGoesOn(states, steps, r, n - 1, k);
    } else {
      r := n - 1;
      RunKeepsInv(states, steps, n - 1);
      RunStep(states, steps, n - 1);
      StepFlags(states[n - 1], steps[n - 1], k);
      HistoryStarts(states, steps, n, k);
    }
  }

  lemma StartsBare(s: State, k: ChunkKey)
    requires Init(s)
    ensures k !in s.l1.entries && JobWrites(s.job) == []
  {
  }

  lemma HistoryStarts(states: seq<State>, steps: seq<Step>, n: nat, k: ChunkKey)
    requires 0 < n < |states| == |steps| + 1 && k !in states[n - 1].l1.entries && k in states[n].l1.entries
    requires Flagged(states[n - 1].l1.entries, states[n].l1.entries, k, Promotes(states[n - 1], steps[n - 1], k),
                     steps[n - 1] == ByLookup(JobReserve))
    ensures FlagHistory(states, steps, n - 1, n, k)
  {
    hide Promotes;
  }

  // ---- what the worker is writing ----------------------------------------------------------

  lemma TakenIsNew(l: L1, key: ChunkKey, n: nat)
    requires L1Inv(l) && n > 0
    ensures var got := ReserveWrite(l, [key], n, true).1;
            key in got && got[key].Some? ==> key !in l.entries
  {
    hide L1Inv, ReserveWrite;
    ReserveWriteReserves(l, [key], n, true);
    assert key in [key];
  }

  lemma ReserveTakes(s: State, k: ChunkKey)
    requires Inv(s) && CanJobReserve(s) && k in JobWrites(DoJobReserve(s).job) && k !in JobWrites(s.job)
    ensures k !in s.l1.entries
  {
    hide Inv, ReserveWrite, Wanted, L1Inv, MissingKeys;
    InvL1(s);
    NextKey(s);
    var job := s.job;
    PartGrows(job.msg.keys, job.l1, job.l1 + |job.objs|);
    TakenIsNew(s.l1, job.msg.keys[job.l1 + |job.objs|], SizeOf(s, job.msg.keys[job.l1 + |job.objs|]));
  }

  /** The worker begins to write a key only by reserving it. */
  lemma LookupTakes(s: State, a: LookupStep, k: ChunkKey)
    requires Inv(s) && LookupEnabled(s, a) && k in JobWrites(LookupApply(s, a).job) && k !in JobWrites(s.job)
    ensures a == JobReserve && k !in s.l1.entries
  {
    hide Inv, CanJobReserve, DoJobReserve, LookupEnabled, LookupApply;
    if a == JobReserve {
      ReserveIs(s);
      ReserveTakes(s, k);
    } else {
      OthersTakeNone(s, a, k);
    }
  }

  lemma ReserveIs(s: State)
    requires LookupEnabled(s, JobReserve)
    ensures CanJobReserve(s) && LookupApply(s, JobReserve) == DoJobReserve(s)
  {
  }

  lemma OthersTakeNone(s: State, a: LookupStep, k: ChunkKey)
    requires LookupEnabled(s, a) && a != JobReserve && k in JobWrites(LookupApply(s, a).job)
    ensures k in JobWrites(s.job)
  {
    hide BestFirst, ReserveReadPrefix, FinishRead, Finds, FinishWriteAndHold, Delete, FromKeys, Wanted, MissingKeys,
         Part;
    if a.JobPublish? {
      PartWithin(s.job.msg.keys, s.job.l1, s.job.l1 + s.job.loaded, s.job.l1 + |s.job.objs|, k);
    }
    if a.JobAnswered? {
      NothingInFront(LookupApply(s, a).job, k);
    }
  }

  lemma PartWithin(keys: seq<ChunkKey>, a: nat, b: nat, c: nat, k: ChunkKey)
    requires a <= b && k in Part(keys, b, c)
    ensures k in Part(keys, a, c)
  {
    var i :| 0 <= i < |Part(keys, b, c)| && Part(keys, b, c)[i] == k;
    assert Part(keys, a, c)[i + b - a] == k;
  }

  lemma NothingInFront(job: Job, k: ChunkKey)
    requires job.Reserving? && job.objs == []
    ensures k !in JobWrites(job)
  {
  }

  lemma StepTakes(s: State, step: Step, k: ChunkKey)
    requires Inv(s) && Enabled(s, step) && k in JobWrites(Apply(s, step).job) && k !in JobWrites(s.job)
    ensures step == ByLookup(JobReserve) && k !in s.l1.entries
  {
    hide Inv, StoreEnabled, LookupEnabled, KeeperEnabled, CallEnabled, StoreApply, LookupApply, KeeperApply, CallApply,
         JobWrites;
    match step
    case ByStore(a) => StoreFrame(s, a);
    case ByLookup(a) => LookupTakes(s, a, k);
    case ByKeeper(a) => KeeperFrame(s, a);
    case ByCall(a) => CallFrame(s, a);
  }

  lemma WrittenIsThere(s: State, k: ChunkKey)
    requires Inv(s) && k in JobWrites(s.job)
    ensures k in s.l1.entries && s.l1.entries[k].writeLocked && s.l1.entries[k].readCount == 0
  {
    CoreLocksOf(s);
    assert k in Claim(s, Writes, Worker);
    WriterLocks(s, Worker, k);
  }

  /** The worker has been writing k since it reserved k at step r. */
  lemma {:induction false} WorkerTook(states: seq<State>, steps: seq<Step>, n: nat, k: ChunkKey) returns (r: nat)
    requires Run(states, steps) && n < |states| && k in JobWrites(states[n].job)
    ensures r < n && steps[r] == ByLookup(JobReserve) && Installed(states, steps, r, n, k)
    ensures forall m: nat :: r < m <= n ==> k in JobWrites(states[m].job)
  {
    hide Inv, Enabled, Apply, JobWrites;
    assert n > 0 by {
      StartsBare(states[0], k);
    }
    RunKeepsInv(states, steps, n);
    WrittenIsThere(states[n], k);
    if k in JobWrites(states[n - 1].job) {
      r := WorkerTook(states, steps, n - 1, k);
    } else {
      r := n - 1;
      RunKeepsInv(states, steps, n - 1);
      RunStep(states, steps, n - 1);
      StepTakes(states[n - 1], steps[n - 1], k);
    }
  }

  lemma OneInstaller(states: seq<State>, steps: seq<Step>, q: nat, r: nat, n: nat, k: ChunkKey)
    requires n < |states| == |steps| + 1 && Installed(states, steps, q, n, k) && Installed(states, steps, r, n, k)
    ensures q == r
  {
  }

  /**
   * What the worker is writing is temporary if and only if no RETRIEVE that
   * named the key has been promoted since the worker reserved it. Either way
   * it is write-locked.
   */
  lemma WorkerWritesTemporaryIff(states: seq<State>, steps: seq<Step>, n: nat, k: ChunkKey) returns (r: nat)
    requires Run(states, steps) && n < |states| && k in JobWrites(states[n].job)
    ensures r < n && steps[r] == ByLookup(JobReserve) && k !in states[r].l1.entries
    ensures forall m: nat :: r < m <= n ==> k in JobWrites(states[m].job)
    ensures k in states[n].l1.entries && states[n].l1.entries[k].writeLocked
    ensures states[n].l1.entries[k].isTemporary <==> !PromotedSince(states, steps, r, n, k)
  {
    hide Inv, Enabled, Apply, Init, JobWrites, PromotedSince;
    RunKeepsInv(states, steps, n);
    WrittenIsThere(states[n], k);
    r := WorkerTook(states, steps, n, k);
    var q := TemporaryIff(states, steps, n, k);
    OneInstaller(states, steps, q, r, n, k);
  }

  // ---- what a promoted entry is good for -----------------------------------------------------

  lemma LoadedIsWritten(s: State, k: ChunkKey)
    requires Inv(s) && s.job.Publishing?
    ensures var loaded := Part(s.job.msg.keys, s.job.l1, s.job.l1 + s.job.loaded);
            NoDup(loaded) && (k in loaded ==> k in JobWrites(s.job)) && forall j :: j in loaded ==> j in s.l1.entries
  {
    hide Books, TempsOk, ContentOk, RecordsOk, CoverOk, HandlersOk, QueueOk, SessionsOk, MirrorOk, CoreOk, JobHolds,
         JobWrites, Part;
    PublishJob(s);
    PublishFound(s, Part(s.job.msg.keys, s.job.l1, s.job.l1 + s.job.loaded));
  }

  /** Publishing hands each loaded chunk over with the worker's one hold and with the flag it had. */
  lemma PublishKeepsFlag(s: State, k: ChunkKey)
    requires Inv(s) && s.job.Publishing? && k in Part(s.job.msg.keys, s.job.l1, s.job.l1 + s.job.loaded)
    ensures k in JobWrites(s.job) && k in s.l1.entries && k in DoJobPublish(s).l1.entries
    ensures DoJobPublish(s).l1.entries[k] == s.l1.entries[k].(writeLocked := false, readCount := 1)
  {
    hide Inv, FinishWriteAndHold, L1Inv, JobWrites, Part;
    InvL1(s);
    LoadedIsWritten(s, k);
    WrittenIsThere(s, k);
    FinishWriteAndHoldKeepsInv(s.l1, Part(s.job.msg.keys, s.job.l1, s.job.l1 + s.job.loaded));
  }

  ghost predicate Resident(s: State, k: ChunkKey) {
    CanRead(s.l1.entries, k) && !s.l1.entries[k].isTemporary
  }

  ghost predicate EvictedBetween(states: seq<State>, steps: seq<Step>, m: nat, n: nat, k: ChunkKey)
    requires n < |states| == |steps| + 1
  {
    exists i: nat :: m <= i < n && Evicts(states[i], steps[i], k)
  }

  /**
   * A readable entry that is not temporary stays so, whoever drops the last
   * hold on it, until the evictor takes it unused.
   */
  lemma {:induction false} ResidentUntilEvicted(states: seq<State>, steps: seq<Step>, m: nat, n: nat, k: ChunkKey)
    requires Run(states, steps) && m <= n < |states| && Resident(states[m], k)
    ensures Resident(states[n], k) || EvictedBetween(states, steps, m, n, k)
    decreases n
  {
    hide Inv, Enabled, Apply, Init, Promotes, Evicts;
    if m < n {
      ResidentUntilEvicted(states, steps, m, n - 1, k);
      RunKeepsInv(states, steps, n - 1);
      RunStep(states, steps, n - 1);
      StepFlags(states[n - 1], steps[n - 1], k);
      if !EvictedBetween(states, steps, m, n - 1, k) && Evicts(states[n - 1], steps[n - 1], k) {
        assert EvictedBetween(states, steps, m, n, k);
      }
    }
  }

  /**
   * A chunk promoted while it was being loaded: once published it outlives
   * the last hold on it and leaves the pool only by eviction, where it would
   * have gone with that hold had it stayed temporary.
   */
  lemma LatePromoteStays(states: seq<State>, steps: seq<Step>, n: nat, q: nat, k: ChunkKey) returns (r: nat)
    requires Run(states, steps) && n < q < |states| && steps[n] == ByLookup(JobPublish)
    requires states[n].job.Publishing?
    requires k in Part(states[n].job.msg.keys, states[n].job.l1, states[n].job.l1 + states[n].job.loaded)
    ensures r < n && steps[r] == ByLookup(JobReserve) && Installed(states, steps, r, n, k)
    ensures k in states[n + 1].l1.entries && states[n + 1].l1.entries[k].readCount == 1
    ensures states[n + 1].l1.entries[k].isTemporary <==> !PromotedSince(states, steps, r, n, k)
    ensures PromotedSince(states, steps, r, n, k) ==>
              Resident(states[q], k) || EvictedBetween(states, steps, n + 1, q, k)
  {
    hide Inv, StoreEnabled, LookupEnabled, KeeperEnabled, CallEnabled, StoreApply, KeeperApply, CallApply, Init,
         JobWrites, PromotedSince, EvictedBetween, DoJobPublish;
    RunKeepsInv(states, steps, n);
    RunStep(states, steps, n);
    PublishKeepsFlag(states[n], k);
    r := WorkerTook(states, steps, n, k);
    var q0 := TemporaryIff(states, steps, n, k);
    OneInstaller(states, steps, q0, r, n, k);
    if PromotedSince(states, steps, r, n, k) {
      ResidentUntilEvicted(states, steps, n + 1, q, k);
    }
  }
}
