// Safety of the cache server over whole runs, whatever the interleaving.
module CacheSafety {
  import opened Types
  import opened Memory
  import opened LockProtocol
  import opened Cache
  import opened CacheInv
  import opened CacheFrames
  import opened CacheBooks
  import opened CacheStore
  import opened CachePrefetch
  import opened CacheKeeper
  import opened CacheCalls

  // ---- every step, every run -----------------------------------------------------

  lemma StepKeeps(s: State, step: Step)
    requires Inv(s) && Enabled(s, step)
    ensures Kept(s, Apply(s, step))
  {
    hide Inv, Kept, StoreEnabled, LookupEnabled, KeeperEnabled, CallEnabled, StoreApply, LookupApply,
         KeeperApply, CallApply;
    match step
    case ByStore(a) => StoreStepKeeps(s, a);
    case ByLookup(a) => LookupStepKeeps(s, a);
    case ByKeeper(a) => KeeperStepsKeep(s, a);
    case ByCall(a) => CallStepKeeps(s, a);
  }

  /** The invariant holds in every reachable state. */
  lemma {:induction false} RunKeepsInv(states: seq<State>, steps: seq<Step>, n: nat)
    requires Run(states, steps) && n < |states|
    ensures Inv(states[n])
  {
    hide Inv, Enabled, Apply, Init;
    if n == 0 {
      InitInv(states[0]);
    } else {
      RunKeepsInv(states, steps, n - 1);
      RunStep(states, steps, n - 1);
      StepKeeps(states[n - 1], steps[n - 1]);
      KeptInv(states[n - 1], states[n]);
    }
  }

  lemma RunStep(states: seq<State>, steps: seq<Step>, n: nat)
    requires Run(states, steps) && n < |steps|
    ensures Enabled(states[n], steps[n]) && states[n + 1] == Apply(states[n], steps[n])
  {
    hide Enabled, Apply, Init;
    assert Linked(states, steps, n);
  }

  lemma KeptInv(s: State, t: State)
    requires Kept(s, t)
    ensures Inv(t)
  {
  }

  lemma RunSmooth(states: seq<State>, steps: seq<Step>, n: nat)
    requires Run(states, steps) && n + 1 < |states|
    ensures Smooth(states[n], states[n + 1])
  {
    hide Inv, Smooth, Enabled, Apply, Init;
    RunKeepsInv(states, steps, n);
    RunStep(states, steps, n);
    StepKeeps(states[n], steps[n]);
  }

  // ---- no bytes out of thin air ------------------------------------------------------

  /** The step is a STORE whose message has blob b for key k. */
  ghost predicate Carried(step: Step, k: ChunkKey, b: Blob) {
    && step.ByStore? && step.store.StoreReserve?
    && exists a: nat ::
         a < Sent(step.store.keys, step.store.chunks) && step.store.keys[a] == k && step.store.chunks[a] == b
  }

  /** Blob b was sent under key k by a STORE before state n, or an adapter had it from the start. */
  ghost predicate Origin(states: seq<State>, steps: seq<Step>, n: nat, k: ChunkKey, b: Blob)
    requires n < |states| == |steps| + 1
  {
    InAdapter(states[0], k, b) || exists j :: 0 <= j < n && Carried(steps[j], k, b)
  }

  lemma StoreStored(s: State, a: StoreStep, k: ChunkKey, b: Blob)
    requires StoreEnabled(s, a) && (k, b) in StoreApply(s, a).stored
    ensures (k, b) in s.stored || Carried(ByStore(a), k, b)
  {
    hide ReserveWrite, ItemsOf, TakenKeys, FinishWrite;
  }

  lemma StoredGrows(s: State, step: Step, k: ChunkKey, b: Blob)
    requires Enabled(s, step) && (k, b) in Apply(s, step).stored
    ensures (k, b) in s.stored || Carried(step, k, b)
  {
    hide StoreEnabled, LookupEnabled, KeeperEnabled, CallEnabled, StoreApply, LookupApply, KeeperApply,
         CallApply, Carried;
    match step
    case ByStore(a) => StoreStored(s, a, k, b);
    case ByLookup(a) => LookupFrame(s, a);
    case ByKeeper(a) => KeeperFrame(s, a);
    case ByCall(a) => CallFrame(s, a);
  }

  lemma {:induction false} SuppliedHasOrigin(states: seq<State>, steps: seq<Step>, n: nat, k: ChunkKey, b: Blob)
    requires Run(states, steps) && n < |states| && Supplied(states[n], k, b)
    ensures Origin(states, steps, n, k, b)
  {
    hide Enabled, Apply, Carried;
    if n > 0 {
      RunStep(states, steps, n - 1);
      StoredGrows(states[n - 1], steps[n - 1], k, b);
      if Supplied(states[n - 1], k, b) {
        SuppliedHasOrigin(states, steps, n - 1, k, b);
      }
    }
  }

  lemma StepKeepsStored(s: State, step: Step, k: ChunkKey, b: Blob)
    requires Enabled(s, step) && (Supplied(s, k, b) || Carried(step, k, b))
    ensures Supplied(Apply(s, step), k, b)
  {
    hide LookupEnabled, KeeperEnabled, CallEnabled, LookupApply, KeeperApply, CallApply, ReserveWrite, ItemsOf,
         TakenKeys, FinishWrite;
    match step
    case ByStore(a) =>
    case ByLookup(a) => LookupFrame(s, a);
    case ByKeeper(a) => KeeperFrame(s, a);
    case ByCall(a) => CallFrame(s, a);
  }

  /** So the history of a state records exactly what was sent before it or was there from the start. */
  lemma {:induction false} OriginIsSupplied(states: seq<State>, steps: seq<Step>, n: nat, k: ChunkKey, b: Blob)
    requires Run(states, steps) && n < |states| && Origin(states, steps, n, k, b)
    ensures Supplied(states[n], k, b)
  {
    hide Enabled, Apply, Carried;
    if n == 0 {
      var i: nat :| i < |states[0].l2| && k in states[0].l2[i] && states[0].l2[i][k] == b;
      assert RecordOk(states[0], i, k);
    } else {
      RunStep(states, steps, n - 1);
      if !Carried(steps[n - 1], k, b) {
        OriginIsSupplied(states, steps, n - 1, k, b);
      }
      StepKeepsStored(states[n - 1], steps[n - 1], k, b);
    }
  }

  /**
   * In every reachable state, what an entry shows to readers and what an
   * adapter stores under key k was sent under exactly that key by an earlier
   * STORE (or was in an adapter from the start).
   */
  lemma NoOutOfThinAir(states: seq<State>, steps: seq<Step>, n: nat, k: ChunkKey)
    requires Run(states, steps) && n < |states|
    ensures CanRead(states[n].l1.entries, k) ==>
              Origin(states, steps, n, k, BytesAt(states[n], states[n].l1.entries[k].obj))
    ensures forall i: nat :: i < |states[n].l2| && k in states[n].l2[i] ==>
              Origin(states, steps, n, k, states[n].l2[i][k])
  {
    var s := states[n];
    RunKeepsInv(states, steps, n);
    hide Run, Origin, CoreOk, Books, TempsOk, CoverOk, HandlersOk, JobOk, QueueOk, SessionsOk, MirrorOk;
    if CanRead(s.l1.entries, k) {
      SuppliedHasOrigin(states, steps, n, k, BytesAt(s, s.l1.entries[k].obj));
    }
    forall i: nat | i < |s.l2| && k in s.l2[i]
      ensures Origin(states, steps, n, k, s.l2[i][k])
    {
      assert RecordOk(s, i, k);
      SuppliedHasOrigin(states, steps, n, k, s.l2[i][k]);
    }
  }

  // ---- readable bytes never change -------------------------------------------------------

  /** A readable entry that stays readable keeps its slice and its bytes over any step of anyone. */
  lemma ReadableIsFrozen(s: State, t: State, k: ChunkKey)
    requires Smooth(s, t) && CanRead(s.l1.entries, k) && CanRead(t.l1.entries, k)
    ensures Frozen(s, t, k)
  {
    var w, o :| Quiet(s, t, w) && WrittenBy(s, w, o);
    if w == Some(k) {
      WriterLocks(s, o, k);
    }
  }

  /** Between two moments of a run, an entry readable all along shows the same bytes in the same slice. */
  lemma {:induction false} ReadableIsStable(states: seq<State>, steps: seq<Step>, m: nat, n: nat, k: ChunkKey)
    requires Run(states, steps) && m <= n < |states|
    requires forall i :: m <= i <= n ==> CanRead(states[i].l1.entries, k)
    ensures Frozen(states[m], states[n], k)
    decreases n
  {
    hide Run;
    if m < n {
      ReadableIsStable(states, steps, m, n - 1, k);
      RunSmooth(states, steps, n - 1);
      ReadableIsFrozen(states[n - 1], states[n], k);
    }
  }

  // ---- the pool and the entries ------------------------------------------------------------

  /**
   * In every reachable state the slices of the entries and the free slices
   * tile [0, brk), no two overlap, and no byte below brk is unaccounted for.
   */
  lemma PoolNeverLeaks(states: seq<State>, steps: seq<Step>, n: nat)
    requires Run(states, steps) && n < |states|
    ensures var l1 := states[n].l1;
            && Tiling(SlicesOf(l1.entries) + FreeSlices(l1.pool.free), l1.pool.brk)
            && SlicesOf(l1.entries) !! FreeSlices(l1.pool.free)
            && l1.pool.used == Bytes(SlicesOf(l1.entries))
            && l1.pool.brk == l1.pool.used + FreeBytes(l1.pool.free)
            && l1.pool.brk <= l1.pool.total == |states[n].mem|
            && (forall j, k :: j in l1.entries && k in l1.entries && j != k ==>
               l1.entries[j].obj.Apart(l1.entries[k].obj))
  {
    var l1 := states[n].l1;
    RunKeepsInv(states, steps, n);
    NoLeak(l1.pool, SlicesOf(l1.entries));
    forall j, k | j in l1.entries && k in l1.entries && j != k
      ensures l1.entries[j].obj.Apart(l1.entries[k].obj)
    {
      OwnedApart(l1.entries, l1.pool, j, k);
    }
  }

  /** The prefetch worker, or a STORE for an entry that is not temporary. */
  ghost predicate RightWriter(s: State, o: Owner, k: ChunkKey)
    requires k in s.l1.entries
  {
    || o == Worker
    || (!s.l1.entries[k].isTemporary && o.Call? && o.id in s.handlers
       && (s.handlers[o.id].Storing? || s.handlers[o.id].Dead?))
  }

  lemma WriterIsRight(s: State, o: Owner, k: ChunkKey)
    requires TempsOk(s) && k in s.l1.entries && k in Claim(s, Writes, o)
    ensures RightWriter(s, o, k)
  {
  }

  lemma WriterExists(s: State, k: ChunkKey) returns (o: Owner)
    requires Books(s) && k in s.l1.entries && s.l1.entries[k].writeLocked
    ensures k in Claim(s, Writes, o)
  {
    assert |Claimants(s, Writes, k)| == Recorded(s.l1.entries, Writes, k) == 1;
    o :| o in Claimants(s, Writes, k);
  }

  /** In every reachable state a write lock excludes readers and has exactly one writer. */
  lemma WriteLockIsExclusive(states: seq<State>, steps: seq<Step>, n: nat, k: ChunkKey) returns (o: Owner)
    requires Run(states, steps) && n < |states|
    requires k in states[n].l1.entries && states[n].l1.entries[k].writeLocked
    ensures states[n].l1.entries[k].readCount == 0 && RightWriter(states[n], o, k)
    ensures forall p :: k in Claim(states[n], Writes, p) <==> p == o
    ensures forall p :: k !in Claim(states[n], Reads, p)
  {
    hide Run, ContentOk, RecordsOk, CoverOk, HandlersOk, JobOk, QueueOk, SessionsOk, MirrorOk, Claim, L1Inv,
         RightWriter;
    var s := states[n];
    RunKeepsInv(states, steps, n);
    CoreLocksOf(s);
    o := WriterExists(s, k);
    WriterLocks(s, o, k);
    WriterIsRight(s, o, k);
  }

  /**
   * A readable temporary entry is always held, so it is never evictable, and
   * the recency order lists exactly the readable entries, once each.
   */
  lemma TemporariesAreHeld(states: seq<State>, steps: seq<Step>, n: nat, k: ChunkKey)
    requires Run(states, steps) && n < |states|
    ensures var l1 := states[n].l1;
            && (CanRead(l1.entries, k) && l1.entries[k].isTemporary ==>
               l1.entries[k].readCount > 0 && !l1.entries[k].Unlocked())
            && NoDup(l1.order) && (k in l1.order <==> CanRead(l1.entries, k))
  {
    RunKeepsInv(states, steps, n);
  }

  // ---- write-back and eviction -----------------------------------------------------------------

  /** Nothing waits for write-back. */
  ghost predicate WrittenBack(s: State) {
    s.pending == [] && s.mirror == Waiting
  }

  /**
   * With at least one adapter, every readable entry that is not on its way to
   * the adapters is in all of them if a STORE made it, and in one otherwise:
   * evicting it loses no last copy.
   */
  lemma LastCopySurvives(states: seq<State>, steps: seq<Step>, n: nat, k: ChunkKey)
    requires Run(states, steps) && n < |states| && CanRead(states[n].l1.entries, k) && |states[n].l2| > 0
    ensures var s := states[n];
            && (k in s.fromStore ==> forall i: nat :: i < |s.l2| ==> k in s.l2[i] || Due(s, i, k))
            && (k !in s.fromStore ==> InSomeL2(s, k))
            && (WrittenBack(s) ==> InSomeL2(s, k))
  {
    var s := states[n];
    RunKeepsInv(states, steps, n);
    assert KeyCovered(s, k);
    if WrittenBack(s) && k in s.fromStore {
      assert k in s.l2[0] || Due(s, 0, k);
    }
  }

  /** No step removes a record from an adapter. */
  lemma {:induction false} RecordsStay(states: seq<State>, steps: seq<Step>, m: nat, n: nat, i: nat, k: ChunkKey)
    requires Run(states, steps) && m <= n < |states| && i < |states[m].l2| && k in states[m].l2[i]
    ensures |states[n].l2| == |states[m].l2| && k in states[n].l2[i]
    decreases n
  {
    hide Run;
    if m < n {
      RecordsStay(states, steps, m, n - 1, i, k);
      RunSmooth(states, steps, n - 1);
      SmoothAdapters(states[n - 1], states[n]);
    }
  }

  lemma SmoothAdapters(s: State, t: State)
    requires Smooth(s, t)
    ensures |t.l2| == |s.l2| && forall i, k :: 0 <= i < |s.l2| && k in s.l2[i] ==> k in t.l2[i]
  {
  }
}
