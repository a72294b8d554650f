// What a RETRIEVE sends, whatever the other handlers of its session do
// meanwhile: nothing makes an END_SESSION wait for a reply being sent.
module CacheReads {
  import opened Types
  import opened LockProtocol
  import opened Sessions
  import opened Cache
  import opened CacheInv
  import opened CacheFrames
  import opened CacheSafety
  import opened CacheHolds

  // ---- held until a release takes it ---------------------------------------------

  /** Session rid holds k, or an END_SESSION has lost a hold on it. */
  ghost predicate Pinned(s: State, rid: string, k: ChunkKey) {
    k in HeldKeys(s.ses, rid) || exists id :: id in s.handlers && s.handlers[id].Lost? && k in s.handlers[id].keys
  }

  lemma CallPins(s: State, a: CallStep, rid: string, k: ChunkKey)
    requires CallEnabled(s, a) && k in HeldKeys(s.ses, rid) && !TakesFrom(s, ByCall(a), rid, k)
    ensures Pinned(CallApply(s, a), rid, k)
  {
    hide FinishRead, Finds, Sized, Promote;
    if a.EndSecond? && s.handlers[a.id].rid == rid {
      assert CallApply(s, a).handlers[a.id] == Lost(HeldKeys(s.ses, rid));
    }
  }

  lemma HeldIsResolved(s: State, rid: string, k: ChunkKey)
    requires Inv(s) && k in HeldKeys(s.ses, rid)
    ensures !ResolvesFor(s, ByLookup(JobResolve), rid)
  {
  }

  lemma StepPins(s: State, step: Step, rid: string, k: ChunkKey)
    requires Inv(s) && Enabled(s, step) && Pinned(s, rid, k) && !TakesFrom(s, step, rid, k)
    ensures Pinned(Apply(s, step), rid, k)
  {
    hide Inv, StoreEnabled, LookupEnabled, KeeperEnabled, CallEnabled, StoreApply, LookupApply, KeeperApply,
         CallApply, TakesFrom;
    if k in HeldKeys(s.ses, rid) {
      match step
      case ByStore(a) => StoreFrame(s, a);
      case ByKeeper(a) => KeeperFrame(s, a);
      case ByCall(a) => CallPins(s, a, rid, k);
      case ByLookup(a) =>
        LookupFrame(s, a);
        HeldIsResolved(s, rid, k);
    } else {
      var id :| id in s.handlers && s.handlers[id].Lost? && k in s.handlers[id].keys;
      TombsStay(s, step, id);
    }
  }

  /** No release of session rid takes k between states a and b. */
  ghost predicate Untaken(states: seq<State>, steps: seq<Step>, a: nat, b: nat, rid: string, k: ChunkKey)
    requires b < |states| == |steps| + 1
  {
    forall m: nat :: a <= m < b ==> !TakesFrom(states[m], steps[m], rid, k)
  }

  lemma {:induction false} PinnedUntilTaken(states: seq<State>, steps: seq<Step>, a: nat, b: nat, rid: string,
                                            k: ChunkKey)
    requires Run(states, steps) && a <= b < |states| && k in HeldKeys(states[a].ses, rid)
    requires Untaken(states, steps, a, b, rid, k)
    ensures Pinned(states[b], rid, k)
    decreases b
  {
    hide Inv, Enabled, Apply, TakesFrom, Init;
    if a < b {
      PinnedUntilTaken(states, steps, a, b - 1, rid, k);
      RunKeepsInv(states, steps, b - 1);
      RunStep(states, steps, b - 1);
      StepPins(states[b - 1], steps[b - 1], rid, k);
    }
  }

  lemma PinnedReads(states: seq<State>, steps: seq<Step>, n: nat, rid: string, k: ChunkKey)
    requires Run(states, steps) && n < |states| && Pinned(states[n], rid, k)
    ensures CanRead(states[n].l1.entries, k)
  {
    hide Run;
    var s := states[n];
    if k in HeldKeys(s.ses, rid) {
      HeldIsPinned(states, steps, n, Session(rid), k);
    } else {
      var id :| id in s.handlers && s.handlers[id].Lost? && k in s.handlers[id].keys;
      HeldIsPinned(states, steps, n, Call(id), k);
    }
  }

  // ---- the history of a call ---------------------------------------------------------

  /** How a reading handler comes out of a step: begun by it, untouched, or one chunk further. */
  ghost predicate ReaderAfter(s: State, step: Step, t: State, id: nat)
    requires id in t.handlers && t.handlers[id].Reading?
  {
    var h := t.handlers[id];
    || (step == ByCall(Retrieve(id, h.rid, h.keys)) && CanRetrieve(s, id, h.rid, h.keys)
        && h == Reading(h.rid, h.keys, ObjsOf(s.l1.entries, h.keys), []))
    || (id in s.handlers && s.handlers[id] == h)
    || (step == ByCall(RetrieveCopy(id)) && CanRetrieveCopy(s, id) && t == DoRetrieveCopy(s, id))
  }

  lemma CallReaders(s: State, a: CallStep, id: nat)
    requires CallEnabled(s, a)
    requires id in CallApply(s, a).handlers && CallApply(s, a).handlers[id].Reading?
    ensures ReaderAfter(s, ByCall(a), CallApply(s, a), id)
  {
    hide FinishRead, Finds, Sized, TakeReleasedOf, Promote, Close;
  }

  lemma ReaderChanges(s: State, step: Step, id: nat)
    requires Enabled(s, step)
    requires id in Apply(s, step).handlers && Apply(s, step).handlers[id].Reading?
    ensures ReaderAfter(s, step, Apply(s, step), id)
  {
    hide StoreEnabled, LookupEnabled, KeeperEnabled, CallEnabled, StoreApply, LookupApply, KeeperApply, CallApply;
    match step
    case ByStore(a) => StoreFrame(s, a);
    case ByLookup(a) => LookupFrame(s, a);
    case ByKeeper(a) => KeeperFrame(s, a);
    case ByCall(a) => CallReaders(s, a, id);
  }

  /** The RETRIEVE in progress in state n as handler id began at step j and sent its i-th chunk at step cs[i]. */
  ghost predicate History(states: seq<State>, steps: seq<Step>, n: nat, id: nat, j: nat, cs: seq<nat>)
    requires n < |states| == |steps| + 1
  {
    && id in states[n].handlers && states[n].handlers[id].Reading?
    && var h := states[n].handlers[id];
       && j < n && steps[j] == ByCall(Retrieve(id, h.rid, h.keys)) && CanRetrieve(states[j], id, h.rid, h.keys)
       && |cs| == |h.out| <= |h.objs| && h.objs == ObjsOf(states[j].l1.entries, h.keys)
       && (forall i :: 0 <= i < |cs| ==> j < cs[i] < n && steps[cs[i]] == ByCall(RetrieveCopy(id)))
       && (forall i :: 0 <= i < |cs| ==> h.out[i] == BytesAt(states[cs[i]], h.objs[i]))
       && forall m: nat :: j < m <= n ==> id in states[m].handlers && states[m].handlers[id].Reading?
  }

  lemma HistoryGrows(states: seq<State>, steps: seq<Step>, n: nat, id: nat, j: nat, cs: seq<nat>)
    returns (cs': seq<nat>)
    requires 0 < n < |states| == |steps| + 1 && History(states, steps, n - 1, id, j, cs)
    requires id in states[n].handlers && states[n].handlers[id].Reading?
    requires ReaderAfter(states[n - 1], steps[n - 1], states[n], id)
    ensures History(states, steps, n, id, j, cs')
  {
    hide BytesAt, ObjsOf, CanRetrieve, History, DoRetrieveCopy;
    HistoryReads(states, steps, n - 1, id, j, cs);
    if states[n].handlers[id] == states[n - 1].handlers[id] {
      cs' := cs;
      HistoryStays(states, steps, n, id, j, cs);
    } else {
      cs' := cs + [n - 1];
      NotBegun(states[n - 1], steps[n - 1], id);
      HistoryCopies(states, steps, n, id, j, cs);
    }
  }

  lemma HistoryReads(states: seq<State>, steps: seq<Step>, n: nat, id: nat, j: nat, cs: seq<nat>)
    requires n < |states| == |steps| + 1 && History(states, steps, n, id, j, cs)
    ensures id in states[n].handlers && states[n].handlers[id].Reading?
  {
  }

  lemma NotBegun(s: State, step: Step, id: nat)
    requires id in s.handlers
    ensures forall rid, keys :: !CanRetrieve(s, id, rid, keys)
  {
  }

  lemma HistoryStays(states: seq<State>, steps: seq<Step>, n: nat, id: nat, j: nat, cs: seq<nat>)
    requires 0 < n < |states| == |steps| + 1 && History(states, steps, n - 1, id, j, cs)
    requires id in states[n].handlers && id in states[n - 1].handlers
    requires states[n].handlers[id] == states[n - 1].handlers[id]
    ensures History(states, steps, n, id, j, cs)
  {
    hide BytesAt, ObjsOf, CanRetrieve;
  }

  lemma HistoryCopies(states: seq<State>, steps: seq<Step>, n: nat, id: nat, j: nat, cs: seq<nat>)
    requires 0 < n < |states| == |steps| + 1 && History(states, steps, n - 1, id, j, cs)
    requires steps[n - 1] == ByCall(RetrieveCopy(id)) && CanRetrieveCopy(states[n - 1], id)
    requires states[n] == DoRetrieveCopy(states[n - 1], id)
    ensures History(states, steps, n, id, j, cs + [n - 1])
  {
    hide BytesAt, ObjsOf, CanRetrieve;
  }

  lemma {:induction false} ReadHistory(states: seq<State>, steps: seq<Step>, n: nat, id: nat)
    returns (j: nat, cs: seq<nat>)
    requires Run(states, steps) && n < |states| && id in states[n].handlers && states[n].handlers[id].Reading?
    ensures History(states, steps, n, id, j, cs)
  {
    hide Enabled, Apply, History, ReaderAfter;
    assert n > 0 by {
      NobodyReadsAtStart(states[0], id);
    }
    RunStep(states, steps, n - 1);
    ReaderChanges(states[n - 1], steps[n - 1], id);
    if id in states[n - 1].handlers && states[n - 1].handlers[id].Reading? {
      j, cs := ReadHistory(states, steps, n - 1, id);
      cs := HistoryGrows(states, steps, n, id, j, cs);
    } else {
      j, cs := n - 1, [];
      HistoryBegins(states, steps, n, id);
    }
  }

  lemma NobodyReadsAtStart(s: State, id: nat)
    requires Init(s)
    ensures id !in s.handlers
  {
  }

  lemma HistoryBegins(states: seq<State>, steps: seq<Step>, n: nat, id: nat)
    requires 0 < n < |states| == |steps| + 1 && id in states[n].handlers && states[n].handlers[id].Reading?
    requires !(id in states[n - 1].handlers && states[n - 1].handlers[id].Reading?)
    requires ReaderAfter(states[n - 1], steps[n - 1], states[n], id)
    ensures History(states, steps, n, id, n - 1, [])
  {
  }

  // ---- what a RETRIEVE returns -------------------------------------------------------------

  /** Session rid holds k when state j is left, and no release of rid takes it before state q. */
  ghost predicate HeldThroughout(states: seq<State>, steps: seq<Step>, j: nat, q: nat, rid: string, k: ChunkKey)
    requires j <= q < |states| == |steps| + 1
  {
    k in HeldKeys(states[j].ses, rid) && Untaken(states, steps, j, q, rid, k)
  }

  /** From state j to state q the entry of k is readable and shows b. */
  ghost predicate Shows(states: seq<State>, j: nat, q: nat, k: ChunkKey, b: Blob)
    requires q < |states|
  {
    forall m: nat :: j <= m <= q ==>
      CanRead(states[m].l1.entries, k) && BytesAt(states[m], states[m].l1.entries[k].obj) == b
  }

  lemma HeldShows(states: seq<State>, steps: seq<Step>, j: nat, q: nat, rid: string, k: ChunkKey)
    requires Run(states, steps) && j <= q < |states| && HeldThroughout(states, steps, j, q, rid, k)
    ensures CanRead(states[j].l1.entries, k)
    ensures Shows(states, j, q, k, BytesAt(states[j], states[j].l1.entries[k].obj))
    ensures forall m: nat :: j <= m <= q ==> Frozen(states[j], states[m], k)
  {
    hide Run, TakesFrom, Pinned, BytesAt;
    forall m: nat | j <= m <= q
      ensures CanRead(states[m].l1.entries, k)
    {
      PinnedUntilTaken(states, steps, j, m, rid, k);
      PinnedReads(states, steps, m, rid, k);
    }
    forall m: nat | j <= m <= q
      ensures Frozen(states[j], states[m], k)
    {
      ReadableIsStable(states, steps, j, m, k);
    }
  }

  /**
   * A RETRIEVE of any keys, with any releases, evictions and END_SESSIONs
   * around it: each chunk whose key its session holds when the call begins,
   * and which no release of the session takes before it has been sent, is the
   * blob a STORE supplied under that key, the one the entry has shown since
   * the call began. As long as none is taken, the chunks are one snapshot.
   */
  lemma RetrieveReturnsStored(states: seq<State>, steps: seq<Step>, n: nat, id: nat) returns (j: nat, cs: seq<nat>)
    requires Run(states, steps) && n < |states| && id in states[n].handlers && states[n].handlers[id].Reading?
    ensures History(states, steps, n, id, j, cs)
    ensures var h := states[n].handlers[id];
            forall i: nat, q: nat ::
              i < |cs| && cs[i] <= q < |states| && HeldThroughout(states, steps, j, q, h.rid, h.keys[i]) ==>
              Shows(states, j, q, h.keys[i], h.out[i]) && Origin(states, steps, j, h.keys[i], h.out[i])
  {
    hide HeldThroughout, Origin, Shows, BytesAt, Enabled, Apply, Init;
    j, cs := ReadHistory(states, steps, n, id);
    var h := states[n].handlers[id];
    forall i: nat, q: nat | i < |cs| && cs[i] <= q < |states| && HeldThroughout(states, steps, j, q, h.rid, h.keys[i])
      ensures Shows(states, j, q, h.keys[i], h.out[i]) && Origin(states, steps, j, h.keys[i], h.out[i])
    {
      HeldShows(states, steps, j, q, h.rid, h.keys[i]);
      NoOutOfThinAir(states, steps, j, h.keys[i]);
      assert Frozen(states[j], states[cs[i]], h.keys[i]);
    }
  }
}
