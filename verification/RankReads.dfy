// The connector's own traffic on the running server: after its lookup is
// resolved a request sends at most one FREE, and each rank at most one
// RETRIEVE. However these interleave with each other and with everybody else,
// no rank's RETRIEVE loses a lock before its chunks are sent.
module RankReads {
  import opened Types
  import opened LockProtocol
  import opened Sessions
  import opened Server
  import opened Partition
  import opened Cache
  import opened CacheInv
  import opened CacheFrames
  import opened CacheCalls
  import opened CacheSafety
  import opened CacheHolds
  import opened CacheLive
  import opened CacheReads

  // ---- the calls of one request ---------------------------------------------------

  ghost predicate IsFree(step: Step, rid: string) {
    step.ByCall? && step.call.FreeFirst? && step.call.rid == rid
  }

  ghost predicate IsRetrieve(step: Step, rid: string) {
    step.ByCall? && step.call.Retrieve? && step.call.rid == rid
  }

  ghost predicate IsEnd(step: Step, rid: string) {
    step.ByCall? && step.call.EndFirst? && step.call.rid == rid
  }

  /** The step begins the RETRIEVE of a rank over that rank's part of the plan. */
  ghost predicate RankRetrieves(p: Plan, rid: string, step: Step, rank: nat)
    requires p.Valid()
  {
    rank < p.ws && IsRetrieve(step, rid) && step.call.keys == PartOf(p, RankTaken(rank))
  }

  /** FREE unlocks the plan's first f chunks, a RETRIEVE is some rank's, and the session is not ended. */
  ghost predicate InPlan(p: Plan, rid: string, step: Step)
    requires p.Valid()
  {
    && (IsFree(step, rid) ==> step.call.count == Lo(p))
    && (IsRetrieve(step, rid) ==> exists rank: nat :: RankRetrieves(p, rid, step, rank))
    && !IsEnd(step, rid)
  }

  /**
   * The first n steps as far as request rid goes: its lookup is resolved with
   * exactly the keys of the plan when state m is reached, its calls come after
   * that and follow the plan, FREE at most once and each rank at most once.
   */
  ghost predicate Conducted(p: Plan, rid: string, states: seq<State>, steps: seq<Step>, m: nat, n: nat)
    requires n <= |steps| == |states| - 1
  {
    && p.Valid() && m <= n && HeldKeys(states[m].ses, rid) == p.all
    && (forall a: nat :: a < m ==> !IsFree(steps[a], rid) && !IsRetrieve(steps[a], rid) && !IsEnd(steps[a], rid))
    && (forall a: nat :: a < n ==> InPlan(p, rid, steps[a]))
    && (forall a: nat, b: nat :: a < b < n ==> !(IsFree(steps[a], rid) && IsFree(steps[b], rid)))
    && (forall a: nat, b: nat, rank: nat :: a < b < n ==>
       !(RankRetrieves(p, rid, steps[a], rank) && RankRetrieves(p, rid, steps[b], rank)))
  }

  // ---- where releases come from --------------------------------------------------------

  lemma CallReleasing(s: State, a: CallStep, id: nat)
    requires CallEnabled(s, a) && id in CallApply(s, a).handlers && CallApply(s, a).handlers[id].Releasing?
    ensures var h := CallApply(s, a).handlers[id];
            || (id in s.handlers && s.handlers[id] == h)
            || (id in s.handlers && s.handlers[id].Reading? && s.handlers[id].rid == h.rid
               && s.handlers[id].keys == h.keys)
            || (id !in s.handlers && a.FreeFirst? && a.id == id && a.rid == h.rid
               && h.keys == FirstHeldOf(s.ses, h.rid, a.count))
  {
    hide FinishRead, Finds, Sized, TakeReleasedOf, Promote, Close, FirstHeldOf;
  }

  lemma ReleasingChanges(s: State, step: Step, id: nat)
    requires Enabled(s, step) && id in Apply(s, step).handlers && Apply(s, step).handlers[id].Releasing?
    ensures var h := Apply(s, step).handlers[id];
            || (id in s.handlers && s.handlers[id] == h)
            || (id in s.handlers && s.handlers[id].Reading? && s.handlers[id].rid == h.rid
               && s.handlers[id].keys == h.keys)
            || (id !in s.handlers && IsFree(step, h.rid) && h.keys == FirstHeldOf(s.ses, h.rid, step.call.count))
  {
    hide StoreEnabled, LookupEnabled, KeeperEnabled, CallEnabled, StoreApply, LookupApply, KeeperApply, CallApply,
         FirstHeldOf;
    match step
    case ByStore(a) => StoreFrame(s, a);
    case ByLookup(a) => LookupFrame(s, a);
    case ByKeeper(a) => KeeperFrame(s, a);
    case ByCall(a) => CallReleasing(s, a, id);
  }

  /** Step a is the FREE or the RETRIEVE behind a release of these keys by handler id. */
  ghost predicate Source(states: seq<State>, steps: seq<Step>, a: nat, id: nat, rid: string, keys: seq<ChunkKey>)
    requires a < |steps| == |states| - 1
  {
    || (IsFree(steps[a], rid) && keys == FirstHeldOf(states[a].ses, rid, steps[a].call.count))
    || steps[a] == ByCall(Retrieve(id, rid, keys))
  }

  lemma {:induction false} ReleaseHasSource(states: seq<State>, steps: seq<Step>, n: nat, id: nat) returns (a: nat)
    requires Run(states, steps) && n < |states| && id in states[n].handlers && states[n].handlers[id].Releasing?
    ensures a < n && Source(states, steps, a, id, states[n].handlers[id].rid, states[n].handlers[id].keys)
  {
    hide Enabled, Apply, FirstHeldOf;
    assert n > 0 by {
      NobodyReadsAtStart(states[0], id);
    }
    RunStep(states, steps, n - 1);
    ReleasingChanges(states[n - 1], steps[n - 1], id);
    if id in states[n - 1].handlers && states[n - 1].handlers[id].Releasing? {
      a := ReleaseHasSource(states, steps, n - 1, id);
    } else if id in states[n - 1].handlers && states[n - 1].handlers[id].Reading? {
      var cs;
      a, cs := ReadHistory(states, steps, n - 1, id);
    } else {
      a := n - 1;
    }
  }

  // ---- how a session's holds change ------------------------------------------------------

  /** The step is a release of session rid whose section takes `keys`. */
  ghost predicate Takes(s: State, step: Step, rid: string, keys: seq<ChunkKey>) {
    && step.ByCall? && step.call.ReleaseTake? && CanReleaseTake(s, step.call.id)
    && s.handlers[step.call.id] == Releasing(rid, keys)
  }

  ghost function TakenFrom(s: State, rid: string, keys: seq<ChunkKey>): seq<ChunkKey> {
    Without(HeldKeys(s.ses, rid), Within(keys, HeldKeys(s.ses, rid)))
  }

  lemma CallHolds(s: State, a: CallStep, rid: string)
    requires CallEnabled(s, a) && !IsEnd(ByCall(a), rid) && forall id :: !IsEnding(s, id, rid)
    ensures var t := CallApply(s, a);
            || HeldKeys(t.ses, rid) == HeldKeys(s.ses, rid)
            || exists keys :: Takes(s, ByCall(a), rid, keys) && HeldKeys(t.ses, rid) == TakenFrom(s, rid, keys)
  {
    hide FinishRead, Finds, Sized, Promote, Within, Without;
    if a.ReleaseTake? && s.handlers[a.id].rid == rid {
      var keys := s.handlers[a.id].keys;
      assert Takes(s, ByCall(a), rid, keys);
    } else if a.EndSecond? {
      assert !IsEnding(s, a.id, rid);
    }
  }

  /** Between its resolve and its end, only releases change what a session holds. */
  lemma HoldsChange(s: State, step: Step, rid: string)
    requires Inv(s) && Enabled(s, step) && HeldKeys(s.ses, rid) != []
    requires !IsEnd(step, rid) && forall id :: !IsEnding(s, id, rid)
    ensures var t := Apply(s, step);
            || HeldKeys(t.ses, rid) == HeldKeys(s.ses, rid)
            || exists keys :: Takes(s, step, rid, keys) && HeldKeys(t.ses, rid) == TakenFrom(s, rid, keys)
  {
    hide Inv, StoreEnabled, LookupEnabled, KeeperEnabled, CallEnabled, StoreApply, LookupApply, KeeperApply,
         CallApply, Takes, TakenFrom;
    match step
    case ByStore(a) => StoreFrame(s, a);
    case ByKeeper(a) => KeeperFrame(s, a);
    case ByCall(a) => CallHolds(s, a, rid);
    case ByLookup(a) =>
      LookupFrame(s, a);
      HeldIsResolved(s, rid, HeldKeys(s.ses, rid)[0]);
  }

  lemma NeverEnding(p: Plan, rid: string, states: seq<State>, steps: seq<Step>, m: nat, n: nat, x: nat, id: nat)
    requires Run(states, steps) && n <= |steps| && Conducted(p, rid, states, steps, m, n) && x <= n
    ensures !IsEnding(states[x], id, rid)
  {
    hide Enabled, Apply, Init, IsEnding;
    if IsEnding(states[x], id, rid) {
      var a := EndingStarted(states, steps, x, id, rid);
      assert false;
    }
  }

  // ---- FREE's keys -------------------------------------------------------------------------

  lemma {:induction false} WithoutKeepsFront(s: seq<ChunkKey>, t: seq<ChunkKey>, n: nat)
    requires n <= |s| && forall i :: 0 <= i < n ==> s[i] !in t
    ensures |Without(s, t)| >= n && Without(s, t)[..n] == s[..n]
    decreases |s|
  {
    if n == |s| {
      NothingGoes(s, t);
    } else {
      WithoutKeepsFront(s[..|s| - 1], t, n);
      assert s[..|s| - 1][..n] == s[..n];
    }
  }

  lemma {:induction false} NothingGoes(s: seq<ChunkKey>, t: seq<ChunkKey>)
    requires forall i :: 0 <= i < |s| ==> s[i] !in t
    ensures Without(s, t) == s
  {
    if s != [] {
      NothingGoes(s[..|s| - 1], t);
      assert s == s[..|s| - 1] + [s[|s| - 1]];
    }
  }

  /** The plan's first keys stand first among the held ones. */
  ghost predicate FrontHeld(p: Plan, s: State, rid: string)
    requires p.Valid()
  {
    Lo(p) <= |HeldKeys(s.ses, rid)| && HeldKeys(s.ses, rid)[..Lo(p)] == PartOf(p, FreeTaken)
  }

  lemma RankTakeKeepsFront(p: Plan, s: State, rid: string, rank: nat)
    requires p.Valid() && FrontHeld(p, s, rid) && rank < p.ws
    ensures var held := TakenFrom(s, rid, PartOf(p, RankTaken(rank)));
            Lo(p) <= |held| && held[..Lo(p)] == PartOf(p, FreeTaken)
  {
    hide PartOf, Lo, Without, Within;
    var held := HeldKeys(s.ses, rid);
    var part := PartOf(p, RankTaken(rank));
    forall i | 0 <= i < Lo(p)
      ensures held[i] !in Within(part, held)
    {
      assert held[i] == held[..Lo(p)][i];
      if held[i] in part {
        PartsApart(p, FreeTaken, RankTaken(rank), held[i]);
      }
    }
    WithoutKeepsFront(held, Within(part, held), Lo(p));
  }

  /** What a release in a conducted run takes: some rank's part, or FREE's snapshot. */
  lemma TakerIs(p: Plan, rid: string, states: seq<State>, steps: seq<Step>, m: nat, n: nat, x: nat, keys: seq<ChunkKey>)
    returns (a: nat, rank: nat)
    requires Run(states, steps) && n <= |steps| && Conducted(p, rid, states, steps, m, n) && x < n
    requires Takes(states[x], steps[x], rid, keys)
    ensures m <= a < x
    ensures || (IsFree(steps[a], rid) && keys == FirstHeldOf(states[a].ses, rid, Lo(p)))
            || (RankRetrieves(p, rid, steps[a], rank) && keys == PartOf(p, RankTaken(rank))
               && steps[a].call.id == steps[x].call.id)
  {
    hide Enabled, Apply, Init, FirstHeldOf, PartOf;
    a := ReleaseHasSource(states, steps, x, steps[x].call.id);
    assert InPlan(p, rid, steps[a]);
    rank := 0;
    if IsRetrieve(steps[a], rid) {
      rank :| RankRetrieves(p, rid, steps[a], rank);
    }
  }

  /** Until FREE has come, its keys are held and stand first, whatever the ranks have done. */
  lemma {:induction false} FrontStays(p: Plan, rid: string, states: seq<State>, steps: seq<Step>, m: nat, n: nat,
                                      x: nat)
    requires Run(states, steps) && n <= |steps| && Conducted(p, rid, states, steps, m, n) && m <= x <= n
    requires forall a: nat :: a < x ==> !IsFree(steps[a], rid)
    ensures FrontHeld(p, states[x], rid)
    decreases x
  {
    hide Inv, Enabled, Apply, Init, IsEnding, Takes, TakenFrom, IsFree;
    if x == m {
      FrontAtStart(p, states[m], rid);
    } else {
      var s, step := states[x - 1], steps[x - 1];
      FrontStays(p, rid, states, steps, m, n, x - 1);
      RunStep(states, steps, x - 1);
      RunKeepsInv(states, steps, x - 1);
      forall id
        ensures !IsEnding(s, id, rid)
      {
        NeverEnding(p, rid, states, steps, m, n, x - 1, id);
      }
      assert InPlan(p, rid, step);
      if HeldKeys(s.ses, rid) == [] {
        NoFront(p, states[x], rid);
      } else {
        HoldsChange(s, step, rid);
        if HeldKeys(states[x].ses, rid) != HeldKeys(s.ses, rid) {
          var keys :| Takes(s, step, rid, keys) && HeldKeys(states[x].ses, rid) == TakenFrom(s, rid, keys);
          var a, rank := TakerIs(p, rid, states, steps, m, n, x - 1, keys);
          RankTakeKeepsFront(p, s, rid, rank);
        }
      }
    }
  }

  lemma FrontAtStart(p: Plan, s: State, rid: string)
    requires p.Valid() && HeldKeys(s.ses, rid) == p.all
    ensures FrontHeld(p, s, rid)
  {
    LoHi(p);
  }

  lemma NoFront(p: Plan, t: State, rid: string)
    requires p.Valid() && Lo(p) == 0
    ensures FrontHeld(p, t, rid)
  {
  }

  // ---- nobody else takes a rank's keys ----------------------------------------------------------

  /** Whoever takes a key of a rank's part is the release of that rank's own RETRIEVE. */
  lemma TakerIsOwnRank(p: Plan, rid: string, states: seq<State>, steps: seq<Step>, m: nat, n: nat, x: nat, rank: nat,
                       k: ChunkKey)
    returns (a: nat)
    requires Run(states, steps) && n <= |steps| && Conducted(p, rid, states, steps, m, n) && x < n
    requires k in PartOf(p, RankTaken(rank)) && TakesFrom(states[x], steps[x], rid, k)
    ensures a < x && RankRetrieves(p, rid, steps[a], rank) && steps[x].call.ReleaseTake?
    ensures steps[a].call.id == steps[x].call.id && states[x].handlers[steps[x].call.id].Releasing?
  {
    hide Enabled, Apply, Init, PartOf, Lo;
    assert InPlan(p, rid, steps[x]);
    var keys := states[x].handlers[steps[x].call.id].keys;
    assert Takes(states[x], steps[x], rid, keys);
    var r;
    a, r := TakerIs(p, rid, states, steps, m, n, x, keys);
    if RankRetrieves(p, rid, steps[a], r) && keys == PartOf(p, RankTaken(r)) {
      if r != rank {
        PartsApart(p, RankTaken(rank), RankTaken(r), k);
      }
    } else {
      FrontStays(p, rid, states, steps, m, n, a);
      assert keys == PartOf(p, FreeTaken);
      PartsApart(p, RankTaken(rank), FreeTaken, k);
    }
  }

  /** What is held and not taken stays held. */
  lemma {:induction false} HeldStays(p: Plan, rid: string, states: seq<State>, steps: seq<Step>, m: nat, n: nat, x: nat,
                                     k: ChunkKey)
    requires Run(states, steps) && n <= |steps| && Conducted(p, rid, states, steps, m, n) && m <= x <= n
    requires k in p.all && Untaken(states, steps, m, x, rid, k)
    ensures k in HeldKeys(states[x].ses, rid)
    decreases x
  {
    hide Inv, Enabled, Apply, Init, IsEnding, TakesFrom, Takes, TakenFrom;
    if x > m {
      var s, step := states[x - 1], steps[x - 1];
      HeldStays(p, rid, states, steps, m, n, x - 1, k);
      RunStep(states, steps, x - 1);
      RunKeepsInv(states, steps, x - 1);
      forall id
        ensures !IsEnding(s, id, rid)
      {
        NeverEnding(p, rid, states, steps, m, n, x - 1, id);
      }
      assert InPlan(p, rid, step);
      HoldsChange(s, step, rid);
      if HeldKeys(states[x].ses, rid) != HeldKeys(s.ses, rid) {
        var keys :| Takes(s, step, rid, keys) && HeldKeys(states[x].ses, rid) == TakenFrom(s, rid, keys);
        NotTaken(s, step, rid, keys, k);
      }
    }
  }

  lemma NotTaken(s: State, step: Step, rid: string, keys: seq<ChunkKey>, k: ChunkKey)
    requires Takes(s, step, rid, keys) && !TakesFrom(s, step, rid, k) && k in HeldKeys(s.ses, rid)
    ensures k in TakenFrom(s, rid, keys)
  {
  }

  /** While a rank's RETRIEVE is under way, and before it, no release takes a key of it. */
  lemma NoneTaken(p: Plan, rid: string, states: seq<State>, steps: seq<Step>, m: nat, n: nat, j: nat, id: nat,
                  rank: nat, k: ChunkKey)
    requires Run(states, steps) && n <= |steps| && Conducted(p, rid, states, steps, m, n) && m <= j < n
    requires RankRetrieves(p, rid, steps[j], rank) && steps[j].call.id == id && k in PartOf(p, RankTaken(rank))
    requires forall x: nat :: j < x <= n ==> id in states[x].handlers && states[x].handlers[id].Reading?
    ensures Untaken(states, steps, m, n, rid, k)
  {
    hide Enabled, Apply, Init, PartOf, TakesFrom;
    RunStep(states, steps, j);
    forall x: nat | m <= x < n
      ensures !TakesFrom(states[x], steps[x], rid, k)
    {
      if TakesFrom(states[x], steps[x], rid, k) {
        var a := TakerIsOwnRank(p, rid, states, steps, m, n, x, rank, k);
        assert false;
      }
    }
  }

  lemma PartWithin(p: Plan, a: Act, k: ChunkKey)
    requires p.Valid() && k in PartOf(p, a)
    ensures k in p.all
  {
    var i := PartIndex(p, a, k);
  }

  /** However late a rank sends its RETRIEVE, its keys are still held and the call finds them. */
  lemma RankCanRetrieve(p: Plan, rid: string, states: seq<State>, steps: seq<Step>, m: nat, n: nat, rank: nat, id: nat)
    requires Run(states, steps) && n <= |steps| && Conducted(p, rid, states, steps, m, n) && rank < p.ws
    requires (forall a: nat :: a < n ==> !RankRetrieves(p, rid, steps[a], rank)) && id !in states[n].handlers
    ensures CanRetrieve(states[n], id, rid, PartOf(p, RankTaken(rank)))
    ensures forall k :: k in PartOf(p, RankTaken(rank)) ==>
              k in HeldKeys(states[n].ses, rid) && CanRead(states[n].l1.entries, k)
  {
    hide Enabled, Apply, Init, Inv, PartOf, TakesFrom, RankRetrieves;
    var part := PartOf(p, RankTaken(rank));
    RunKeepsInv(states, steps, n);
    forall k | k in part
      ensures k in HeldKeys(states[n].ses, rid) && CanRead(states[n].l1.entries, k)
    {
      forall x: nat | m <= x < n
        ensures !TakesFrom(states[x], steps[x], rid, k)
      {
        if TakesFrom(states[x], steps[x], rid, k) {
          var a := TakerIsOwnRank(p, rid, states, steps, m, n, x, rank, k);
          assert false;
        }
      }
      PartWithin(p, RankTaken(rank), k);
      HeldStays(p, rid, states, steps, m, n, n, k);
      HeldIsSupplied(states[n], rid, k);
    }
    PartListsOnce(p, rank);
    HeldCanBeRetrieved(states[n], id, rid, part);
  }

  lemma PartListsOnce(p: Plan, rank: nat)
    requires p.Valid() && rank < p.ws
    ensures NoDup(PartOf(p, RankTaken(rank)))
  {
    SliceNoDup(p.all, p.ws, rank, p.f, p.m);
  }

  /**
   * The request's FREE and the other ranks' RETRIEVEs and releases may run at
   * any moment: what a rank's RETRIEVE has sent by state n is, chunk by chunk,
   * the blob stored under its key, and all of it is one snapshot.
   */
  lemma RankRetrievesStored(p: Plan, rid: string, states: seq<State>, steps: seq<Step>, m: nat, n: nat, id: nat,
                            rank: nat)
    returns (j: nat, cs: seq<nat>)
    requires Run(states, steps) && n <= |steps| && Conducted(p, rid, states, steps, m, n)
    requires id in states[n].handlers && states[n].handlers[id].Reading? && states[n].handlers[id].rid == rid
    requires rank < p.ws && states[n].handlers[id].keys == PartOf(p, RankTaken(rank))
    ensures History(states, steps, n, id, j, cs) && m <= j
    ensures var h := states[n].handlers[id];
            forall i: nat :: i < |h.out| ==>
              Shows(states, j, n, h.keys[i], h.out[i]) && Origin(states, steps, j, h.keys[i], h.out[i])
  {
    hide Enabled, Apply, Init, PartOf, TakesFrom, Shows, Origin, HeldThroughout, Untaken;
    j, cs := RetrieveReturnsStored(states, steps, n, id);
    var h := states[n].handlers[id];
    assert RankRetrieves(p, rid, steps[j], rank) && !(j < m);
    forall i: nat | i < |h.out|
      ensures Shows(states, j, n, h.keys[i], h.out[i]) && Origin(states, steps, j, h.keys[i], h.out[i])
    {
      var k := h.keys[i];
      NoneTaken(p, rid, states, steps, m, n, j, id, rank, k);
      PartWithin(p, RankTaken(rank), k);
      UntakenSplits(states, steps, m, j, n, rid, k);
      HeldStays(p, rid, states, steps, m, n, j, k);
      HeldIs(states, steps, j, n, rid, k);
    }
  }

  lemma UntakenSplits(states: seq<State>, steps: seq<Step>, m: nat, j: nat, n: nat, rid: string, k: ChunkKey)
    requires m <= j <= n < |states| == |steps| + 1 && Untaken(states, steps, m, n, rid, k)
    ensures Untaken(states, steps, m, j, rid, k) && Untaken(states, steps, j, n, rid, k)
  {
  }

  lemma HeldIs(states: seq<State>, steps: seq<Step>, j: nat, n: nat, rid: string, k: ChunkKey)
    requires j <= n < |states| == |steps| + 1 && k in HeldKeys(states[j].ses, rid)
               && Untaken(states, steps, j, n, rid, k)
    ensures HeldThroughout(states, steps, j, n, rid, k)
  {
  }
}
