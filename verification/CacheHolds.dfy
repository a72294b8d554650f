// Who holds what over whole runs: exact accounting of read_count, the one way
// to lose a hold, and what a STORE that fails leaves behind.
module CacheHolds {
  import opened Types
  import opened LockProtocol
  import opened Sessions
  import opened Cache
  import opened CacheInv
  import opened CacheFrames
  import opened CacheBooks
  import opened CacheSafety

  // ---- accounting -------------------------------------------------------------------

  ghost predicate IsLost(s: State, o: Owner) {
    o.Call? && o.id in s.handlers && s.handlers[o.id].Lost?
  }

  /** Sessions, the prefetch worker, write-back and unfinished releases that hold k. */
  ghost function LiveHolders(s: State, k: ChunkKey): set<Owner> {
    set o | o in Claimants(s, Reads, k) && !IsLost(s, o)
  }

  ghost function LostHolders(s: State, k: ChunkKey): set<Owner> {
    set o | o in Claimants(s, Reads, k) && IsLost(s, o)
  }

  /**
   * In every reachable state read_count is the number of live holders plus
   * the number of END_SESSIONs that lost a hold on the key; so it is at least
   * the number of live holders, and equal to it exactly when none was lost.
   */
  lemma HoldAccounting(states: seq<State>, steps: seq<Step>, n: nat, k: ChunkKey)
    requires Run(states, steps) && n < |states|
    ensures var s := states[n];
            var count := if k in s.l1.entries then s.l1.entries[k].readCount else 0;
            && count == |LiveHolders(s, k)| + |LostHolders(s, k)|
            && count >= |LiveHolders(s, k)|
            && (count == |LiveHolders(s, k)| <==> forall o :: IsLost(s, o) ==> k !in Claim(s, Reads, o))
  {
    hide Run, Claim, CoreOk, TempsOk, ContentOk, RecordsOk, CoverOk, HandlersOk, JobOk, QueueOk, SessionsOk, MirrorOk;
    var s := states[n];
    RunKeepsInv(states, steps, n);
    var all, live, lost := Claimants(s, Reads, k), LiveHolders(s, k), LostHolders(s, k);
    assert |all| == Recorded(s.l1.entries, Reads, k);
    assert all == live + lost && live !! lost;
    if lost == {} {
      forall o | IsLost(s, o)
        ensures k !in Claim(s, Reads, o)
      {
        MemberByClaim(s, Reads, o, k);
        assert o !in lost;
      }
    } else {
      var o :| o in lost;
      MemberByClaim(s, Reads, o, k);
    }
  }

  /** What is held by anyone is there, readable, counted, and neither evictable nor up for freeing by others. */
  lemma HeldIsPinned(states: seq<State>, steps: seq<Step>, n: nat, o: Owner, k: ChunkKey)
    requires Run(states, steps) && n < |states| && k in Claim(states[n], Reads, o)
    ensures var l1 := states[n].l1;
            CanRead(l1.entries, k) && l1.entries[k].readCount > 0 && !Deletable(l1.entries, false, k)
  {
    RunKeepsInv(states, steps, n);
    CoreLocksOf(states[n]);
    HolderReads(states[n], o, k);
  }

  // ---- the lost hold ---------------------------------------------------------------------

  /** Step j is an END_SESSION's second section that finds keys still held. */
  ghost predicate Leaks(s: State, step: Step) {
    && step.ByCall? && step.call.EndSecond? && CanEndSecond(s, step.call.id)
    && HeldKeys(s.ses, s.handlers[step.call.id].rid) != []
  }

  ghost predicate SomeLost(s: State) {
    exists id :: id in s.handlers && s.handlers[id].Lost?
  }

  lemma CallTombs(s: State, a: CallStep, id: nat)
    requires CallEnabled(s, a)
    ensures var t := CallApply(s, a);
            && (id in s.handlers && (s.handlers[id].Lost? || s.handlers[id].Dead?) ==>
               id in t.handlers && t.handlers[id] == s.handlers[id])
            && (id in t.handlers && t.handlers[id].Lost? ==>
                  (id in s.handlers && s.handlers[id] == t.handlers[id]) || Leaks(s, ByCall(a)))
            && (Leaks(s, ByCall(a)) ==> SomeLost(t))
  {
    hide FinishRead, Finds, Sized, TakeReleasedOf, Promote, Close;
    var t := CallApply(s, a);
    if Leaks(s, ByCall(a)) {
      assert a.id in t.handlers && t.handlers[a.id].Lost?;
    }
  }

  /** Lost holds and dead STOREs stay for ever; a lost hold appears only by such an END_SESSION. */
  lemma TombsStay(s: State, step: Step, id: nat)
    requires Enabled(s, step)
    ensures var t := Apply(s, step);
            && (id in s.handlers && (s.handlers[id].Lost? || s.handlers[id].Dead?) ==>
               id in t.handlers && t.handlers[id] == s.handlers[id])
            && (id in t.handlers && t.handlers[id].Lost? ==>
               (id in s.handlers && s.handlers[id] == t.handlers[id]) || Leaks(s, step))
            && (Leaks(s, step) ==> SomeLost(t))
  {
    hide StoreEnabled, LookupEnabled, KeeperEnabled, CallEnabled, StoreApply, LookupApply, KeeperApply, CallApply;
    match step
    case ByStore(a) => StoreFrame(s, a);
    case ByLookup(a) => LookupFrame(s, a);
    case ByKeeper(a) => KeeperFrame(s, a);
    case ByCall(a) => CallTombs(s, a, id);
  }

  ghost predicate LeakedBefore(states: seq<State>, steps: seq<Step>, n: nat)
    requires n < |states| == |steps| + 1
  {
    exists j :: 0 <= j < n && Leaks(states[j], steps[j])
  }

  /** A hold is lost in state n exactly when an END_SESSION before it found keys still held in its second section. */
  lemma {:induction false} LostIffLeaked(states: seq<State>, steps: seq<Step>, n: nat)
    requires Run(states, steps) && n < |states|
    ensures SomeLost(states[n]) <==> LeakedBefore(states, steps, n)
  {
    hide Enabled, Apply, Leaks;
    if n > 0 {
      var s, t := states[n - 1], states[n];
      LostIffLeaked(states, steps, n - 1);
      RunStep(states, steps, n - 1);
      if SomeLost(t) {
        var id :| id in t.handlers && t.handlers[id].Lost?;
        TombsStay(s, steps[n - 1], id);
      }
      if LeakedBefore(states, steps, n) {
        var j :| 0 <= j < n && Leaks(states[j], steps[j]);
        if j < n - 1 {
          assert SomeLost(s);
          var id :| id in s.handlers && s.handlers[id].Lost?;
          TombsStay(s, steps[n - 1], id);
        } else {
          TombsStay(s, steps[n - 1], 0);
        }
      }
    }
  }

  /** In a run without such an END_SESSION, read_count is exactly the number of live holders. */
  lemma ExactWithoutLeak(states: seq<State>, steps: seq<Step>, n: nat, k: ChunkKey)
    requires Run(states, steps) && n < |states| && !LeakedBefore(states, steps, n)
    ensures (if k in states[n].l1.entries then states[n].l1.entries[k].readCount else 0) == |LiveHolders(states[n], k)|
  {
    HoldAccounting(states, steps, n, k);
    LostIffLeaked(states, steps, n);
    hide Run, LiveHolders, Claim;
  }

  lemma {:induction false} TombsRemain(states: seq<State>, steps: seq<Step>, m: nat, n: nat, id: nat)
    requires Run(states, steps) && m <= n < |states|
    requires id in states[m].handlers && (states[m].handlers[id].Lost? || states[m].handlers[id].Dead?)
    ensures id in states[n].handlers && states[n].handlers[id] == states[m].handlers[id]
    decreases n
  {
    hide Enabled, Apply, Init;
    if m < n {
      TombsRemain(states, steps, m, n - 1, id);
      RunStep(states, steps, n - 1);
      TombsStay(states[n - 1], steps[n - 1], id);
    }
  }

  /** A lost hold keeps its chunks in the pool for the rest of the run: never evictable, never freed. */
  lemma LostPinsForEver(states: seq<State>, steps: seq<Step>, m: nat, n: nat, id: nat, k: ChunkKey)
    requires Run(states, steps) && m <= n < |states|
    requires id in states[m].handlers && states[m].handlers[id].Lost? && k in states[m].handlers[id].keys
    ensures CanRead(states[n].l1.entries, k) && states[n].l1.entries[k].readCount > 0
  {
    TombsRemain(states, steps, m, n, id);
    assert k in Claim(states[n], Reads, Call(id));
    hide Run;
    HeldIsPinned(states, steps, n, Call(id), k);
  }

  /**
   * A STORE that raised, or that was sent too few blobs, leaves its other
   * keys write-locked for the rest of the run.
   */
  lemma DeadLocksForEver(states: seq<State>, steps: seq<Step>, m: nat, n: nat, id: nat, k: ChunkKey)
    requires Run(states, steps) && m <= n < |states|
    requires id in states[m].handlers && states[m].handlers[id].Dead? && k in states[m].handlers[id].keys
    ensures k in states[n].l1.entries && states[n].l1.entries[k].writeLocked
  {
    TombsRemain(states, steps, m, n, id);
    RunKeepsInv(states, steps, n);
    assert k in Claim(states[n], Writes, Call(id));
    CoreLocksOf(states[n]);
    WriterLocks(states[n], Call(id), k);
  }

  // ---- when the gap opens ---------------------------------------------------------------------

  ghost predicate IsEnding(s: State, id: nat, rid: string) {
    && id in s.handlers
    && (s.handlers[id] == Closing(rid) || (s.handlers[id].Dropping? && s.handlers[id].ending
       && s.handlers[id].rid == rid))
  }

  lemma CallHeld(s: State, a: CallStep, rid: string, k: ChunkKey)
    requires CallEnabled(s, a)
    ensures k in HeldKeys(CallApply(s, a).ses, rid) ==> k in HeldKeys(s.ses, rid)
    ensures forall id :: IsEnding(CallApply(s, a), id, rid) ==>
              || IsEnding(s, id, rid)
              || (a == EndFirst(id, rid) && HeldKeys(CallApply(s, a).ses, rid) == [])
  {
    hide FinishRead, Finds, Sized, Promote;
    if a.EndFirst? && a.rid == rid {
      TakesAll(s.ses, rid);
    }
  }

  /** Nothing enters a session's held keys but by the resolve of its lookup. */
  lemma HeldGrowsByResolve(s: State, step: Step, rid: string)
    requires Enabled(s, step) && HeldKeys(s.ses, rid) == [] && !ResolvesFor(s, step, rid)
    ensures HeldKeys(Apply(s, step).ses, rid) == []
  {
    hide StoreEnabled, LookupEnabled, KeeperEnabled, CallEnabled, StoreApply, LookupApply, KeeperApply, CallApply;
    match step
    case ByStore(a) => StoreFrame(s, a);
    case ByLookup(a) => LookupFrame(s, a);
    case ByKeeper(a) => KeeperFrame(s, a);
    case ByCall(a) =>
      var left := HeldKeys(CallApply(s, a).ses, rid);
      if left != [] {
        CallHeld(s, a, rid, left[0]);
      }
  }

  /** An ending handler is between its sections, or has just emptied its session. */
  lemma EndingBegins(s: State, step: Step, id: nat, rid: string)
    requires Enabled(s, step) && IsEnding(Apply(s, step), id, rid)
    ensures IsEnding(s, id, rid) || (step == ByCall(EndFirst(id, rid)) && HeldKeys(Apply(s, step).ses, rid) == [])
  {
    hide StoreEnabled, LookupEnabled, KeeperEnabled, CallEnabled, StoreApply, LookupApply, KeeperApply, CallApply;
    match step
    case ByStore(a) => StoreFrame(s, a);
    case ByLookup(a) => LookupFrame(s, a);
    case ByKeeper(a) => KeeperFrame(s, a);
    case ByCall(a) => CallHeld(s, a, rid, ChunkKey([], "", 0));
  }

  /**
   * The END_SESSION's first section came at step a, and a resolve for its
   * session fell at step b between there and n.
   */
  ghost predicate GapHit(states: seq<State>, steps: seq<Step>, a: nat, b: nat, n: nat, id: nat, rid: string)
    requires n < |states| == |steps| + 1
  {
    a < b < n && steps[a] == ByCall(EndFirst(id, rid)) && ResolvesFor(states[b], steps[b], rid)
  }

  lemma {:induction false} EndingFound(states: seq<State>, steps: seq<Step>, n: nat, id: nat, rid: string)
    returns (a: nat, b: nat)
    requires Run(states, steps) && n < |states| && IsEnding(states[n], id, rid) && HeldKeys(states[n].ses, rid) != []
    ensures GapHit(states, steps, a, b, n, id, rid)
    decreases n
  {
    hide Enabled, Apply, ResolvesFor, IsEnding;
    assert n > 0 by {
      NothingEndsAtStart(states[0], id, rid);
    }
    var s, step := states[n - 1], steps[n - 1];
    RunStep(states, steps, n - 1);
    EndingBegins(s, step, id, rid);
    if HeldKeys(s.ses, rid) != [] {
      a, b := EndingFound(states, steps, n - 1, id, rid);
    } else {
      if !ResolvesFor(s, step, rid) {
        HeldGrowsByResolve(s, step, rid);
      }
      a := EndingStarted(states, steps, n - 1, id, rid);
      b := n - 1;
    }
  }

  lemma NothingEndsAtStart(s: State, id: nat, rid: string)
    requires Init(s)
    ensures !IsEnding(s, id, rid)
  {
  }

  lemma {:induction false} EndingStarted(states: seq<State>, steps: seq<Step>, n: nat, id: nat, rid: string)
    returns (a: nat)
    requires Run(states, steps) && n < |states| && IsEnding(states[n], id, rid)
    ensures a < n && steps[a] == ByCall(EndFirst(id, rid))
    decreases n
  {
    hide Enabled, Apply, IsEnding;
    assert n > 0 by {
      NothingEndsAtStart(states[0], id, rid);
    }
    RunStep(states, steps, n - 1);
    EndingBegins(states[n - 1], steps[n - 1], id, rid);
    if IsEnding(states[n - 1], id, rid) {
      a := EndingStarted(states, steps, n - 1, id, rid);
    } else {
      a := n - 1;
    }
  }

  /** Holds are lost only when the session's lookup resolves between END_SESSION's two sections. */
  lemma LeakNeedsGap(states: seq<State>, steps: seq<Step>, n: nat) returns (a: nat, b: nat)
    requires Run(states, steps) && n < |steps| && Leaks(states[n], steps[n])
    ensures var id := steps[n].call.id;
            GapHit(states, steps, a, b, n, id, states[n].handlers[id].rid)
  {
    hide Enabled, Apply, GapHit;
    var id := steps[n].call.id;
    assert IsEnding(states[n], id, states[n].handlers[id].rid);
    a, b := EndingFound(states, steps, n, id, states[n].handlers[id].rid);
  }

  // ---- an END_SESSION that comes after the answer ---------------------------------------------

  /** QUERY has an answer for session rid. */
  ghost predicate Answered(s: State, rid: string) {
    rid in s.ses.hits && s.ses.hits[rid].Some?
  }

  /** The lookup of rid is neither queued nor in the worker's hands. */
  ghost predicate LookedUp(s: State, rid: string) {
    rid in s.asked && rid !in Active(s.job) + Rids(s.ses.jobs)
  }

  lemma ResolvedIsLookedUp(s: State)
    requires Inv(s) && CanJobResolve(s)
    ensures LookedUp(DoJobResolve(s), s.job.msg.rid)
  {
    hide Books, CoreOk, TempsOk, ContentOk, RecordsOk, CoverOk, HandlersOk, SessionsOk, MirrorOk, FromKeys;
    var t := DoJobResolve(s);
    assert LookupOk(s, s.job.msg);
    assert Active(t.job) + Rids(t.ses.jobs) == (Active(s.job) + Rids(s.ses.jobs))[1..];
    NoDupTail(Active(s.job) + Rids(s.ses.jobs));
  }

  lemma LookupLeavesBehind(s: State, a: LookupStep, rid: string)
    requires LookupEnabled(s, a)
    ensures LookedUp(s, rid) ==> LookedUp(LookupApply(s, a), rid)
    ensures Answered(LookupApply(s, a), rid) ==> Answered(s, rid) || (a == JobResolve && s.job.msg.rid == rid)
  {
    hide ReserveWrite, ReserveReadPrefix, FinishRead, Finds, FinishWriteAndHold, Delete, BestFirst, FromKeys;
    var t := LookupApply(s, a);
    if a.StartLookup? {
      assert Rids(t.ses.jobs) == Rids(s.ses.jobs) + [a.rid];
    } else if a.JobTake? {
      assert Active(t.job) + Rids(t.ses.jobs) == Rids(s.ses.jobs);
    }
  }

  /** One step of: an answered lookup is over, and over for good. */
  lemma StepLeavesBehind(s: State, step: Step, rid: string)
    requires Inv(s) && Enabled(s, step)
    ensures LookedUp(s, rid) ==> LookedUp(Apply(s, step), rid)
    ensures Answered(Apply(s, step), rid) ==> Answered(s, rid) || LookedUp(Apply(s, step), rid)
  {
    hide Inv, StoreEnabled, KeeperEnabled, CallEnabled, StoreApply, KeeperApply, CallApply;
    match step
    case ByStore(a) => StoreFrame(s, a);
    case ByKeeper(a) => KeeperFrame(s, a);
    case ByCall(a) => CallFrame(s, a);
    case ByLookup(a) =>
      LookupLeavesBehind(s, a, rid);
      if a == JobResolve && s.job.msg.rid == rid {
        ResolvedIsLookedUp(s);
      }
  }

  lemma {:induction false} AnsweredIsLookedUp(states: seq<State>, steps: seq<Step>, n: nat, rid: string)
    requires Run(states, steps) && n < |states| && Answered(states[n], rid)
    ensures LookedUp(states[n], rid)
  {
    hide Inv, Enabled, Apply, LookedUp;
    if n > 0 {
      RunKeepsInv(states, steps, n - 1);
      RunStep(states, steps, n - 1);
      StepLeavesBehind(states[n - 1], steps[n - 1], rid);
      if Answered(states[n - 1], rid) {
        AnsweredIsLookedUp(states, steps, n - 1, rid);
      }
    }
  }

  lemma LookedUpIsOver(s: State, step: Step, rid: string)
    requires LookedUp(s, rid)
    ensures !ResolvesFor(s, step, rid)
  {
  }

  lemma EndEmpties(s: State, id: nat, rid: string)
    ensures HeldKeys(Take(s, id, rid, HeldKeys(s.ses, rid), true).ses, rid) == []
  {
    TakesAll(s.ses, rid);
  }

  /** Once a lookup is answered, an END_SESSION leaves its session without holds for the rest of the run. */
  lemma {:induction false} AnsweredEndsClean(states: seq<State>, steps: seq<Step>, a: nat, n: nat, id: nat, rid: string)
    requires Run(states, steps) && a < n < |states|
    requires steps[a] == ByCall(EndFirst(id, rid)) && Answered(states[a], rid)
    ensures LookedUp(states[n], rid) && HeldKeys(states[n].ses, rid) == []
    decreases n
  {
    hide Inv, StoreEnabled, LookupEnabled, KeeperEnabled, StoreApply, LookupApply, KeeperApply, LookedUp, Take,
         ResolvesFor;
    var s, step := states[n - 1], steps[n - 1];
    RunStep(states, steps, n - 1);
    RunKeepsInv(states, steps, n - 1);
    StepLeavesBehind(s, step, rid);
    if n - 1 == a {
      AnsweredIsLookedUp(states, steps, a, rid);
      EndEmpties(s, id, rid);
    } else {
      AnsweredEndsClean(states, steps, a, n - 1, id, rid);
      LookedUpIsOver(s, step, rid);
      HeldGrowsByResolve(s, step, rid);
    }
  }

  /** Every END_SESSION before state n began after QUERY could answer for its session. */
  ghost predicate EndsAfterAnswers(states: seq<State>, steps: seq<Step>, n: nat)
    requires n < |states| == |steps| + 1
  {
    forall a: nat, id, rid :: a < n && steps[a] == ByCall(EndFirst(id, rid)) ==> Answered(states[a], rid)
  }

  /**
   * A client that ends sessions only after their lookups are answered loses
   * no hold: read_count is exactly the number of live holders.
   */
  lemma ExactAfterAnswers(states: seq<State>, steps: seq<Step>, n: nat, k: ChunkKey)
    requires Run(states, steps) && n < |states| && EndsAfterAnswers(states, steps, n)
    ensures !SomeLost(states[n])
    ensures (if k in states[n].l1.entries then states[n].l1.entries[k].readCount else 0) == |LiveHolders(states[n], k)|
  {
    hide Enabled, Apply, Init, LiveHolders, Answered;
    LostIffLeaked(states, steps, n);
    if LeakedBefore(states, steps, n) {
      var j :| 0 <= j < n && Leaks(states[j], steps[j]);
      var a, b := LeakNeedsGap(states, steps, j);
      var id := steps[j].call.id;
      AnsweredEndsClean(states, steps, a, j, id, states[j].handlers[id].rid);
      assert false;
    }
    ExactWithoutLeak(states, steps, n, k);
  }
}
