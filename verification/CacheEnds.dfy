// What is left of a session once it is ended: nothing, even when its lookup is
// still on its way.
module CacheEnds {
  import opened LockProtocol
  import opened Sessions
  import opened Cache
  import opened CacheInv
  import opened CacheFrames
  import opened CacheBooks
  import opened CacheSafety

  /** QUERY has nothing for the session, and it holds nothing. */
  ghost predicate Ended(s: State, rid: string) {
    rid in s.asked && rid !in s.ses.hits && rid !in s.ses.held
  }

  lemma CloseEnds(s: State, id: nat)
    requires CanEndSecond(s, id) && s.handlers[id].rid in s.asked
    ensures Ended(DoEndSecond(s, id), s.handlers[id].rid)
  {
  }

  lemma LookupKeepsEnded(s: State, a: LookupStep, rid: string)
    requires LookupEnabled(s, a) && Ended(s, rid)
    ensures Ended(LookupApply(s, a), rid)
  {
    hide ReserveWrite, ReserveReadPrefix, FinishRead, Finds, FinishWriteAndHold, Delete, BestFirst, FromKeys;
  }

  lemma CallKeepsEnded(s: State, a: CallStep, rid: string)
    requires CallEnabled(s, a) && Ended(s, rid)
    ensures Ended(CallApply(s, a), rid)
  {
    hide FinishRead, Finds, Sized, Promote, Within, Without;
  }

  lemma StepKeepsEnded(s: State, step: Step, rid: string)
    requires Enabled(s, step) && Ended(s, rid)
    ensures Ended(Apply(s, step), rid)
  {
    hide StoreEnabled, LookupEnabled, KeeperEnabled, CallEnabled, StoreApply, LookupApply, KeeperApply, CallApply;
    match step
    case ByStore(a) => StoreFrame(s, a);
    case ByLookup(a) => LookupKeepsEnded(s, a, rid);
    case ByKeeper(a) => KeeperFrame(s, a);
    case ByCall(a) => CallKeepsEnded(s, a, rid);
  }

  /** Step a is the second section of an END_SESSION of rid, whose lookup was started before. */
  ghost predicate Ends(states: seq<State>, steps: seq<Step>, a: nat, rid: string)
    requires a < |steps| < |states|
  {
    exists id :: steps[a] == ByCall(EndSecond(id)) && CanEndSecond(states[a], id) && states[a].handlers[id].rid == rid
                 && rid in states[a].asked
  }

  lemma EndingStep(states: seq<State>, steps: seq<Step>, a: nat, rid: string)
    requires Run(states, steps) && a < |steps| && Ends(states, steps, a, rid)
    ensures Ended(states[a + 1], rid)
  {
    hide Ended, Init;
    RunStep(states, steps, a);
    var id :| steps[a] == ByCall(EndSecond(id)) && CanEndSecond(states[a], id) && states[a].handlers[id].rid == rid
              && rid in states[a].asked;
    CloseEnds(states[a], id);
  }

  /** A session that was ended stays ended: QUERY never answers for it and it never holds a key again. */
  lemma {:induction false} EndedForGood(states: seq<State>, steps: seq<Step>, a: nat, n: nat, rid: string)
    requires Run(states, steps) && a < n < |states| && Ends(states, steps, a, rid)
    ensures rid !in states[n].ses.hits && rid !in states[n].ses.held
    ensures Ended(states[n], rid)
    decreases n
  {
    hide Linked, Init, Ends, Enabled, Apply;
    if n == a + 1 {
      EndingStep(states, steps, a, rid);
    } else {
      EndedForGood(states, steps, a, n - 1, rid);
      RunStep(states, steps, n - 1);
      StepKeepsEnded(states[n - 1], steps[n - 1], rid);
    }
  }

  ghost predicate EndedBefore(states: seq<State>, steps: seq<Step>, n: nat, rid: string)
    requires n <= |steps| < |states|
  {
    exists a: nat :: a < n && Ends(states, steps, a, rid)
  }

  lemma LookupOpens(s: State, a: LookupStep, rid: string)
    requires LookupEnabled(s, a) && rid in LookupApply(s, a).asked
    ensures rid in LookupApply(s, a).ses.hits || (rid in s.asked && rid !in s.ses.hits)
  {
    hide ReserveWrite, ReserveReadPrefix, FinishRead, Finds, FinishWriteAndHold, Delete, BestFirst, FromKeys;
  }

  lemma CallCloses(s: State, a: CallStep, rid: string)
    requires CallEnabled(s, a) && rid in CallApply(s, a).asked
    ensures rid in s.asked
    ensures rid in s.ses.hits && rid !in CallApply(s, a).ses.hits ==>
              a.EndSecond? && CanEndSecond(s, a.id) && s.handlers[a.id].rid == rid
  {
    hide FinishRead, Finds, Sized, Promote, Within, Without;
  }

  lemma OpenStep(states: seq<State>, steps: seq<Step>, n: nat, rid: string)
    requires Run(states, steps) && n < |steps| && rid in states[n + 1].asked && rid !in states[n + 1].ses.hits
    ensures (rid in states[n].asked && rid !in states[n].ses.hits) || Ends(states, steps, n, rid)
  {
    hide Init, StoreEnabled, LookupEnabled, KeeperEnabled, CallEnabled, StoreApply, LookupApply, KeeperApply, CallApply,
         CanEndSecond;
    RunStep(states, steps, n);
    match steps[n]
    case ByStore(a) => StoreFrame(states[n], a);
    case ByLookup(a) => LookupOpens(states[n], a, rid);
    case ByKeeper(a) => KeeperFrame(states[n], a);
    case ByCall(a) => CallCloses(states[n], a, rid);
  }

  /** QUERY knows a session from its LOOKUP until an END_SESSION's second section, and only so long. */
  lemma {:induction false} OpenUntilEnded(states: seq<State>, steps: seq<Step>, n: nat, rid: string)
    requires Run(states, steps) && n <= |steps| && rid in states[n].asked
    ensures rid !in states[n].ses.hits <==> EndedBefore(states, steps, n, rid)
  {
    hide Linked, Ends;
    if a: nat :| a < n && Ends(states, steps, a, rid) {
      EndedForGood(states, steps, a, n, rid);
    } else if n > 0 && rid !in states[n].ses.hits {
      OpenStep(states, steps, n - 1, rid);
      OpenUntilEnded(states, steps, n - 1, rid);
    }
  }

  // ---- a lookup that resolves too late ------------------------------------------------------

  lemma LateResolve(s: State)
    requires CanJobResolve(s) && s.job.msg.rid !in s.ses.hits
    ensures var t := DoJobResolve(s);
            t.ses == s.ses && t.job == Returning(s.job.msg.keys[..s.job.l1 + s.job.loaded])
  {
  }

  /** The worker does nothing else before it has given back what it holds. */
  lemma ReturningStays(s: State, step: Step)
    requires Enabled(s, step) && s.job.Returning? && step != ByLookup(JobReturn)
    ensures Apply(s, step).job == s.job
  {
    hide StoreEnabled, KeeperEnabled, CallEnabled, StoreApply, KeeperApply, CallApply, ReserveWrite,
         ReserveReadPrefix, FinishRead, Finds, FinishWriteAndHold, Delete, BestFirst, MissingKeys, Part;
    match step
    case ByStore(a) => StoreFrame(s, a);
    case ByLookup(a) =>
    case ByKeeper(a) => KeeperFrame(s, a);
    case ByCall(a) => CallFrame(s, a);
  }

  lemma {:induction false} ReturnsNext(states: seq<State>, steps: seq<Step>, b: nat, m: nat)
    requires Run(states, steps) && b <= m < |states| && states[b].job.Returning?
    requires forall j :: b <= j < m ==> steps[j] != ByLookup(JobReturn)
    ensures states[m].job == states[b].job
    decreases m
  {
    hide Linked, Init, Enabled, Apply;
    if b < m {
      ReturnsNext(states, steps, b, m - 1);
      RunStep(states, steps, m - 1);
      ReturningStays(states[m - 1], steps[m - 1]);
    }
  }

  /**
   * A lookup that resolves after its session was ended publishes nothing: the
   * worker keeps the holds on all its hits, and its next step of its own
   * drops one hold on each of them, after which neither it nor the session
   * has any.
   */
  lemma EndedLookupIsReturned(states: seq<State>, steps: seq<Step>, a: nat, b: nat, m: nat, rid: string)
    requires Run(states, steps) && a < b < m < |steps| && Ends(states, steps, a, rid)
    requires ResolvesFor(states[b], steps[b], rid)
    requires steps[m] == ByLookup(JobReturn) && forall j :: b < j < m ==> steps[j] != ByLookup(JobReturn)
    ensures states[b + 1].ses == states[b].ses && states[b].job.l1 + states[b].job.loaded <= |states[b].job.msg.keys|
    ensures var keys := states[b].job.msg.keys[..states[b].job.l1 + states[b].job.loaded];
            && (forall j :: b < j <= m ==> states[j].job == Returning(keys))
            && Dropped(states[m].l1.entries, states[m + 1].l1.entries, keys)
    ensures Claim(states[m + 1], Reads, Worker) == [] && Claim(states[m + 1], Reads, Session(rid)) == []
  {
    hide Linked, Init, Ends, Enabled, Apply, Inv, Dropped;
    EndedForGood(states, steps, a, b, rid);
    EndedForGood(states, steps, a, m + 1, rid);
    RunStep(states, steps, b);
    ResolveIs(states[b], states[b + 1]);
    LateResolve(states[b]);
    forall j | b < j <= m
      ensures states[j].job == states[b + 1].job
    {
      ReturnsNext(states, steps, b + 1, j);
    }
    RunStep(states, steps, m);
    RunKeepsInv(states, steps, m);
    ReturnDrops(states[m], states[m + 1]);
  }

  lemma ResolveIs(s: State, t: State)
    requires Leads(s, ByLookup(JobResolve), t)
    ensures CanJobResolve(s) && t == DoJobResolve(s)
  {
  }

  lemma ReturnDrops(s: State, t: State)
    requires Inv(s) && Leads(s, ByLookup(JobReturn), t)
    ensures s.job.Returning? && t.job == Idle && Dropped(s.l1.entries, t.l1.entries, s.job.keys)
  {
    hide TempsOk, ContentOk, RecordsOk, CoverOk, HandlersOk, QueueOk, SessionsOk, MirrorOk, Books, L1Inv, FinishRead,
         Finds, Sized, Dropped;
    CoreLocksOf(s);
    forall k | k in s.job.keys
      ensures CanRead(s.l1.entries, k) && s.l1.entries[k].readCount > 0
    {
      assert k in Claim(s, Reads, Worker);
      HolderReads(s, Worker, k);
    }
    FinishReadEffect(s.l1, s.job.keys);
  }
}
