// What each kind of step leaves alone.
module CacheFrames {
  import opened Types
  import opened LockProtocol
  import opened Sessions
  import opened Cache

  /** Step is the resolve of a lookup of session rid. */
  ghost predicate ResolvesFor(s: State, step: Step, rid: string) {
    step == ByLookup(JobResolve) && s.job.Resolving? && s.job.msg.rid == rid
  }

  /** The step takes k out of the keys session rid holds. */
  ghost predicate TakesFrom(s: State, step: Step, rid: string, k: ChunkKey) {
    && step.ByCall?
    && match step.call
       case EndFirst(_, r) => r == rid
       case ReleaseTake(id) => CanReleaseTake(s, id) && s.handlers[id].rid == rid && k in s.handlers[id].keys
       case _ => false
  }

  /** A STORE concerns no session, no worker and no other kind of handler. */
  lemma StoreFrame(s: State, a: StoreStep)
    requires StoreEnabled(s, a)
    ensures var t := StoreApply(s, a);
            && t.ses == s.ses && t.asked == s.asked && t.job == s.job
            && (forall id :: id in s.handlers && !s.handlers[id].Storing? ==>
               id in t.handlers && t.handlers[id] == s.handlers[id])
            && (forall id :: id in t.handlers && !t.handlers[id].Storing? && !t.handlers[id].Dead? ==>
               id in s.handlers && s.handlers[id] == t.handlers[id])
  {
    hide ReserveWrite, ItemsOf, TakenKeys, FinishWrite;
  }

  /** A lookup step concerns no handler, stores nothing, and changes what a session holds only by resolving it. */
  lemma LookupFrame(s: State, a: LookupStep)
    requires LookupEnabled(s, a)
    ensures var t := LookupApply(s, a);
            && t.handlers == s.handlers && t.stored == s.stored
            && (forall rid :: rid in s.asked ==> rid in t.asked && t.asked[rid] == s.asked[rid])
            && (forall rid :: HeldKeys(t.ses, rid) == HeldKeys(s.ses, rid) || ResolvesFor(s, ByLookup(a), rid))
            && (forall rid :: rid in t.ses.hits && t.ses.hits[rid].Some? ==> rid in s.ses.hits)
  {
    hide ReserveWrite, ReserveReadPrefix, FinishRead, Finds, FinishWriteAndHold, Delete, BestFirst;
  }

  /** Write-back and eviction concern no handler, session or lookup, and store nothing. */
  lemma KeeperFrame(s: State, a: KeeperStep)
    requires KeeperEnabled(s, a)
    ensures var t := KeeperApply(s, a);
            t.handlers == s.handlers && t.ses == s.ses && t.asked == s.asked && t.job == s.job && t.stored == s.stored
  {
    hide ReserveRead, FinishRead, Finds, Delete;
  }

  /** RETRIEVE, FREE and END_SESSION concern no lookup in progress, store nothing and advertise nothing. */
  lemma CallFrame(s: State, a: CallStep)
    requires CallEnabled(s, a)
    ensures var t := CallApply(s, a);
            && t.asked == s.asked && t.job == s.job && t.ses.jobs == s.ses.jobs && t.stored == s.stored
            && (forall rid :: rid in t.ses.hits ==> rid in s.ses.hits && t.ses.hits[rid] == s.ses.hits[rid])
  {
    hide FinishRead, Finds, Sized, Promote;
  }
}
