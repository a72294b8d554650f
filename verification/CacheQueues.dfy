// The two queues of the server: lookups and written batches are taken up in
// the order they came, each once and none left out.
module CacheQueues {
  import opened Types
  import opened LockProtocol
  import opened Sessions
  import opened Cache
  import opened CacheFrames
  import opened CacheSafety

  // ---- lookups ------------------------------------------------------------------------

  /** The lookups that LOOKUP requests started in the first n steps. */
  ghost function Started(steps: seq<Step>, n: nat): seq<Lookup>
    requires n <= |steps|
  {
    if n == 0 then []
    else
      Started(steps, n - 1) +
        match steps[n - 1]
        case ByLookup(StartLookup(rid, keys, sized)) => [Lookup(rid, keys, sized)]
        case _ => []
  }

  /** The lookups the worker began with in the first n steps. */
  ghost function TakenUp(states: seq<State>, steps: seq<Step>, n: nat): seq<Lookup>
    requires n <= |steps| == |states| - 1
  {
    if n == 0 then []
    else
      TakenUp(states, steps, n - 1) +
        if steps[n - 1] == ByLookup(JobTake) && states[n].job.Fresh? then [states[n].job.msg] else []
  }

  lemma LookupQueue(s: State, a: LookupStep)
    requires LookupEnabled(s, a)
    ensures var t := LookupApply(s, a);
            match a
            case StartLookup(rid, keys, sized) => t.ses.jobs == s.ses.jobs + [Lookup(rid, keys, sized)]
            case JobTake => t.job.Fresh? && s.ses.jobs == [t.job.msg] + t.ses.jobs
            case _ => t.ses.jobs == s.ses.jobs
  {
    hide ReserveWrite, ReserveReadPrefix, FinishRead, Finds, FinishWriteAndHold, Delete, BestFirst, FromKeys;
  }

  lemma QueueStep(states: seq<State>, steps: seq<Step>, n: nat)
    requires Run(states, steps) && n < |steps| && Started(steps, n) == TakenUp(states, steps, n) + states[n].ses.jobs
    ensures Started(steps, n + 1) == TakenUp(states, steps, n + 1) + states[n + 1].ses.jobs
  {
    hide Init, StoreEnabled, LookupEnabled, KeeperEnabled, CallEnabled, StoreApply, LookupApply, KeeperApply, CallApply;
    RunStep(states, steps, n);
    match steps[n]
    case ByStore(a) => StoreFrame(states[n], a);
    case ByLookup(a) => LookupQueue(states[n], a);
    case ByKeeper(a) => KeeperFrame(states[n], a);
    case ByCall(a) => CallFrame(states[n], a);
  }

  /** What was started is what the worker has begun with, in that order, and then what is still queued. */
  lemma {:induction false} LookupsInOrder(states: seq<State>, steps: seq<Step>, n: nat)
    requires Run(states, steps) && n <= |steps|
    ensures Started(steps, n) == TakenUp(states, steps, n) + states[n].ses.jobs
  {
    hide Linked;
    if n > 0 {
      LookupsInOrder(states, steps, n - 1);
      QueueStep(states, steps, n - 1);
    }
  }

  // ---- written batches --------------------------------------------------------------------

  /** The batches that STOREs finished writing in the first n steps. */
  ghost function Written(states: seq<State>, steps: seq<Step>, n: nat): seq<seq<ChunkKey>>
    requires n <= |steps| == |states| - 1
  {
    if n == 0 then []
    else
      Written(states, steps, n - 1) +
        match steps[n - 1]
        case ByStore(StoreFinish(id)) =>
          if IsStoring(states[n - 1], id) then [ItemKeys(states[n - 1].handlers[id].items)] else []
        case _ => []
  }

  /** The batches write-back began with in the first n steps. */
  ghost function Mirrored(states: seq<State>, steps: seq<Step>, n: nat): seq<seq<ChunkKey>>
    requires n <= |steps| == |states| - 1
  {
    if n == 0 then []
    else
      Mirrored(states, steps, n - 1) +
        if steps[n - 1] == ByKeeper(MirrorTake) && states[n].mirror.Picked? then [states[n].mirror.batch] else []
  }

  lemma BatchQueue(s: State, step: Step)
    requires Enabled(s, step) && s.l2 != []
    ensures var t := Apply(s, step);
            match step
            case ByStore(StoreFinish(id)) =>
              IsStoring(s, id) && t.pending == s.pending + [ItemKeys(s.handlers[id].items)]
            case ByKeeper(MirrorTake) => t.mirror.Picked? && s.pending == [t.mirror.batch] + t.pending
            case _ => t.pending == s.pending
  {
    hide ReserveWrite, ReserveReadPrefix, ReserveRead, FinishRead, Finds, Sized, FinishWriteAndHold, FinishWrite,
         Delete, BestFirst, FromKeys, ItemsOf, TakenKeys, ItemKeys, Promote, TakeReleasedOf, FirstHeldOf;
  }

  /** With an adapter, what STOREs wrote is what write-back has begun with, in order, and then what is pending. */
  lemma {:induction false} BatchesInOrder(states: seq<State>, steps: seq<Step>, n: nat)
    requires Run(states, steps) && n <= |steps| && states[0].l2 != []
    ensures states[n].l2 != [] && Written(states, steps, n) == Mirrored(states, steps, n) + states[n].pending
  {
    hide Linked, ItemKeys, Enabled, Apply;
    if n > 0 {
      BatchesInOrder(states, steps, n - 1);
      RunStep(states, steps, n - 1);
      RunSmooth(states, steps, n - 1);
      SmoothAdapters(states[n - 1], states[n]);
      BatchQueue(states[n - 1], steps[n - 1]);
      hide Init;
    }
  }
}
