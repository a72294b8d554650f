// What a lookup finds: the worker asks every adapter, reserves for the best
// answer, and loads all it reserved.
module CacheLoads {
  import opened Types
  import opened Memory
  import opened LockProtocol
  import opened SecondTier
  import opened Cache
  import opened CacheInv
  import opened CacheFrames
  import opened CacheSafety

  // ---- the course of a lookup ---------------------------------------------------------

  /**
   * The steps of a lookup in the worker's hands: its prefix section, the one
   * that asked adapter i, and the refused reservation, if any; and the answers.
   */
  datatype Trail = Trail(prefix: nat, asks: map<nat, nat>, hits: seq<nat>, refused: nat)

  /** The worker is past the prefix section of a lookup whose chunk size is known. */
  ghost predicate Begun(job: Job) {
    !job.Idle? && !job.Fresh? && !job.Returning? && job.msg.sized
  }

  /** From step a on the worker has had this lookup in hand, and found l1 of its keys in the L1 then. */
  ghost predicate InHand(states: seq<State>, steps: seq<Step>, n: nat, a: nat)
    requires n < |states| == |steps| + 1
  {
    && Begun(states[n].job)
    && var msg, l1 := states[n].job.msg, states[n].job.l1;
       && a < n && steps[a] == ByLookup(JobPrefix) && states[a].job == Fresh(msg)
       && l1 == PrefixHits(states[a].l1.entries, msg.keys)
       && forall m: nat :: a < m <= n ==> Begun(states[m].job) && states[m].job.msg == msg && states[m].job.l1 == l1
  }

  /** Adapter i was asked at step c, and had that many of the missing keys in front. */
  ghost predicate AnsweredAt(states: seq<State>, steps: seq<Step>, n: nat, a: nat, c: nat, i: nat,
                             missing: seq<ChunkKey>, answer: nat)
    requires n < |states| == |steps| + 1
  {
    a < c < n && steps[c] == ByLookup(JobAsk(i)) && i < |states[c].l2| && answer == LookupHits(states[c].l2[i], missing)
  }

  ghost predicate AnswersFrom(states: seq<State>, steps: seq<Step>, n: nat, h: Trail, answers: map<nat, nat>)
    requires n < |states| == |steps| + 1 && Begun(states[n].job)
  {
    forall i: nat :: i in answers ==>
      i in h.asks && AnsweredAt(states, steps, n, h.prefix, h.asks[i], i, MissingKeys(states[n].job), answers[i])
  }

  /** Every adapter was asked, unless nothing was missing. */
  ghost predicate HitsFrom(states: seq<State>, steps: seq<Step>, n: nat, h: Trail, missing: seq<ChunkKey>)
    requires n < |states| == |steps| + 1
  {
    && (missing == [] ==> h.hits == [])
    && (missing != [] ==> |h.hits| == |states[n].l2|)
    && forall i: nat :: i < |h.hits| ==>
         i in h.asks && AnsweredAt(states, steps, n, h.prefix, h.asks[i], i, missing, h.hits[i])
  }

  /** The reservation of missing[j] at step r found the key taken, or no room for one more chunk. */
  ghost predicate RefusedAt(states: seq<State>, steps: seq<Step>, n: nat, a: nat, r: nat, missing: seq<ChunkKey>,
                            j: nat)
    requires n < |states| == |steps| + 1
  {
    && a < r < n && steps[r] == ByLookup(JobReserve) && states[r].job.Reserving? && |states[r].job.objs| == j
    && !states[r].job.full && j < |missing| && SizeOf(states[r], missing[j]) > 0
    && (missing[j] in states[r].l1.entries || Capacity(states[r].l1.pool, SizeOf(states[r], missing[j])) < 1)
  }

  /** As many slots as the best answer, or as many as there were before a refusal. */
  ghost predicate CutAt(states: seq<State>, steps: seq<Step>, n: nat, h: Trail, missing: seq<ChunkKey>, count: nat)
    requires n < |states| == |steps| + 1
  {
    && (forall x :: x in h.hits ==> x <= |missing|)
    && count <= Best(h.hits)
    && (count == Best(h.hits) || RefusedAt(states, steps, n, h.prefix, h.refused, missing, count))
  }

  /** The first adapter taken up fills all slots: until then nothing is loaded, and afterwards everything. */
  ghost predicate LoadsOn(job: Job)
    requires job.Loading?
  {
    match job.from
    case None => job.loaded == |job.objs| || (job.loaded == 0 && BestFirst(job.todo, job.hits))
    case Some(i) => job.loaded <= |job.objs| && i < |job.hits| && |job.objs| <= job.hits[i]
  }

  ghost predicate Traced(states: seq<State>, steps: seq<Step>, n: nat, h: Trail)
    requires n < |states| == |steps| + 1
  {
    && InHand(states, steps, n, h.prefix)
    && var job := states[n].job;
       var missing := MissingKeys(job);
       match job
       case Looking(_, _, answers) => AnswersFrom(states, steps, n, h, answers)
       case Reserving(_, _, hits, objs, full) =>
         && hits == h.hits && HitsFrom(states, steps, n, h, missing) && |objs| <= Best(hits)
         && (full ==> RefusedAt(states, steps, n, h.prefix, h.refused, missing, |objs|))
       case Loading(_, _, hits, objs, _, _, _) =>
         && hits == h.hits && HitsFrom(states, steps, n, h, missing)
         && CutAt(states, steps, n, h, missing, |objs|) && LoadsOn(job)
       case Publishing(_, _, objs, loaded) =>
         |objs| == loaded && HitsFrom(states, steps, n, h, missing) && CutAt(states, steps, n, h, missing, loaded)
       case Trimming(_, _, objs, loaded) =>
         |objs| == loaded && HitsFrom(states, steps, n, h, missing) && CutAt(states, steps, n, h, missing, loaded)
       case Resolving(_, _, loaded) =>
         HitsFrom(states, steps, n, h, missing) && CutAt(states, steps, n, h, missing, loaded)
  }

  // ---- one step of it ----------------------------------------------------------------------

  lemma Stays(states: seq<State>, steps: seq<Step>, n: nat, h: Trail)
    requires n < |steps| == |states| - 1 && Traced(states, steps, n, h)
    requires states[n + 1].job == states[n].job && |states[n + 1].l2| == |states[n].l2|
    ensures Traced(states, steps, n + 1, h)
  {
  }

  lemma HandStays(states: seq<State>, steps: seq<Step>, n: nat, a: nat)
    requires n < |steps| == |states| - 1 && InHand(states, steps, n, a) && Begun(states[n + 1].job)
    requires states[n + 1].job.msg == states[n].job.msg && states[n + 1].job.l1 == states[n].job.l1
    ensures InHand(states, steps, n + 1, a)
  {
  }

  lemma HitsStay(states: seq<State>, steps: seq<Step>, n: nat, h: Trail, missing: seq<ChunkKey>)
    requires n < |steps| == |states| - 1 && |states[n + 1].l2| == |states[n].l2|
    ensures HitsFrom(states, steps, n, h, missing) ==> HitsFrom(states, steps, n + 1, h, missing)
  {
  }

  lemma CutStays(states: seq<State>, steps: seq<Step>, n: nat, h: Trail, missing: seq<ChunkKey>, count: nat)
    requires n < |steps| == |states| - 1
    ensures CutAt(states, steps, n, h, missing, count) ==> CutAt(states, steps, n + 1, h, missing, count)
  {
  }

  /** A step inside the load or behind it leaves the course of the lookup as it is. */
  lemma CourseStays(states: seq<State>, steps: seq<Step>, n: nat, h: Trail, count: nat)
    requires n < |steps| == |states| - 1 && InHand(states, steps, n, h.prefix) && |states[n + 1].l2| == |states[n].l2|
    requires var missing := MissingKeys(states[n].job);
             HitsFrom(states, steps, n, h, missing) && CutAt(states, steps, n, h, missing, count)
    requires var job, job' := states[n].job, states[n + 1].job;
             Begun(job') && job'.msg == job.msg && job'.l1 == job.l1
    ensures InHand(states, steps, n + 1, h.prefix)
    ensures var missing := MissingKeys(states[n + 1].job);
            HitsFrom(states, steps, n + 1, h, missing) && CutAt(states, steps, n + 1, h, missing, count)
  {
    hide HitsFrom, CutAt;
    var missing := MissingKeys(states[n].job);
    assert MissingKeys(states[n + 1].job) == missing;
    HandStays(states, steps, n, h.prefix);
    HitsStay(states, steps, n, h, missing);
    CutStays(states, steps, n, h, missing, count);
  }

  /** What an adapter answered it still has. */
  lemma AnswerStands(states: seq<State>, steps: seq<Step>, n: nat, h: Trail, missing: seq<ChunkKey>, i: nat, j: nat)
    requires Run(states, steps) && n < |states| && HitsFrom(states, steps, n, h, missing)
    requires i < |h.hits| && j < h.hits[i]
    ensures i < |states[n].l2| && j < |missing| && missing[j] in states[n].l2[i]
  {
    hide Run;
    RecordsStay(states, steps, h.asks[i], n, i, missing[j]);
  }

  /** No answer exceeds the number of missing keys. */
  lemma AnswersFit(states: seq<State>, steps: seq<Step>, n: nat, h: Trail, missing: seq<ChunkKey>)
    requires n < |states| == |steps| + 1 && HitsFrom(states, steps, n, h, missing)
    ensures forall x :: x in h.hits ==> x <= |missing|
    ensures Best(h.hits) <= |missing|
  {
    hide Best;
    forall x | x in h.hits
      ensures x <= |missing|
    {
      var i :| 0 <= i < |h.hits| && h.hits[i] == x;
      assert AnsweredAt(states, steps, n, h.prefix, h.asks[i], i, missing, x);
    }
  }

  lemma TracePrefix(states: seq<State>, steps: seq<Step>, n: nat) returns (h: Trail)
    requires n < |steps| == |states| - 1 && steps[n] == ByLookup(JobPrefix)
    requires states[n].job.Fresh? && states[n + 1] == DoJobPrefix(states[n])
    requires Begun(states[n + 1].job)
    ensures Traced(states, steps, n + 1, h)
  {
    h := Trail(n, map[], [], 0);
  }

  lemma TraceAsk(states: seq<State>, steps: seq<Step>, n: nat, h: Trail, i: nat) returns (h': Trail)
    requires n < |steps| == |states| - 1 && steps[n] == ByLookup(JobAsk(i))
    requires CanJobAsk(states[n], i) && states[n + 1] == DoJobAsk(states[n], i)
    requires Traced(states, steps, n, h)
    ensures Traced(states, steps, n + 1, h')
  {
    hide LookupHits, PrefixHits;
    h' := h.(asks := h.asks[i := n]);
    HandStays(states, steps, n, h.prefix);
    var missing, t := MissingKeys(states[n].job), states[n + 1];
    hide InHand, MissingKeys;
    forall i': nat | i' in t.job.answers
      ensures i' in h'.asks && AnsweredAt(states, steps, n + 1, h.prefix, h'.asks[i'], i', missing, t.job.answers[i'])
    {
      if i' != i {
        assert AnsweredAt(states, steps, n, h.prefix, h.asks[i'], i', missing, states[n].job.answers[i']);
      }
    }
  }

  lemma TraceAnswered(states: seq<State>, steps: seq<Step>, n: nat, h: Trail) returns (h': Trail)
    requires n < |steps| == |states| - 1 && CanJobAnswered(states[n]) && states[n + 1] == DoJobAnswered(states[n])
    requires Traced(states, steps, n, h)
    ensures Traced(states, steps, n + 1, h')
  {
    hide LookupHits, PrefixHits;
    var job, t := states[n].job, states[n + 1];
    h' := h.(hits := t.job.hits);
    HandStays(states, steps, n, h.prefix);
    var missing := MissingKeys(job);
    hide InHand, MissingKeys;
    forall i: nat | i < |h'.hits|
      ensures i in h'.asks && AnsweredAt(states, steps, n + 1, h.prefix, h'.asks[i], i, missing, h'.hits[i])
    {
      assert i in job.answers;
      assert AnsweredAt(states, steps, n, h.prefix, h.asks[i], i, missing, job.answers[i]);
    }
  }

  /** A reservation takes a fresh slot for the next missing key, or finds it taken or the pool too full. */
  lemma ReserveOutcome(s: State)
    requires Inv(s) && CanJobReserve(s)
    ensures var t := DoJobReserve(s);
            var job, key := s.job, MissingKeys(s.job)[|s.job.objs|];
            var size := SizeOf(s, key);
            && size > 0 && t.job.Reserving? && t.job.msg == job.msg && t.job.l1 == job.l1 && t.job.hits == job.hits
            && (if t.job.full then
                  && t.job.objs == job.objs
                  && (key in s.l1.entries || Capacity(s.l1.pool, size) < 1)
                else
                  && |t.job.objs| == |job.objs| + 1 && key !in s.l1.entries
                  && t.l1.entries.Keys == s.l1.entries.Keys + {key}
                  && Capacity(t.l1.pool, size) == Capacity(s.l1.pool, size) - 1)
  {
    hide Books, TempsOk, ContentOk, RecordsOk, CoverOk, HandlersOk, QueueOk, SessionsOk, MirrorOk, CoreOk, L1Inv,
         ReserveWrite, Capacity;
    var key := MissingKeys(s.job)[|s.job.objs|];
    assert key in s.job.msg.keys;
    assert LookupOk(s, s.job.msg) && LoadOk(s, s.job.msg, s.job.l1, s.job.objs, 0);
    CoreIsL1(s);
    OneReserved(s.l1, key, SizeOf(s, key));
  }

  lemma CoreIsL1(s: State)
    requires CoreOk(s)
    ensures L1Inv(s.l1)
  {
  }

  lemma OneReserved(l: L1, key: ChunkKey, size: nat)
    requires L1Inv(l) && size > 0
    ensures var (m, got) := ReserveWrite(l, [key], size, true);
            if key in got && got[key].Some? then
              && key !in l.entries && m.entries.Keys == l.entries.Keys + {key}
              && Capacity(m.pool, size) == Capacity(l.pool, size) - 1
            else key in l.entries || Capacity(l.pool, size) < 1
  {
    hide AllocateFrom, Capacity, L1Inv, Install, ReserveWrite;
    ReserveWriteEffect(l, [key], size, true);
    OneMissing(l.entries, key);
    if key !in l.entries && 1 <= Capacity(l.pool, size) {
      OneLess(l, key, size);
    }
    assert key in [key] && Elems([key]) == {key};
  }

  lemma OneMissing(entries: Entries, key: ChunkKey)
    ensures Missing(entries, [key]) == if key in entries then [] else [key]
  {
    assert [key][1..] == [];
  }

  lemma OneLess(l: L1, key: ChunkKey, size: nat)
    requires L1Inv(l) && size > 0 && key !in l.entries && 1 <= Capacity(l.pool, size)
    ensures Capacity(ReserveWrite(l, [key], size, true).0.pool, size) == Capacity(l.pool, size) - 1
  {
    OneMissing(l.entries, key);
    AllocateBound(l.pool, 1, size);
    hide AllocateFrom, Capacity, Install, Missing, NewObjs;
  }

  lemma TraceReserve(states: seq<State>, steps: seq<Step>, n: nat, h: Trail) returns (h': Trail)
    requires n < |steps| == |states| - 1 && steps[n] == ByLookup(JobReserve)
    requires CanJobReserve(states[n]) && states[n + 1] == DoJobReserve(states[n])
    requires Traced(states, steps, n, h) && Inv(states[n]) && states[n + 1].l2 == states[n].l2
    ensures Traced(states, steps, n + 1, h')
  {
    hide Inv, ReserveWrite, DoJobReserve, Capacity;
    var s, t := states[n], states[n + 1];
    var missing := MissingKeys(s.job);
    ReserveOutcome(s);
    assert CanJobReserve(s) && t == DoJobReserve(s);
    h' := if t.job.full then h.(refused := n) else h;
    HandStays(states, steps, n, h.prefix);
    HitsStay(states, steps, n, h, missing);
    hide InHand, Best;
  }

  lemma NoneBeforeFirst(todo: seq<nat>, hits: seq<nat>, i: nat)
    requires BestFirst(todo, hits) && i < |hits|
    ensures todo != [] && todo[0] < |hits| && hits[i] <= hits[todo[0]]
  {
    hide NoDup;
    assert i in todo;
    var p :| 0 <= p < |todo| && todo[p] == i;
  }

  /** The adapter with the best answer comes first. */
  lemma BestIsFirst(todo: seq<nat>, hits: seq<nat>)
    requires BestFirst(todo, hits)
    ensures todo != [] ==> todo[0] < |hits| && Best(hits) == hits[todo[0]]
    ensures todo == [] ==> Best(hits) == 0
  {
    hide BestFirst;
    if hits != [] {
      var b: nat :| b < |hits| && (hits[b] == Best(hits) || Best(hits) == 0);
      NoneBeforeFirst(todo, hits, b);
    } else if todo != [] {
      FirstIsThere(todo, hits);
    }
  }

  lemma FirstIsThere(todo: seq<nat>, hits: seq<nat>)
    requires BestFirst(todo, hits) && todo != []
    ensures hits != []
  {
    assert todo[0] < |hits|;
  }

  lemma TraceReserved(states: seq<State>, steps: seq<Step>, n: nat, h: Trail, todo: seq<nat>)
    requires n < |steps| == |states| - 1
    requires CanJobReserved(states[n], todo) && states[n + 1] == DoJobReserved(states[n], todo)
    requires Traced(states, steps, n, h)
    ensures Traced(states, steps, n + 1, h)
  {
    hide BestFirst, Capacity;
    var s := states[n];
    var missing := MissingKeys(s.job);
    HandStays(states, steps, n, h.prefix);
    HitsStay(states, steps, n, h, missing);
    AnswersFit(states, steps, n, h, missing);
    hide InHand, HitsFrom, Best;
  }

  lemma TracePick(states: seq<State>, steps: seq<Step>, n: nat, h: Trail)
    requires n < |steps| == |states| - 1 && CanJobPick(states[n]) && states[n + 1] == DoJobPick(states[n])
    requires Traced(states, steps, n, h)
    ensures Traced(states, steps, n + 1, h)
  {
    hide HitsFrom, Best, BestFirst, RefusedAt;
    var s := states[n];
    CourseStays(states, steps, n, h, |s.job.objs|);
    if s.job.loaded != |s.job.objs| {
      BestIsFirst(s.job.todo, s.job.hits);
    }
  }

  lemma TraceLoad(states: seq<State>, steps: seq<Step>, n: nat, h: Trail, data: Blob)
    requires n < |steps| == |states| - 1 && CanJobLoad(states[n], data) && states[n + 1] == DoJobLoad(states[n], data)
    requires Traced(states, steps, n, h)
    ensures Traced(states, steps, n + 1, h)
  {
    hide WriteSlice, BestFirst, HitsFrom, CutAt;
    CourseStays(states, steps, n, h, |states[n].job.objs|);
  }

  /** An adapter taken up is left with all slots filled: it still has what it answered for. */
  lemma TraceNext(states: seq<State>, steps: seq<Step>, n: nat, h: Trail)
    requires Run(states, steps) && n < |steps| && CanJobNext(states[n]) && states[n + 1] == DoJobNext(states[n])
    requires Traced(states, steps, n, h)
    ensures Traced(states, steps, n + 1, h)
  {
    hide Linked, Init, BestFirst, CutAt, HitsFrom;
    var s := states[n];
    CourseStays(states, steps, n, h, |s.job.objs|);
    if s.job.loaded < |s.job.objs| {
      AnswerStands(states, steps, n, h, MissingKeys(s.job), s.job.from.value, s.job.loaded);
    }
  }

  /** The worker leaves the load with every slot filled. */
  lemma TraceLoaded(states: seq<State>, steps: seq<Step>, n: nat, h: Trail)
    requires n < |steps| == |states| - 1 && CanJobLoaded(states[n]) && states[n + 1] == DoJobLoaded(states[n])
    requires Traced(states, steps, n, h)
    ensures states[n].job.loaded == |states[n].job.objs|
    ensures Traced(states, steps, n + 1, h)
  {
    hide HitsFrom, Best, BestFirst, RefusedAt;
    var s := states[n];
    CourseStays(states, steps, n, h, |s.job.objs|);
    if s.job.loaded != |s.job.objs| {
      BestIsFirst(s.job.todo, s.job.hits);
    }
  }

  lemma TraceEnd(states: seq<State>, steps: seq<Step>, n: nat, h: Trail)
    requires n < |steps| == |states| - 1 && Traced(states, steps, n, h)
    requires || (states[n].job.Publishing? && states[n + 1] == DoJobPublish(states[n]))
             || (CanJobTrim(states[n]) && states[n + 1] == DoJobTrim(states[n]))
    ensures Traced(states, steps, n + 1, h)
  {
    hide FinishWriteAndHold, Delete, HitsFrom, CutAt, Part;
    CourseStays(states, steps, n, h, states[n].job.loaded);
  }

  // ---- the whole of it ---------------------------------------------------------------------

  lemma NothingBegun(s: State)
    requires Init(s)
    ensures !Begun(s.job)
  {
  }

  lemma AdaptersRemain(states: seq<State>, steps: seq<Step>, n: nat)
    requires Run(states, steps) && n < |steps|
    ensures |states[n + 1].l2| == |states[n].l2|
  {
    hide Linked, Init;
    RunSmooth(states, steps, n);
    SmoothAdapters(states[n], states[n + 1]);
  }

  lemma TraceStep(states: seq<State>, steps: seq<Step>, n: nat, h: Trail) returns (h': Trail)
    requires Run(states, steps) && n < |steps| && Begun(states[n + 1].job)
    requires Begun(states[n].job) ==> Traced(states, steps, n, h)
    ensures Traced(states, steps, n + 1, h')
  {
    hide Traced, StoreEnabled, KeeperEnabled, CallEnabled, StoreApply, KeeperApply, CallApply, Init, Inv,
         BestFirst, ReserveReadPrefix, ReserveWrite, WriteSlice, LookupHits, FinishRead, Finds, Sized, Part,
         FinishWriteAndHold, Delete, MissingKeys;
    var s, t, step := states[n], states[n + 1], steps[n];
    h' := h;
    RunStep(states, steps, n);
    AdaptersRemain(states, steps, n);
    RunKeepsInv(states, steps, n);
    match step
    case ByStore(a) => StoreFrame(s, a); Stays(states, steps, n, h);
    case ByKeeper(a) => KeeperFrame(s, a); Stays(states, steps, n, h);
    case ByCall(a) => CallFrame(s, a); Stays(states, steps, n, h);
    case ByLookup(a) =>
      match a
      case StartLookup(_, _, _) => Stays(states, steps, n, h);
      case JobTake => assert false;
      case JobPrefix => h' := TracePrefix(states, steps, n);
      case JobAsk(i) => h' := TraceAsk(states, steps, n, h, i);
      case JobAnswered => h' := TraceAnswered(states, steps, n, h);
      case JobReserve => h' := TraceReserve(states, steps, n, h);
      case JobReserved(todo) => TraceReserved(states, steps, n, h, todo);
      case JobPick => TracePick(states, steps, n, h);
      case JobLoad(data) => TraceLoad(states, steps, n, h, data);
      case JobNext => TraceNext(states, steps, n, h);
      case JobLoaded => TraceLoaded(states, steps, n, h);
      case JobPublish => TraceEnd(states, steps, n, h);
      case JobTrim => TraceEnd(states, steps, n, h);
      case JobResolve => assert false;
      case JobReturn => assert false;
  }

  /** Every lookup in the worker's hands has a course. */
  lemma {:induction false} LookupTrail(states: seq<State>, steps: seq<Step>, n: nat) returns (h: Trail)
    requires Run(states, steps) && n < |states| && Begun(states[n].job)
    ensures Traced(states, steps, n, h)
    decreases n
  {
    hide Traced, Linked;
    assert n > 0 by {
      NothingBegun(states[0]);
    }
    hide Init;
    h := Trail(0, map[], [], 0);
    if Begun(states[n - 1].job) {
      h := LookupTrail(states, steps, n - 1);
    }
    h := TraceStep(states, steps, n - 1, h);
  }

  // ---- what a lookup finds --------------------------------------------------------------------

  /** No adapter has more of the keys in front than count, and one has as many. */
  ghost predicate BestOf(hits: seq<nat>, count: nat) {
    (forall x :: x in hits ==> x <= count) && (count == 0 || count in hits)
  }

  /**
   * The worker leaves the load only when it has filled every slot it
   * reserved; these are as many as the best answer, unless one was refused.
   */
  lemma LoadFillsAll(states: seq<State>, steps: seq<Step>, n: nat) returns (h: Trail)
    requires Run(states, steps) && n < |steps| && steps[n] == ByLookup(JobLoaded)
    ensures states[n].job.Loading? && states[n].job.l1 <= |states[n].job.msg.keys|
    ensures var job := states[n].job;
            var missing := job.msg.keys[job.l1..];
            && job.loaded == |job.objs| && h.hits == job.hits && HitsFrom(states, steps, n, h, missing)
            && (BestOf(h.hits, |job.objs|) || RefusedAt(states, steps, n, h.prefix, h.refused, missing, |job.objs|))
  {
    hide Linked, Init, HitsFrom, RefusedAt, BestFirst, Inv, InHand;
    RunStep(states, steps, n);
    RunKeepsInv(states, steps, n);
    LoadingIsBegun(states[n]);
    h := LookupTrail(states, steps, n);
    TraceLoaded(states, steps, n, h);
  }

  lemma LoadingIsBegun(s: State)
    requires Inv(s) && s.job.Loading?
    ensures Begun(s.job) && s.job.l1 <= |s.job.msg.keys|
  {
  }

  /**
   * What QUERY will answer: l1 keys were readable in front when the worker
   * held the prefix, and l2 is the best answer of the adapters for the rest,
   * each asked after that; it is less only if the slot for the next key was
   * refused, because the key was taken or the pool had no room for a chunk.
   */
  lemma LookupFinds(states: seq<State>, steps: seq<Step>, n: nat) returns (h: Trail, l1: nat, l2: nat)
    requires Run(states, steps) && n < |steps| && steps[n] == ByLookup(JobResolve)
    requires states[n].job.Resolving? ==> states[n].job.msg.sized && states[n].job.msg.rid in states[n].ses.hits
    ensures states[n].job.Resolving?
    ensures var msg := states[n].job.msg;
            && msg.rid in states[n + 1].ses.hits && states[n + 1].ses.hits[msg.rid] == Some((l1, l2))
            && InHand(states, steps, n, h.prefix)
            && l1 == PrefixHits(states[h.prefix].l1.entries, msg.keys)
            && HitsFrom(states, steps, n, h, msg.keys[l1..])
            && (BestOf(h.hits, l2)
                || (RefusedAt(states, steps, n, h.prefix, h.refused, msg.keys[l1..], l2)
                    && exists x :: x in h.hits && l2 < x))
  {
    hide Linked, Init, HitsFrom, RefusedAt, PrefixHits, Inv;
    RunStep(states, steps, n);
    h := LookupTrail(states, steps, n);
    l1, l2 := states[n].job.l1, states[n].job.loaded;
  }

  // ---- when nobody interferes ---------------------------------------------------------------------

  /** Between steps a and n nobody but the worker touches the L1 or the adapters. */
  ghost predicate Undisturbed(states: seq<State>, steps: seq<Step>, a: nat, n: nat)
    requires n < |states| == |steps| + 1
  {
    forall m: nat :: a < m < n && !steps[m].ByLookup? ==>
      states[m + 1].l1 == states[m].l1 && states[m + 1].l2 == states[m].l2
  }

  /** Since s the worker has taken exactly the slots it counts, and the adapters are as they were. */
  ghost predicate OnlySlots(s: State, t: State, size: nat)
    requires size > 0
  {
    && t.l2 == s.l2 && t.geo == s.geo
    && (t.job.Looking? ==>
          t.l1.entries.Keys == s.l1.entries.Keys && Capacity(t.l1.pool, size) == Capacity(s.l1.pool, size))
    && (t.job.Reserving? && !t.job.full ==>
          && |t.job.objs| <= |MissingKeys(t.job)|
          && t.l1.entries.Keys == s.l1.entries.Keys + Elems(MissingKeys(t.job)[..|t.job.objs|])
          && Capacity(t.l1.pool, size) == Capacity(s.l1.pool, size) - |t.job.objs|)
  }

  lemma SlotsFromPrefix(s: State, size: nat)
    requires size > 0 && s.job.Fresh? && Begun(DoJobPrefix(s).job)
    ensures OnlySlots(s, DoJobPrefix(s), size)
  {
    hide Capacity, PrefixHits;
  }

  lemma SlotsReserve(s: State, t: State, size: nat)
    requires size > 0 && OnlySlots(s, t, size) && Inv(t) && CanJobReserve(t)
    requires OneGeometry(s, t.job.msg.keys, size)
    ensures OnlySlots(s, DoJobReserve(t), size)
  {
    hide Inv, ReserveWrite, Capacity;
    ReserveOutcome(t);
    var key, u := MissingKeys(t.job)[|t.job.objs|], DoJobReserve(t);
    assert key in t.job.msg.keys && SizeOf(t, key) == SizeOf(s, key);
    if !u.job.full {
      var n := |t.job.objs|;
      assert MissingKeys(u.job)[..n + 1] == MissingKeys(t.job)[..n] + [key];
    }
  }

  lemma SlotsLookup(s: State, t: State, a: LookupStep, size: nat)
    requires size > 0 && OnlySlots(s, t, size) && Inv(t) && LookupEnabled(t, a)
    requires Begun(t.job) && Begun(LookupApply(t, a).job) && OneGeometry(s, t.job.msg.keys, size)
    ensures OnlySlots(s, LookupApply(t, a), size)
  {
    hide Inv, Capacity, BestFirst, DoJobReserve, ReserveReadPrefix, WriteSlice, LookupHits, FinishRead, Finds, Sized,
         Part, FinishWriteAndHold, Delete, OneGeometry;
    if a == JobReserve {
      SlotsReserve(s, t, size);
    } else {
      hide MissingKeys;
    }
  }

  lemma SlotsStep(s: State, t: State, u: State, step: Step, size: nat)
    requires size > 0 && OnlySlots(s, t, size) && Inv(t) && Enabled(t, step) && u == Apply(t, step)
    requires !step.ByLookup? ==> u.l1 == t.l1 && u.l2 == t.l2 && u.geo == t.geo
    requires Begun(t.job) && Begun(u.job) && OneGeometry(s, t.job.msg.keys, size)
    ensures OnlySlots(s, u, size)
  {
    hide Inv, StoreEnabled, KeeperEnabled, CallEnabled, LookupEnabled, StoreApply, KeeperApply, CallApply, LookupApply,
         Capacity, OneGeometry;
    match step
    case ByStore(a) => StoreFrame(t, a);
    case ByKeeper(a) => KeeperFrame(t, a);
    case ByCall(a) => CallFrame(t, a);
    case ByLookup(a) => SlotsLookup(s, t, a, size);
  }

  lemma {:induction false} SlotsOnly(states: seq<State>, steps: seq<Step>, a: nat, m: nat, n: nat, size: nat)
    requires Run(states, steps) && a < m <= n < |states| && InHand(states, steps, n, a) && size > 0
    requires Undisturbed(states, steps, a, n) && OneGeometry(states[a], states[n].job.msg.keys, size)
    ensures OnlySlots(states[a], states[m], size)
    decreases m
  {
    hide Linked, Init, Inv, OnlySlots, Enabled, Apply, OneGeometry, PrefixHits;
    RunStep(states, steps, m - 1);
    if m == a + 1 {
      assert states[m] == DoJobPrefix(states[a]) by {
        PrefixApplied(states[a], states[m]);
      }
      SlotsFromPrefix(states[a], size);
    } else {
      SlotsOnly(states, steps, a, m - 1, n, size);
      RunKeepsInv(states, steps, m - 1);
      GeometryStays(states[m - 1], steps[m - 1]);
      SlotsStep(states[a], states[m - 1], states[m], steps[m - 1], size);
    }
  }

  lemma PrefixApplied(s: State, t: State)
    requires Leads(s, ByLookup(JobPrefix), t)
    ensures s.job.Fresh? && t == DoJobPrefix(s)
  {
  }

  lemma GeometryStays(s: State, step: Step)
    requires Enabled(s, step)
    ensures Apply(s, step).geo == s.geo
  {
    hide ReserveWrite, ReserveReadPrefix, FinishRead, Finds, Sized, FinishWriteAndHold, Delete, BestFirst;
  }

  lemma HandIsOne(states: seq<State>, steps: seq<Step>, n: nat, a: nat, b: nat)
    requires n < |states| == |steps| + 1 && InHand(states, steps, n, a) && InHand(states, steps, n, b)
    ensures a == b
  {
    hide PrefixHits;
    assert !Begun(states[a].job) && !Begun(states[b].job);
  }

  /** How many of the keys in front adapter i had in state s. */
  ghost function AdapterHits(s: State, i: nat, keys: seq<ChunkKey>): nat
    requires i < |s.l2|
  {
    LookupHits(s.l2[i], keys)
  }

  /**
   * With the L1 and the adapters otherwise left alone, none of the keys to be
   * loaded in the L1 and room for them, a lookup finds the readable prefix in
   * the L1 and, behind it, as much as the adapter that has most of the rest.
   */
  lemma QuietLookupFindsBest(states: seq<State>, steps: seq<Step>, a: nat, n: nat, size: nat)
    returns (l1: nat, l2: nat)
    requires Run(states, steps) && n < |steps| && steps[n] == ByLookup(JobResolve)
    requires InHand(states, steps, n, a) && Undisturbed(states, steps, a, n)
    requires states[n].job.msg.rid in states[n].ses.hits
    requires OneGeometry(states[a], states[n].job.msg.keys, size)
    requires var missing := states[n].job.msg.keys[PrefixHits(states[a].l1.entries, states[n].job.msg.keys)..];
             forall i: nat :: i < |states[a].l2| ==>
               var hits := AdapterHits(states[a], i, missing);
               && hits <= Capacity(states[a].l1.pool, size)
               && forall j :: 0 <= j < hits ==> missing[j] !in states[a].l1.entries
    ensures var msg := states[n].job.msg;
            && msg.rid in states[n + 1].ses.hits && states[n + 1].ses.hits[msg.rid] == Some((l1, l2))
            && l1 == PrefixHits(states[a].l1.entries, msg.keys)
            && var missing := msg.keys[l1..];
               && (forall i: nat :: i < |states[a].l2| ==> AdapterHits(states[a], i, missing) <= l2)
               && (l2 == 0 || exists i: nat :: i < |states[a].l2| && AdapterHits(states[a], i, missing) == l2)
  {
    hide Linked, Init, Inv, OnlySlots, Capacity, PrefixHits, RefusedAt, OneGeometry, Undisturbed;
    assert size > 0 by {
      SizeIsPositive(states[a], states[n].job.msg.keys, size);
    }
    var h;
    h, l1, l2 := LookupFinds(states, steps, n);
    HandIsOne(states, steps, n, a, h.prefix);
    var missing := states[n].job.msg.keys[l1..];
    HitsAreThen(states, steps, a, n, h, missing, size);
    if !BestOf(h.hits, l2) {
      RefusedBecause(states, steps, n, h, missing, l2, size);
      assert false;
    }
    forall i: nat | i < |states[a].l2|
      ensures AdapterHits(states[a], i, missing) <= l2
    {
      if missing != [] {
        assert h.hits[i] in h.hits;
      }
    }
    if l2 != 0 {
      var i: nat :| i < |h.hits| && h.hits[i] == l2;
      assert AdapterHits(states[a], i, missing) == l2;
    }
  }

  lemma SizeIsPositive(s: State, keys: seq<ChunkKey>, size: nat)
    requires OneGeometry(s, keys, size)
    ensures size > 0
  {
  }

  lemma HitsAreThen(states: seq<State>, steps: seq<Step>, a: nat, n: nat, h: Trail, missing: seq<ChunkKey>, size: nat)
    requires Run(states, steps) && a < n < |states| && InHand(states, steps, n, a) && Undisturbed(states, steps, a, n)
    requires a == h.prefix && HitsFrom(states, steps, n, h, missing) && size > 0
    requires OneGeometry(states[a], states[n].job.msg.keys, size)
    ensures missing != [] ==> |h.hits| == |states[a].l2|
    ensures |h.hits| <= |states[a].l2|
    ensures forall i: nat :: i < |h.hits| ==> h.hits[i] == AdapterHits(states[a], i, missing)
  {
    hide Linked, Init, Inv, Capacity, PrefixHits, InHand, OneGeometry, Undisturbed, MissingKeys;
    SlotsOnly(states, steps, a, n, n, size);
    forall i: nat | i < |h.hits|
      ensures i < |states[a].l2| && h.hits[i] == AdapterHits(states[a], i, missing)
    {
      assert AnsweredAt(states, steps, n, a, h.asks[i], i, missing, h.hits[i]);
      SlotsOnly(states, steps, a, h.asks[i], n, size);
    }
  }

  lemma KeysAreDistinct(s: State)
    requires Inv(s) && Begun(s.job)
    ensures NoDup(s.job.msg.keys) && s.job.l1 <= |s.job.msg.keys|
  {
  }

  /** A slot is refused only when the key was taken before, or the pool had no room for it and those before it. */
  lemma RefusedBecause(states: seq<State>, steps: seq<Step>, n: nat, h: Trail, missing: seq<ChunkKey>, count: nat,
                       size: nat)
    requires Run(states, steps) && n < |states| && InHand(states, steps, n, h.prefix) && size > 0
    requires Undisturbed(states, steps, h.prefix, n) && missing == MissingKeys(states[n].job)
    requires RefusedAt(states, steps, n, h.prefix, h.refused, missing, count)
    requires OneGeometry(states[h.prefix], states[n].job.msg.keys, size)
    ensures missing[count] in states[h.prefix].l1.entries || Capacity(states[h.prefix].l1.pool, size) <= count
  {
    hide Linked, Init, Inv, Capacity, PrefixHits, Undisturbed;
    var s, t := states[h.prefix], states[h.refused];
    RunKeepsInv(states, steps, n);
    KeysAreDistinct(states[n]);
    SlotsOnly(states, steps, h.prefix, h.refused, n, size);
    assert MissingKeys(t.job) == missing;
    assert missing[count] in states[n].job.msg.keys && SizeOf(t, missing[count]) == SizeOf(s, missing[count]) == size;
    assert missing[count] !in Elems(missing[..count]);
  }
}
