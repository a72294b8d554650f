// The LOOKUP handler and the prefetch worker keep the invariant.
module CachePrefetch {
  import opened Types
  import opened Memory
  import opened LockProtocol
  import opened Sessions
  import opened Cache
  import opened CacheInv
  import opened CacheBooks

  /** A worker step that leaves handlers, write-back and session tables alone. */
  lemma WorkerRest(s: State, t: State, w: Option<ChunkKey>)
    requires Inv(s) && Quiet(s, t, w) && WrittenBy(s, w, Worker)
    requires t.handlers == s.handlers && t.mirror == s.mirror && t.pending == s.pending && t.asked == s.asked
    requires t.ses.held == s.ses.held && t.ses.hits == s.ses.hits
    ensures HandlersOk(t) && MirrorOk(t) && SessionsOk(t)
  {
    hide Quiet, Books, CoreOk, TempsOk, ContentOk, RecordsOk, CoverOk, JobOk, QueueOk;
    PendingOk(s);
    MirrorCarries(s, t, w, Worker);
    HandlersCarry(s, t, w, Worker);
    SessionsSame(s, t);
  }

  /** A worker step over unchanged entries and claims, writing at most w. */
  lemma WorkerStepKeeps(s: State, t: State, w: Option<ChunkKey>)
    requires Inv(s) && CoreOk(t) && Books(t) && Carries(s, t, w) && WrittenBy(s, w, Worker)
    requires t.l1 == s.l1 && t == s.(mem := t.mem, job := t.job)
    requires forall role, o :: Claim(t, role, o) == Claim(s, role, o)
    requires JobOk(t) && Active(t.job) == Active(s.job)
    ensures Kept(s, t)
  {
    hide CoreOk, Claim, KeyCovered, ContentOk, CoverOk, RecordsOk, JobOk, QueueOk, SessionsOk, Books, Carries,
         HandlersOk, MirrorOk;
    CoreLocksOf(s);
    CoreLocksOf(t);
    TempsCarry(s, t, Worker, Worker);
    WorkerRest(s, t, w);
    QueueCarries(s, t);
    ContentCarries(s, t, w, Worker, {});
    DueSame(s, t);
    CoverCarries(s, t, w, {});
    RecordsCarry(s, t);
    KeptBy(s, t, w, Worker);
  }

  /** A worker step that only moves its own program counter. */
  lemma WorkerMoves(s: State, t: State)
    requires Inv(s) && t == s.(job := t.job)
    requires JobHolds(t.job) == JobHolds(s.job) && JobWrites(t.job) == JobWrites(s.job)
    requires JobOk(t) && Active(t.job) == Active(s.job)
    ensures Kept(s, t)
  {
    hide ContentOk, CoverOk, HandlersOk, QueueOk, SessionsOk, MirrorOk, KeyCovered, TempsOk, Books, RecordsOk, JobOk;
    assert forall role, o :: Claim(t, role, o) == Claim(s, role, o);
    hide Claim, L1Inv, JobOk, HandlersOk, SessionsOk, QueueOk, MirrorOk, RecordsOk, ContentOk, CoverOk, TempsOk,
         Books, JobHolds, JobWrites;
    BooksSame(s, t);
    assert forall k :: SizeOf(t, k) == SizeOf(s, k);
    WorkerStepKeeps(s, t, None);
  }

  lemma LookupSame(s: State, t: State, m: Lookup)
    requires LookupOk(s, m) && t.geo == s.geo && t.ses.held == s.ses.held && t.asked == s.asked
    ensures LookupOk(t, m)
  {
    LookupCarries(s, t, m);
  }

  // ---- session start -------------------------------------------------------------------

  lemma StartLookupQueue(s: State, rid: string, keys: seq<ChunkKey>, sized: bool)
    requires Inv(s) && CanStartLookup(s, rid, keys, sized)
    ensures QueueOk(DoStartLookup(s, rid, keys, sized))
  {
    var t := DoStartLookup(s, rid, keys, sized);
    hide Books, CoreOk, TempsOk, ContentOk, RecordsOk, CoverOk, MirrorOk, HandlersOk;
    assert rid in s.ses.held ==> SessionOk(s, rid);
    forall i | 0 <= i < |t.ses.jobs|
      ensures LookupOk(t, t.ses.jobs[i])
    {
      if i < |s.ses.jobs| {
        assert LookupOk(s, s.ses.jobs[i]);
        LookupCarries(s, t, s.ses.jobs[i]);
      } else {
        assert forall k :: SizeOf(t, k) == SizeOf(s, k);
      }
    }
    var before := Active(s.job) + Rids(s.ses.jobs);
    assert Active(t.job) + Rids(t.ses.jobs) == before + [rid];
    forall i | 0 <= i < |before|
      ensures before[i] != rid
    {
      if i < |Active(s.job)| {
        assert LookupOk(s, s.job.msg);
      } else {
        assert LookupOk(s, s.ses.jobs[i - |Active(s.job)|]);
      }
    }
    NoDupConcat(before, [rid]);
  }

  lemma SessionsGrow(s: State, t: State, rid: string)
    requires SessionsOk(s) && rid !in s.asked && t.ses.held == s.ses.held
    requires rid in t.asked && t.asked == s.asked[rid := t.asked[rid]] && t.ses.hits == s.ses.hits[rid := None]
    ensures SessionsOk(t)
  {
    forall r | r in t.ses.held
      ensures SessionOk(t, r)
    {
      assert SessionOk(s, r);
    }
  }

  /** A request id that was never used starts a session nobody holds anything for. */
  lemma StartLookupKeeps(s: State, rid: string, keys: seq<ChunkKey>, sized: bool)
    requires Inv(s) && CanStartLookup(s, rid, keys, sized)
    ensures Kept(s, DoStartLookup(s, rid, keys, sized))
  {
    var t := DoStartLookup(s, rid, keys, sized);
    StartLookupQueue(s, rid, keys, sized);
    SessionsGrow(s, t, rid);
    assert forall role, o :: Claim(t, role, o) == Claim(s, role, o);
    BooksSame(s, t);
    assert forall k :: SizeOf(t, k) == SizeOf(s, k);
    CoreLocksOf(s);
    NewSessionRest(s, t);
  }

  /** Growing the session tables concerns nobody else. */
  lemma NewSessionRest(s: State, t: State)
    requires Inv(s) && CoreOk(t) && Books(t) && QueueOk(t) && SessionsOk(t)
    requires t == s.(ses := t.ses, asked := t.asked, job := t.job) && t.ses.held == s.ses.held
    requires forall rid :: rid in s.asked ==> rid in t.asked && t.asked[rid] == s.asked[rid]
    requires forall role, o :: Claim(t, role, o) == Claim(s, role, o)
    requires s.job == t.job || JobOk(t)
    ensures Kept(s, t)
  {
    hide Claim, KeyCovered, ContentOk, CoverOk, RecordsOk, QueueOk, SessionsOk, Books, L1Inv;
    CoreLocksOf(s);
    CoreLocksOf(t);
    TempsCarry(s, t, Worker, Worker);
    PendingOk(s);
    MirrorCarries(s, t, None, Call(0));
    HandlersCarry(s, t, None, Worker);
    if s.job == t.job {
      JobGrows(s, t);
    }
    ContentCarries(s, t, None, Worker, {});
    DueSame(s, t);
    CoverCarries(s, t, None, {});
    RecordsCarry(s, t);
    KeptBy(s, t, None, Worker);
  }

  lemma JobGrows(s: State, t: State)
    requires JobOk(s) && t == s.(ses := t.ses, asked := t.asked) && t.ses.held == s.ses.held
    requires forall rid :: rid in s.asked ==> rid in t.asked && t.asked[rid] == s.asked[rid]
    ensures JobOk(t)
  {
    if !s.job.Idle? && !s.job.Returning? {
      LookupCarries(s, t, s.job.msg);
      LoadSame(s, t);
    }
  }

  /** Loaded chunks stay loaded over a step that leaves entries, bytes, L2 and history alone. */
  lemma LoadSame(s: State, t: State)
    requires t.l1 == s.l1 && t.mem == s.mem && t.l2 == s.l2 && t.stored == s.stored
    ensures forall m: Lookup, n: nat, objs: seq<Slice>, loaded: nat :: LoadOk(s, m, n, objs, loaded) ==>
              LoadOk(t, m, n, objs, loaded)
  {
    forall m: Lookup, n: nat, objs: seq<Slice>, loaded: nat | LoadOk(s, m, n, objs, loaded)
      ensures LoadOk(t, m, n, objs, loaded)
    {
      var ks := Part(m.keys, n, n + |objs|);
      assert forall i :: 0 <= i < |objs| ==> ObjAt(s, ks[i], objs[i]) ==> ObjAt(t, ks[i], objs[i]);
      assert forall i :: 0 <= i < loaded ==> BytesAt(t, objs[i]) == BytesAt(s, objs[i]);
      forall i | 0 <= i < loaded
        ensures Supplied(t, ks[i], BytesAt(t, objs[i])) && InSomeL2(t, ks[i])
      {
        assert Supplied(s, ks[i], BytesAt(s, objs[i])) && InSomeL2(s, ks[i]);
      }
    }
  }

  lemma JobTakeKeeps(s: State)
    requires Inv(s) && CanJobTake(s)
    ensures Kept(s, DoJobTake(s))
  {
    var t := DoJobTake(s);
    assert LookupOk(s, s.ses.jobs[0]);
    LookupSame(s, t, s.ses.jobs[0]);
    forall i | 0 <= i < |t.ses.jobs|
      ensures LookupOk(t, t.ses.jobs[i])
    {
      assert LookupOk(s, s.ses.jobs[i + 1]);
      LookupSame(s, t, t.ses.jobs[i]);
    }
    assert Active(t.job) + Rids(t.ses.jobs) == Active(s.job) + Rids(s.ses.jobs);
    assert forall role, o :: Claim(t, role, o) == Claim(s, role, o);
    BooksSame(s, t);
    assert forall k :: SizeOf(t, k) == SizeOf(s, k);
    SessionsSame(s, t);
    hide Claim, Books, L1Inv, HandlersOk, MirrorOk, RecordsOk, ContentOk, CoverOk, TempsOk;
    NewSessionRest(s, t);
  }

  // ---- finding and loading ------------------------------------------------------------------

  lemma JobAskKeeps(s: State, i: nat)
    requires Inv(s) && CanJobAsk(s, i)
    ensures Kept(s, DoJobAsk(s, i))
  {
    var t := DoJobAsk(s, i);
    LookupSame(s, t, s.job.msg);
    WorkerMoves(s, t);
  }

  lemma JobAnsweredKeeps(s: State)
    requires Inv(s) && CanJobAnswered(s)
    ensures Kept(s, DoJobAnswered(s))
  {
    var t := DoJobAnswered(s);
    LookupSame(s, t, s.job.msg);
    WorkerMoves(s, t);
  }

  /** Only the program counter moves while the load is being arranged. */
  lemma LoadMoves(s: State, t: State)
    requires Inv(s) && t == s.(job := t.job)
    requires s.job.Reserving? || s.job.Loading?
    requires t.job.Loading? || t.job.Publishing?
    requires t.job.msg == s.job.msg && t.job.l1 == s.job.l1 && t.job.objs == s.job.objs
    requires t.job.loaded == if s.job.Reserving? then 0 else s.job.loaded
    ensures Kept(s, t)
  {
    LookupSame(s, t, s.job.msg);
    LoadSame(s, t);
    assert LoadOk(s, t.job.msg, t.job.l1, t.job.objs, t.job.loaded);
    hide LoadOk, Books, CoreOk, TempsOk, ContentOk, RecordsOk, CoverOk, MirrorOk, HandlersOk, QueueOk, SessionsOk;
    WorkerMoves(s, t);
  }

  // ---- steps that change the L1 -----------------------------------------------------------------

  /** A worker step on its own keys: newly readable ones must be supplied and covered. */
  lemma WorkerL1Keeps(s: State, t: State, w: Option<ChunkKey>, newly: set<ChunkKey>)
    requires Inv(s) && CoreOk(t) && Books(t) && Quiet(s, t, w) && WrittenBy(s, w, Worker)
    requires t == s.(l1 := t.l1, mem := t.mem, job := t.job, fromStore := t.fromStore)
    requires OthersKeepClaims(s, t, Worker, Worker) && NoNewTemps(s, t)
    requires forall k :: CanRead(t.l1.entries, k) && k !in newly ==> CanRead(s.l1.entries, k)
    requires forall k :: k in newly && CanRead(t.l1.entries, k) ==> Supplied(t, k, BytesAt(t, t.l1.entries[k].obj))
    requires forall k :: k in newly && CanRead(t.l1.entries, k) ==> KeyCovered(t, k)
    requires forall k :: k in s.fromStore && k !in newly <==> k in t.fromStore && k !in newly
    requires JobOk(t) && Active(t.job) == Active(s.job)
    ensures Kept(s, t)
  {
    hide CoreOk, Claim, OthersKeepClaims, TempsOf, KeyCovered, ContentOk, CoverOk, RecordsOk, JobOk, QueueOk,
         SessionsOk, Books, Quiet, HandlersOk, MirrorOk, NoNewTemps;
    CoreLocksOf(s);
    WorkerTemps(t);
    TempsCarry(s, t, Worker, Worker);
    WorkerRest(s, t, w);
    QuietMeans(s, t, w);
    QueueCarries(s, t);
    ContentCarries(s, t, w, Worker, newly);
    DueSame(s, t);
    CoverCarries(s, t, w, newly);
    RecordsCarry(s, t);
    KeptBy(s, t, w, Worker);
  }

  lemma WorkerClaims(s: State, t: State)
    requires t.ses == s.ses && t.handlers == s.handlers && t.mirror == s.mirror
    ensures OthersKeepClaims(s, t, Worker, Worker)
    ensures forall u: State :: Claim(u, Reads, Worker) == JobHolds(u.job)
              && Claim(u, Writes, Worker) == JobWrites(u.job)
  {
  }

  lemma PrefixJob(s: State)
    requires JobOk(s) && s.job.Fresh?
    ensures var t := DoJobPrefix(s);
            var n := PrefixHits(s.l1.entries, s.job.msg.keys);
            && JobOk(t) && Active(t.job) == Active(s.job)
            && JobHolds(t.job) == s.job.msg.keys[..n] && JobWrites(t.job) == []
            && JobHolds(s.job) == [] == JobWrites(s.job) && NoDup(s.job.msg.keys)
  {
    LookupSame(s, DoJobPrefix(s), s.job.msg);
  }

  /** The worker starts by holding the longest readable prefix. */
  lemma JobPrefixKeeps(s: State)
    requires Inv(s) && s.job.Fresh?
    ensures Kept(s, DoJobPrefix(s))
  {
    hide Claim, CanRead, L1Inv, OthersKeepClaims, Books, TempsOk, ContentOk, CoverOk, RecordsOk, HandlersOk,
         QueueOk, SessionsOk, MirrorOk, JobHolds, JobWrites, JobOk, KeyCovered, Active, Quiet;
    var t := DoJobPrefix(s);
    var keys := s.job.msg.keys;
    PrefixJob(s);
    ReserveReadPrefixEffect(s.l1, keys);
    WorkerClaims(s, t);
    HoldBooks(s, t, Worker, keys[..PrefixHits(s.l1.entries, keys)]);
    HeldReadable(s, t);
    WorkerL1Keeps(s, t, None, {});
  }

  /** Counting holds makes nothing readable and promotes nothing. */
  lemma HeldReadable(s: State, t: State)
    requires t.l1.entries.Keys == s.l1.entries.Keys
    requires forall k :: k in s.l1.entries ==>
               t.l1.entries[k].writeLocked == s.l1.entries[k].writeLocked
               && t.l1.entries[k].isTemporary == s.l1.entries[k].isTemporary
    ensures forall k :: CanRead(t.l1.entries, k) ==> CanRead(s.l1.entries, k)
    ensures NoNewTemps(s, t)
  {
  }

  lemma PartGrows(keys: seq<ChunkKey>, a: nat, b: nat)
    requires a <= b < |keys|
    ensures Part(keys, a, b + 1) == Part(keys, a, b) + [keys[b]]
  {
  }

  lemma NextKey(s: State)
    requires Inv(s) && CanJobReserve(s)
    ensures var job := s.job;
            var b := job.l1 + |job.objs|;
            && b < |job.msg.keys| && job.msg.keys[b] == MissingKeys(job)[|job.objs|]
            && SizeOf(s, job.msg.keys[b]) > 0 && LookupOk(s, job.msg) && LoadOk(s, job.msg, job.l1, job.objs, 0)
  {
    var job := s.job;
    assert LoadOk(s, job.msg, job.l1, job.objs, 0);
    assert job.msg.keys[job.l1 + |job.objs|] in job.msg.keys;
  }

  /** One more slot for a chunk to load, or none and the loop is over. */
  lemma JobReserveKeeps(s: State)
    requires Inv(s) && CanJobReserve(s)
    ensures Kept(s, DoJobReserve(s))
  {
    hide Claim, CanRead, L1Inv, OthersKeepClaims, ReserveWrite, Books, TempsOk, ContentOk, CoverOk, RecordsOk,
         HandlersOk, QueueOk, SessionsOk, MirrorOk, JobHolds, JobWrites, LoadOk, LookupOk, KeyCovered, Quiet,
         MissingKeys, Wanted, Reserved;
    var t := DoJobReserve(s);
    NextKey(s);
    var key := s.job.msg.keys[s.job.l1 + |s.job.objs|];
    var (m, got) := ReserveWrite(s.l1, [key], SizeOf(s, key), true);
    ReserveWriteReserves(s.l1, [key], SizeOf(s, key), true);
    LookupSame(s, t, s.job.msg);
    WorkerClaims(s, t);
    JobReserveClaims(s, t, key, got);
    ReserveKeepsBooks(s, t, Worker, [key], got, SizeOf(s, key), true);
    JobReserveLoad(s, t, key, got);
    ReservedReadable(s, t, [key], got, SizeOf(s, key));
    WorkerL1Keeps(s, t, None, {});
  }

  /** A reservation makes nothing readable and promotes nothing. */
  lemma ReservedReadable(s: State, t: State, keys: seq<ChunkKey>, got: map<ChunkKey, Option<Slice>>, n: nat)
    requires Reserved(s.l1, t.l1, keys, got, n, true)
    ensures forall k :: CanRead(t.l1.entries, k) ==> CanRead(s.l1.entries, k)
    ensures NoNewTemps(s, t)
  {
  }

  lemma JobReserveClaims(s: State, t: State, key: ChunkKey, got: map<ChunkKey, Option<Slice>>)
    requires CanJobReserve(s) && t.job.Reserving? && s.job.l1 + |s.job.objs| < |s.job.msg.keys|
    requires key == s.job.msg.keys[s.job.l1 + |s.job.objs|]
    requires t.job.msg == s.job.msg && t.job.l1 == s.job.l1
    requires t.job.objs == s.job.objs + if key in got && got[key].Some? then [got[key].value] else []
    ensures JobHolds(t.job) == JobHolds(s.job)
    ensures forall k :: k in JobWrites(t.job) <==> k in JobWrites(s.job) || (k in [key] && k in got && got[k].Some?)
  {
    PartGrows(s.job.msg.keys, s.job.l1, s.job.l1 + |s.job.objs|);
  }

  lemma JobReserveLoad(s: State, t: State, key: ChunkKey, got: map<ChunkKey, Option<Slice>>)
    requires CanJobReserve(s) && t.job.Reserving? && s.job.l1 + |s.job.objs| < |s.job.msg.keys|
    requires key == s.job.msg.keys[s.job.l1 + |s.job.objs|]
    requires t.job.msg == s.job.msg && t.job.l1 == s.job.l1
    requires t.job.objs == s.job.objs + if key in got && got[key].Some? then [got[key].value] else []
    requires LoadOk(s, s.job.msg, s.job.l1, s.job.objs, 0)
    requires Reserved(s.l1, t.l1, [key], got, SizeOf(s, key), true)
    ensures LoadOk(t, t.job.msg, t.job.l1, t.job.objs, 0)
  {
    hide NoDup;
    var ks, ls := Part(s.job.msg.keys, s.job.l1, s.job.l1 + |s.job.objs|),
        Part(t.job.msg.keys, t.job.l1, t.job.l1 + |t.job.objs|);
    PartGrows(s.job.msg.keys, s.job.l1, s.job.l1 + |s.job.objs|);
    forall i | 0 <= i < |t.job.objs|
      ensures ObjAt(t, ls[i], t.job.objs[i])
    {
      if i < |s.job.objs| {
        assert ls[i] == ks[i] && ObjAt(s, ks[i], s.job.objs[i]);
      } else {
        assert key in [key];
        assert ls[i] == key;
      }
    }
  }

  /** Copying a record, half done or complete, disturbs only the worker's own slice. */
  lemma JobLoadKeeps(s: State, data: Blob)
    requires Inv(s) && CanJobLoad(s, data)
    ensures Kept(s, DoJobLoad(s, data))
  {
    hide ContentOk, CoverOk, HandlersOk, QueueOk, SessionsOk, MirrorOk, KeyCovered, TempsOk, Books;
    var t := DoJobLoad(s, data);
    var job := s.job;
    assert LookupOk(s, job.msg) && LoadOk(s, job.msg, job.l1, job.objs, job.loaded);
    var ks := Part(job.msg.keys, job.l1, job.l1 + |job.objs|);
    var key := ks[job.loaded];
    assert key == MissingKeys(job)[job.loaded];
    assert ObjAt(s, key, job.objs[job.loaded]);
    LookupSame(s, t, job.msg);
    JobLoadClaims(s, data);
    hide Claim, L1Inv, Books, ContentOk, CoverOk, TempsOk, HandlersOk, QueueOk, SessionsOk, MirrorOk, JobHolds,
         JobWrites, LoadOk, LookupOk;
    WriteCarries(s, t, key, data);
    BooksSame(s, t);
    LoadedOneMore(s, t, data);
    WorkerStepKeeps(s, t, Some(key));
  }

  lemma JobLoadClaims(s: State, data: Blob)
    requires CanJobLoad(s, data) && s.job.l1 + |s.job.objs| <= |s.job.msg.keys|
    ensures var t := DoJobLoad(s, data);
            && (forall role, o :: Claim(t, role, o) == Claim(s, role, o))
            && Part(s.job.msg.keys, s.job.l1, s.job.l1 + |s.job.objs|)[s.job.loaded] in Claim(s, Writes, Worker)
  {
  }

  /** What was loaded before keeps its bytes while another slot is written. */
  lemma LoadedStays(s: State, t: State, k: ChunkKey, w: ChunkKey, obj: Slice)
    requires ObjAt(s, k, obj) && k != w && Supplied(s, k, BytesAt(s, obj)) && InSomeL2(s, k)
    requires Carries(s, t, Some(w)) && t.l1 == s.l1
    ensures Supplied(t, k, BytesAt(t, obj)) && InSomeL2(t, k)
  {
    SomeL2Carries(s, t, Some(w), k);
  }

  lemma LoadedOneMore(s: State, t: State, data: Blob)
    requires CanJobLoad(s, data) && t.job == DoJobLoad(s, data).job
    requires LookupOk(s, s.job.msg) && LoadOk(s, s.job.msg, s.job.l1, s.job.objs, s.job.loaded) && RecordsOk(s)
    requires var key := Part(s.job.msg.keys, s.job.l1, s.job.l1 + |s.job.objs|)[s.job.loaded];
             Carries(s, t, Some(key)) && t.l1 == s.l1 && t.stored == s.stored && t.l2 == s.l2
    requires BytesAt(t, s.job.objs[s.job.loaded]) == data
    ensures LoadOk(t, t.job.msg, t.job.l1, t.job.objs, t.job.loaded)
  {
    hide BytesAt, Carries;
    var job := s.job;
    var ks := Part(job.msg.keys, job.l1, job.l1 + |job.objs|);
    PartNoDup(job.msg.keys, job.l1, job.l1 + |job.objs|);
    assert ks[job.loaded] == MissingKeys(job)[job.loaded];
    forall i | 0 <= i < |job.objs|
      ensures ObjAt(t, ks[i], job.objs[i])
    {
      assert ObjAt(s, ks[i], job.objs[i]);
    }
    forall i | 0 <= i < t.job.loaded
      ensures Supplied(t, ks[i], BytesAt(t, job.objs[i])) && InSomeL2(t, ks[i])
    {
      if i < job.loaded {
        LoadedStays(s, t, ks[i], ks[job.loaded], job.objs[i]);
      } else {
        assert RecordOk(s, job.from.value, ks[i]);
        assert ks[i] in t.l2[job.from.value];
      }
    }
  }

  // ---- publishing, trimming, resolving ------------------------------------------------------------

  lemma PublishClaims(job: Job, k: ChunkKey)
    requires job.Publishing? && NoDup(job.msg.keys) && job.l1 + |job.objs| <= |job.msg.keys| && job.loaded <= |job.objs|
    ensures PublishSplit(job, Trimming(job.msg, job.l1, job.objs, job.loaded),
              Part(job.msg.keys, job.l1, job.l1 + job.loaded), k)
  {
    hide NoDup, Part;
    var keys, n := job.msg.keys, job.l1;
    PartSplit(keys, 0, n, n + job.loaded, k);
    PartSplit(keys, n, n + job.loaded, n + |job.objs|, k);
  }

  /** Write locks of o on `loaded` turn into read holds of o. */
  lemma PublishBooks(s: State, t: State, o: Owner, loaded: seq<ChunkKey>)
    requires CoreOk(s) && Books(s) && L1Inv(t.l1) && t.l1.pool == s.l1.pool
    requires PublishedHeld(s.l1.entries, t.l1.entries, loaded)
    requires t.mem == s.mem && t.geo == s.geo && t.l2 == s.l2 && t.stored == s.stored
    requires OthersKeepClaims(s, t, o, o)
    requires forall k :: k in Claim(t, Reads, o) <==> k in Claim(s, Reads, o) || k in loaded
    requires forall k :: k in loaded ==> k !in Claim(s, Reads, o) && k !in Claim(t, Writes, o)
    requires forall k :: k in Claim(s, Writes, o) <==> k in Claim(t, Writes, o) || k in loaded
    ensures CoreOk(t) && Books(t) && Quiet(s, t, None)
  {
    hide L1Inv, Claim, OthersKeepClaims;
    CoreLocks(s);
    CoreLocks(t);
    forall role, k
      ensures Recorded(t.l1.entries, role, k) == Recorded(s.l1.entries, role, k) + Delta(s, t, role, o, k)
    {
      if k in loaded {
        WriterLocks(s, o, k);
      }
      assert role.Reads? ==> Delta(s, t, role, o, k) == if k in loaded then 1 else 0;
      assert role.Writes? ==> Delta(s, t, role, o, k) == if k in loaded then -1 else 0;
    }
    BooksCarry(s, t, o, o);
    hide Books;
    assert forall k :: SizeOf(t, k) == SizeOf(s, k);
  }

  lemma LoadedContent(s: State, t: State, m: Lookup, n: nat, objs: seq<Slice>, loaded: nat)
    requires LoadOk(s, m, n, objs, loaded)
    requires t.mem == s.mem && t.l2 == s.l2 && t.stored == s.stored
    requires forall k :: k in s.l1.entries ==> k in t.l1.entries && t.l1.entries[k].obj == s.l1.entries[k].obj
    requires t.fromStore == s.fromStore - Elems(Part(m.keys, n, n + loaded))
    ensures forall k :: k in Part(m.keys, n, n + loaded) ==>
              k in t.l1.entries && Supplied(t, k, BytesAt(t, t.l1.entries[k].obj)) && KeyCovered(t, k)
  {
    var ks, ls := Part(m.keys, n, n + |objs|), Part(m.keys, n, n + loaded);
    forall k | k in ls
      ensures k in t.l1.entries && Supplied(t, k, BytesAt(t, t.l1.entries[k].obj)) && KeyCovered(t, k)
    {
      var i :| 0 <= i < |ls| && ls[i] == k;
      assert ks[i] == k && ObjAt(s, ks[i], objs[i]);
      assert Supplied(s, ks[i], BytesAt(s, objs[i])) && InSomeL2(s, ks[i]);
      assert BytesAt(t, objs[i]) == BytesAt(s, objs[i]);
    }
  }

  lemma PublishSplits(job: Job, after: Job, loaded: seq<ChunkKey>)
    requires job.Publishing? && NoDup(job.msg.keys) && job.l1 + |job.objs| <= |job.msg.keys| && job.loaded <= |job.objs|
    requires after == Trimming(job.msg, job.l1, job.objs, job.loaded)
    requires loaded == Part(job.msg.keys, job.l1, job.l1 + job.loaded)
    ensures forall k :: k in JobHolds(after) <==> k in JobHolds(job) || k in loaded
    ensures forall k :: k in loaded ==> k !in JobHolds(job) && k !in JobWrites(after)
    ensures forall k :: k in JobWrites(job) <==> k in JobWrites(after) || k in loaded
  {
    hide NoDup, Part, JobHolds, JobWrites;
    forall k
      ensures PublishSplit(job, after, loaded, k)
    {
      PublishClaims(job, k);
    }
    forall k
      ensures k in JobHolds(after) <==> k in JobHolds(job) || k in loaded
      ensures k in loaded ==> k !in JobHolds(job) && k !in JobWrites(after)
      ensures k in JobWrites(job) <==> k in JobWrites(after) || k in loaded
    {
      assert PublishSplit(job, after, loaded, k);
    }
  }

  lemma PublishJob(s: State)
    requires JobOk(s) && s.job.Publishing?
    ensures var t := DoJobPublish(s);
            var job := s.job;
            var loaded := Part(job.msg.keys, job.l1, job.l1 + job.loaded);
            && NoDup(loaded) && JobOk(t) && Active(t.job) == Active(job)
            && LoadOk(s, job.msg, job.l1, job.objs, job.loaded)
            && (forall k :: k in JobHolds(t.job) <==> k in JobHolds(job) || k in loaded)
            && (forall k :: k in loaded ==> k !in JobHolds(job) && k !in JobWrites(t.job))
            && (forall k :: k in JobWrites(job) <==> k in JobWrites(t.job) || k in loaded)
  {
    hide NoDup, JobHolds, JobWrites, Part;
    var t := DoJobPublish(s);
    var job := s.job;
    PartNoDup(job.msg.keys, job.l1, job.l1 + job.loaded);
    LookupSame(s, t, job.msg);
    PublishSplits(job, t.job, Part(job.msg.keys, job.l1, job.l1 + job.loaded));
  }

  ghost predicate PublishSplit(job: Job, after: Job, loaded: seq<ChunkKey>, k: ChunkKey) {
    && (k in JobHolds(after) <==> k in JobHolds(job) || k in loaded)
    && !(k in JobHolds(job) && k in loaded)
    && (k in JobWrites(job) <==> k in JobWrites(after) || k in loaded)
    && !(k in JobWrites(after) && k in loaded)
  }

  /** What was loaded becomes readable together with the worker's hold on it. */
  lemma JobPublishKeeps(s: State)
    requires Inv(s) && s.job.Publishing?
    ensures Kept(s, DoJobPublish(s))
  {
    hide Claim, L1Inv, OthersKeepClaims, FinishWriteAndHold, Books, TempsOk, ContentOk, CoverOk, RecordsOk,
         HandlersOk, QueueOk, SessionsOk, MirrorOk, JobOk, JobHolds, JobWrites, LoadOk, Part, KeyCovered, Quiet,
         PublishedHeld, CanRead;
    var t := DoJobPublish(s);
    var job := s.job;
    var loaded := Part(job.msg.keys, job.l1, job.l1 + job.loaded);
    PublishJob(s);
    PublishFound(s, loaded);
    FinishWriteAndHoldKeepsInv(s.l1, loaded);
    WorkerClaims(s, t);
    PublishBooks(s, t, Worker, loaded);
    PublishReadable(s, t, loaded);
    LoadedContent(s, t, job.msg, job.l1, job.objs, job.loaded);
    WorkerL1Keeps(s, t, None, Elems(loaded));
  }

  lemma PublishReadable(s: State, t: State, loaded: seq<ChunkKey>)
    requires PublishedHeld(s.l1.entries, t.l1.entries, loaded)
    ensures t.l1.entries.Keys == s.l1.entries.Keys
    ensures forall k :: k in s.l1.entries ==>
              t.l1.entries[k].obj == s.l1.entries[k].obj && t.l1.entries[k].isTemporary == s.l1.entries[k].isTemporary
    ensures forall k :: CanRead(t.l1.entries, k) && k !in loaded ==> CanRead(s.l1.entries, k)
  {
  }

  lemma PublishFound(s: State, loaded: seq<ChunkKey>)
    requires Inv(s) && s.job.Publishing? && loaded == Part(s.job.msg.keys, s.job.l1, s.job.l1 + s.job.loaded)
    ensures forall k :: k in loaded ==> k in s.l1.entries
  {
    CoreLocksOf(s);
    forall k | k in loaded
      ensures k in s.l1.entries
    {
      PublishClaims(s.job, k);
      assert k in Part(s.job.msg.keys, s.job.l1, s.job.l1 + s.job.loaded);
      assert k in Claim(s, Writes, Worker);
      WriterLocks(s, Worker, k);
    }
  }

  /** Slots that stayed empty are given back, although they are write-locked. */
  lemma JobTrimKeeps(s: State)
    requires Inv(s) && CanJobTrim(s)
    ensures Kept(s, DoJobTrim(s))
  {
    hide ContentOk, CoverOk, HandlersOk, QueueOk, SessionsOk, MirrorOk, KeyCovered, TempsOk, RecordsOk, Books;
    var t := DoJobTrim(s);
    var job := s.job;
    LookupSame(s, t, job.msg);
    WorkerClaims(s, t);
    assert JobHolds(t.job) == JobHolds(job) && JobWrites(job) == Untouched(job) && JobWrites(t.job) == [];
    hide Claim, L1Inv, OthersKeepClaims, Delete, Sized, Books, ContentOk, CoverOk, RecordsOk, HandlersOk,
         QueueOk, SessionsOk, MirrorOk, JobHolds, JobWrites, KeyCovered;
    DeleteBooks(s, t, Worker, Untouched(job), true);
    WorkerL1Keeps(s, t, None, {});
  }

  lemma ResolveClaims(s: State)
    requires Inv(s) && CanJobResolve(s) && s.job.msg.rid in s.ses.hits
    ensures var t := DoJobResolve(s);
            var rid := s.job.msg.rid;
            && OthersKeepClaims(s, t, Worker, Session(rid))
            && (forall role, k :: Delta(s, t, role, Worker, k) + Delta(s, t, role, Session(rid), k) == 0)
            && HeldKeys(s.ses, rid) == []
            && HeldKeys(t.ses, rid) == s.job.msg.keys[..s.job.l1 + s.job.loaded]
  {
    hide ContentOk, CoverOk, HandlersOk, QueueOk, SessionsOk, MirrorOk, KeyCovered, TempsOk, RecordsOk, Books, CoreOk;
    var t := DoJobResolve(s);
    var rid := s.job.msg.rid;
    var hitKeys := s.job.msg.keys[..s.job.l1 + s.job.loaded];
    assert LookupOk(s, s.job.msg);
    FromKeysNoDup(hitKeys);
    assert NoDup(hitKeys);
    assert JobHolds(s.job) == hitKeys && JobHolds(t.job) == [];
    forall role, o | o != Worker && o != Session(rid)
      ensures Claim(t, role, o) == Claim(s, role, o)
    {
    }
  }

  /**
   * Publishing a lookup: the session is told (l1, loaded) and from then on
   * holds exactly the first l1 + loaded keys it asked for.
   */
  lemma ResolveSessions(s: State)
    requires Inv(s) && CanJobResolve(s)
    ensures var t := DoJobResolve(s); SessionsOk(t) && QueueOk(t)
  {
    var t := DoJobResolve(s);
    var rid := s.job.msg.rid;
    var hitKeys := s.job.msg.keys[..s.job.l1 + s.job.loaded];
    hide Books, CoreOk, TempsOk, ContentOk, RecordsOk, CoverOk, MirrorOk, HandlersOk;
    assert LookupOk(s, s.job.msg);
    FromKeysNoDup(hitKeys);
    assert NoDup(hitKeys);
    forall r | r in t.ses.held
      ensures SessionOk(t, r)
    {
      if r != rid {
        assert SessionOk(s, r);
      }
    }
    var all := Active(s.job) + Rids(s.ses.jobs);
    forall i | 0 <= i < |t.ses.jobs|
      ensures LookupOk(t, t.ses.jobs[i])
    {
      assert LookupOk(s, s.ses.jobs[i]);
      assert all[0] == rid && all[i + 1] == s.ses.jobs[i].rid;
      LookupCarries(s, t, t.ses.jobs[i]);
    }
    assert Active(t.job) + Rids(t.ses.jobs) == Rids(s.ses.jobs) == all[1..];
    NoDupTail(all);
  }

  lemma JobResolveKeeps(s: State)
    requires Inv(s) && CanJobResolve(s)
    ensures Kept(s, DoJobResolve(s))
  {
    var t := DoJobResolve(s);
    var rid := s.job.msg.rid;
    assert LookupOk(s, s.job.msg);
    ResolveSessions(s);
    assert forall k :: SizeOf(t, k) == SizeOf(s, k);
    if rid in s.ses.hits {
      ResolveClaims(s);
      hide Claim, OthersKeepClaims, L1Inv, ContentOk, CoverOk, RecordsOk, HandlersOk, MirrorOk, QueueOk, SessionsOk;
      TransferBooks(s, t, Worker, Session(rid));
      ResolveRest(s, t, Session(rid));
    } else {
      assert JobHolds(t.job) == JobHolds(s.job);
      assert forall role, o :: Claim(t, role, o) == Claim(s, role, o);
      assert NoDup(s.job.msg.keys[..s.job.l1 + s.job.loaded]);
      hide Claim, L1Inv, ContentOk, CoverOk, RecordsOk, HandlersOk, MirrorOk, QueueOk, SessionsOk, JobHolds;
      BooksSame(s, t);
      ResolveRest(s, t, Worker);
    }
  }

  /** The end of a job over unchanged entries: other actors do not notice. */
  lemma ResolveRest(s: State, t: State, b: Owner)
    requires Inv(s) && CoreOk(t) && Books(t) && SessionsOk(t) && QueueOk(t) && JobOk(t)
    requires t == s.(ses := t.ses, job := t.job) && OthersKeepClaims(s, t, Worker, b) && (b.Session? || b == Worker)
    requires forall r :: HeldKeys(s.ses, r) == [] || HeldKeys(t.ses, r) == HeldKeys(s.ses, r)
    requires JobWrites(t.job) == [] == JobWrites(s.job)
    ensures Kept(s, t)
  {
    assert Claim(t, Writes, Worker) == [] == Claim(s, Writes, Worker);
    assert b.Session? ==> Claim(t, Writes, b) == [];
    hide Claim, OthersKeepClaims, KeyCovered, ContentOk, CoverOk, RecordsOk, QueueOk, SessionsOk, Books, L1Inv;
    CoreLocksOf(s);
    CoreLocksOf(t);
    TempsCarry(s, t, Worker, b);
    PendingOk(s);
    MirrorCarries(s, t, None, Call(0));
    HandlersCarry(s, t, None, Worker);
    ContentCarries(s, t, None, Worker, {});
    DueSame(s, t);
    CoverCarries(s, t, None, {});
    RecordsCarry(s, t);
    KeptBy(s, t, None, Worker);
  }

  /** A worker left with the holds of a vanished session gives them back. */
  lemma JobReturnKeeps(s: State)
    requires Inv(s) && CanJobReturn(s)
    ensures Kept(s, DoJobReturn(s))
  {
    hide ContentOk, CoverOk, HandlersOk, QueueOk, SessionsOk, MirrorOk, KeyCovered, TempsOk, RecordsOk, Books;
    var t := DoJobReturn(s);
    WorkerClaims(s, t);
    assert JobHolds(s.job) == s.job.keys && JobHolds(t.job) == [] && JobWrites(s.job) == [] == JobWrites(t.job);
    hide Claim, L1Inv, OthersKeepClaims, FinishRead, Sized, Finds, Books, ContentOk, CoverOk, RecordsOk,
         HandlersOk, QueueOk, SessionsOk, MirrorOk, JobHolds, JobWrites;
    DropBooks(s, t, Worker, s.job.keys);
    WorkerL1Keeps(s, t, None, {});
  }

  // ---- all of them ----------------------------------------------------------------------------------

  lemma LookupStepKeeps(s: State, a: LookupStep)
    requires Inv(s) && LookupEnabled(s, a)
    ensures Kept(s, LookupApply(s, a))
  {
    hide Inv, CanStartLookup, CanJobTake, CanJobAsk, CanJobAnswered, CanJobReserve, CanJobLoad, CanJobTrim,
         CanJobResolve, CanJobReturn;
    match a
    case StartLookup(rid, keys, sized) => StartLookupKeeps(s, rid, keys, sized);
    case JobTake => JobTakeKeeps(s);
    case JobPrefix => JobPrefixKeeps(s);
    case JobAsk(i) => JobAskKeeps(s, i);
    case JobAnswered => JobAnsweredKeeps(s);
    case JobReserve => JobReserveKeeps(s);
    case JobReserved(todo) => LoadMoves(s, DoJobReserved(s, todo));
    case JobPick => LoadMoves(s, DoJobPick(s));
    case JobLoad(data) => JobLoadKeeps(s, data);
    case JobNext => LoadMoves(s, DoJobNext(s));
    case JobLoaded => LoadMoves(s, DoJobLoaded(s));
    case JobPublish => JobPublishKeeps(s);
    case JobTrim => JobTrimKeeps(s);
    case JobResolve => JobResolveKeeps(s);
    case JobReturn => JobReturnKeeps(s);
  }
}
