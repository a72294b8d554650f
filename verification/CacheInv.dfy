// What every reachable state of the cache server satisfies, and the frame
// lemmas that carry each part over a step that does not concern it.
module CacheInv {
  import opened Types
  import opened Memory
  import opened LockProtocol
  import opened Sessions
  import opened Cache

  // ---- who claims what -----------------------------------------------------------

  datatype Owner = Session(rid: string) | Worker | Mirror | Call(id: nat)

  /** A claim is a read hold or a write lock. */
  datatype Role = Reads | Writes

  ghost function JobHolds(job: Job): seq<ChunkKey> {
    match job
    case Idle => []
    case Fresh(_) => []
    case Looking(m, n, _) => Part(m.keys, 0, n)
    case Reserving(m, n, _, _, _) => Part(m.keys, 0, n)
    case Loading(m, n, _, _, _, _, _) => Part(m.keys, 0, n)
    case Publishing(m, n, _, _) => Part(m.keys, 0, n)
    case Trimming(m, n, _, loaded) => Part(m.keys, 0, n + loaded)
    case Resolving(m, n, loaded) => Part(m.keys, 0, n + loaded)
    case Returning(keys) => keys
  }

  ghost function JobWrites(job: Job): seq<ChunkKey> {
    match job
    case Reserving(m, n, _, objs, _) => Part(m.keys, n, n + |objs|)
    case Loading(m, n, _, objs, _, _, _) => Part(m.keys, n, n + |objs|)
    case Publishing(m, n, objs, _) => Part(m.keys, n, n + |objs|)
    case Trimming(m, n, objs, loaded) => Part(m.keys, n + loaded, n + |objs|)
    case _ => []
  }

  ghost function HandlerClaim(h: Handler, role: Role): seq<ChunkKey> {
    match h
    case Storing(items, extra) => if role.Writes? then ItemKeys(items) + extra else []
    case Dead(keys) => if role.Writes? then keys else []
    case Dropping(_, keys, _) => if role.Reads? then keys else []
    case Lost(keys) => if role.Reads? then keys else []
    case _ => []
  }

  ghost function Claim(s: State, role: Role, o: Owner): seq<ChunkKey> {
    match o
    case Session(rid) => if role.Reads? then HeldKeys(s.ses, rid) else []
    case Worker => if role.Reads? then JobHolds(s.job) else JobWrites(s.job)
    case Mirror => if role.Reads? && s.mirror.Mirroring? then s.mirror.locked else []
    case Call(id) => if id in s.handlers then HandlerClaim(s.handlers[id], role) else []
  }

  ghost function Owners(s: State): set<Owner> {
    (set rid | rid in s.ses.held :: Session(rid)) + {Worker, Mirror} + (set id | id in s.handlers :: Call(id))
  }

  ghost function Claimants(s: State, role: Role, k: ChunkKey): set<Owner> {
    set o | o in Owners(s) && k in Claim(s, role, o)
  }

  /** What the entry itself records about a key. */
  ghost function Recorded(entries: Entries, role: Role, k: ChunkKey): int {
    if k !in entries then 0
    else if role.Reads? then entries[k].readCount
    else if entries[k].writeLocked then 1 else 0
  }

  /**
   * Hold accounting: read_count is exactly the number of holders, and a write
   * lock has exactly one writer; nobody claims a key that is gone.
   */
  ghost predicate Books(s: State) {
    forall role, k :: |Claimants(s, role, k)| == Recorded(s.l1.entries, role, k)
  }

  ghost function Delta(s: State, t: State, role: Role, o: Owner, k: ChunkKey): int {
    (if k in Claim(t, role, o) then 1 else 0) - (if k in Claim(s, role, o) then 1 else 0)
  }

  ghost predicate OthersKeepClaims(s: State, t: State, a: Owner, b: Owner) {
    forall role, o :: o != a && o != b ==> Claim(t, role, o) == Claim(s, role, o)
  }

  lemma ClaimHasOwner(s: State, role: Role, o: Owner, k: ChunkKey)
    requires k in Claim(s, role, o)
    ensures o in Owners(s) && o in Claimants(s, role, k)
  {
  }

  lemma ClaimantsShift(s: State, t: State, a: Owner, b: Owner, role: Role, k: ChunkKey)
    requires OthersKeepClaims(s, t, a, b)
    ensures |Claimants(t, role, k)| == |Claimants(s, role, k)| + Delta(s, t, role, a, k) +
              (if a == b then 0 else Delta(s, t, role, b, k))
  {
    hide Claimants, Claim;
    var x, y := Claimants(s, role, k), Claimants(t, role, k);
    forall o | o != a && o != b
      ensures o in x <==> o in y
    {
      MemberByClaim(s, role, o, k);
      MemberByClaim(t, role, o, k);
    }
    MemberByClaim(s, role, a, k);
    MemberByClaim(t, role, a, k);
    MemberByClaim(s, role, b, k);
    MemberByClaim(t, role, b, k);
    SizeShift(x, y, a, b);
  }

  ghost function Present(x: set<Owner>, o: Owner): int {
    if o in x then 1 else 0
  }

  lemma SizeShift(x: set<Owner>, y: set<Owner>, a: Owner, b: Owner)
    requires forall o :: o != a && o != b ==> (o in x <==> o in y)
    ensures |y| == |x| + Present(y, a) - Present(x, a) + (if a == b then 0 else Present(y, b) - Present(x, b))
  {
    SameBut(x, y, a, b);
    SizeBut(x, a, b);
    SizeBut(y, a, b);
  }

  lemma SameBut(x: set<Owner>, y: set<Owner>, a: Owner, b: Owner)
    requires forall o :: o != a && o != b ==> (o in x <==> o in y)
    ensures (x - {a}) - {b} == (y - {a}) - {b}
  {
  }

  lemma MemberByClaim(s: State, role: Role, o: Owner, k: ChunkKey)
    ensures o in Claimants(s, role, k) <==> k in Claim(s, role, o)
  {
    if k in Claim(s, role, o) {
      ClaimHasOwner(s, role, o, k);
    }
  }

  lemma SizeBut(x: set<Owner>, a: Owner, b: Owner)
    ensures |x| == |(x - {a}) - {b}| + Present(x, a) + if b == a then 0 else Present(x, b)
  {
    SizeButOne(x, a);
    SizeButOne(x - {a}, b);
  }

  lemma SizeButOne(x: set<Owner>, a: Owner)
    ensures |x| == |x - {a}| + Present(x, a)
  {
    assert a !in x ==> x - {a} == x;
  }

  /** Only a and b change their claims, and the entries record exactly that change. */
  ghost predicate Recounts(s: State, t: State, a: Owner, b: Owner) {
    && OthersKeepClaims(s, t, a, b)
    && forall role, k :: Recorded(t.l1.entries, role, k) ==
         Recorded(s.l1.entries, role, k) + Delta(s, t, role, a, k) + (if a == b then 0 else Delta(s, t, role, b, k))
  }

  lemma BooksCarry(s: State, t: State, a: Owner, b: Owner)
    requires Books(s) && Recounts(s, t, a, b)
    ensures Books(t)
  {
    forall role, k
      ensures |Claimants(t, role, k)| == Recorded(t.l1.entries, role, k)
    {
      ClaimantsShift(s, t, a, b, role, k);
    }
  }

  /** A holder's keys are readable and counted. */
  lemma HolderReads(s: State, o: Owner, k: ChunkKey)
    requires Books(s) && Locks(s.l1.entries) && k in Claim(s, Reads, o)
    ensures CanRead(s.l1.entries, k) && s.l1.entries[k].readCount > 0
  {
    ClaimHasOwner(s, Reads, o, k);
    assert |Claimants(s, Reads, k)| == Recorded(s.l1.entries, Reads, k);
    assert Claimants(s, Reads, k) != {};
  }

  /** A writer's keys are write-locked and unheld, and no one else writes them. */
  lemma WriterLocks(s: State, o: Owner, k: ChunkKey)
    requires Books(s) && Locks(s.l1.entries) && k in Claim(s, Writes, o)
    ensures k in s.l1.entries && s.l1.entries[k].writeLocked && s.l1.entries[k].readCount == 0
    ensures forall p :: k in Claim(s, Writes, p) ==> p == o
    ensures forall p :: k !in Claim(s, Reads, p)
  {
    ClaimHasOwner(s, Writes, o, k);
    var c := Claimants(s, Writes, k);
    assert |c| == Recorded(s.l1.entries, Writes, k);
    forall p | k in Claim(s, Writes, p)
      ensures p == o
    {
      ClaimHasOwner(s, Writes, p, k);
      if p != o {
        SizeBut(c, o, p);
      }
    }
    forall p
      ensures k !in Claim(s, Reads, p)
    {
      if k in Claim(s, Reads, p) {
        HolderReads(s, p, k);
      }
    }
  }

  // ---- the parts of the invariant -------------------------------------------------------

  ghost predicate CoreOk(s: State) {
    && L1Inv(s.l1) && |s.mem| == s.l1.pool.total
    && (forall k :: k in s.l1.entries ==> s.l1.entries[k].obj.size == SizeOf(s, k))
  }

  /** A temporary entry is written by the prefetch worker only; a late promote may clear the flag under it. */
  ghost predicate TempsOk(s: State) {
    forall o, k :: k in Claim(s, Writes, o) && k in s.l1.entries && s.l1.entries[k].isTemporary ==> o == Worker
  }

  /** Every readable entry holds a blob supplied under its key. */
  ghost predicate ContentOk(s: State) {
    forall k :: CanRead(s.l1.entries, k) ==> Supplied(s, k, BytesAt(s, s.l1.entries[k].obj))
  }

  ghost predicate InSomeL2(s: State, k: ChunkKey) {
    exists i :: 0 <= i < |s.l2| && k in s.l2[i]
  }

  ghost predicate ObjAt(s: State, k: ChunkKey, obj: Slice) {
    k in s.l1.entries && s.l1.entries[k].obj == obj
  }

  ghost predicate ItemOk(s: State, it: Item) {
    && ObjAt(s, it.key, it.obj) && Supplied(s, it.key, it.blob)
    && (it.done ==> BytesAt(s, it.obj) == it.blob)
  }

  ghost predicate HandlerOk(s: State, h: Handler) {
    match h
    case Storing(items, extra) =>
      && NoDup(ItemKeys(items)) && (forall k :: k in extra ==> k !in ItemKeys(items))
      && forall it :: it in items ==> ItemOk(s, it)
    case Dead(keys) => true
    case Reading(rid, keys, objs, out) =>
      NoDup(keys) && |objs| == |keys| && |out| <= |keys|
    case Releasing(rid, keys) => NoDup(keys)
    case Dropping(rid, keys, ending) => NoDup(keys)
    case Closing(rid) => true
    case Lost(keys) => true
  }

  ghost predicate HandlersOk(s: State) {
    forall id :: id in s.handlers ==> HandlerOk(s, s.handlers[id])
  }

  ghost predicate LookupOk(s: State, m: Lookup) {
    && NoDup(m.keys) && m.rid in s.asked && s.asked[m.rid] == m.keys && m.rid !in s.ses.held
    && (m.sized ==> forall k :: k in m.keys ==> SizeOf(s, k) > 0)
  }

  /** The worker's slices belong to its keys, and what it has loaded was supplied and is in some L2. */
  ghost predicate LoadOk(s: State, m: Lookup, n: nat, objs: seq<Slice>, loaded: nat) {
    && m.sized && n + |objs| <= |m.keys| && loaded <= |objs|
    && var ks := Part(m.keys, n, n + |objs|);
       && (forall i :: 0 <= i < |objs| ==> ObjAt(s, ks[i], objs[i]))
       && (forall i :: 0 <= i < loaded ==> Supplied(s, ks[i], BytesAt(s, objs[i])))
       && (forall i :: 0 <= i < loaded ==> InSomeL2(s, ks[i]))
  }

  ghost predicate JobOk(s: State) {
    match s.job
    case Idle => true
    case Fresh(m) => LookupOk(s, m)
    case Looking(m, n, _) => LookupOk(s, m) && n <= |m.keys| && m.sized
    case Reserving(m, n, _, objs, _) => LookupOk(s, m) && LoadOk(s, m, n, objs, 0)
    case Loading(m, n, _, objs, _, _, loaded) => LookupOk(s, m) && LoadOk(s, m, n, objs, loaded)
    case Publishing(m, n, objs, loaded) => LookupOk(s, m) && LoadOk(s, m, n, objs, loaded)
    case Trimming(m, n, objs, loaded) => LookupOk(s, m) && n + |objs| <= |m.keys| && loaded <= |objs|
    case Resolving(m, n, loaded) => LookupOk(s, m) && n + loaded <= |m.keys|
    case Returning(keys) => NoDup(keys)
  }

  function Active(job: Job): seq<string> {
    if job.Idle? || job.Returning? then [] else [job.msg.rid]
  }

  function Rids(jobs: seq<Lookup>): (r: seq<string>)
    ensures |r| == |jobs| && forall i :: 0 <= i < |jobs| ==> r[i] == jobs[i].rid
  {
    seq(|jobs|, i requires 0 <= i < |jobs| => jobs[i].rid)
  }

  ghost predicate QueueOk(s: State) {
    && (forall i :: 0 <= i < |s.ses.jobs| ==> LookupOk(s, s.ses.jobs[i]))
    && NoDup(Active(s.job) + Rids(s.ses.jobs))
  }

  /** A session holds only keys among the hits it was told about, in the order it asked for them. */
  ghost predicate SessionOk(s: State, rid: string) {
    && rid in s.asked && rid in s.ses.hits
    && s.ses.hits[rid].Some? && NoDup(HeldKeys(s.ses, rid)) && NoDup(s.asked[rid])
    && var hits := s.ses.hits[rid].value;
       && hits.0 + hits.1 <= |s.asked[rid]|
       && forall k :: k in HeldKeys(s.ses, rid) ==> k in s.asked[rid][..hits.0 + hits.1]
  }

  ghost predicate SessionsOk(s: State) {
    && s.ses.hits.Keys <= s.asked.Keys
    && forall rid :: rid in s.ses.held ==> SessionOk(s, rid)
  }

  ghost predicate MirrorOk(s: State) {
    && (forall i :: 0 <= i < |s.pending| ==> NoDup(s.pending[i]))
    && match s.mirror
       case Waiting => true
       case Picked(batch) => NoDup(batch)
       case Mirroring(locked, slices, done) =>
         && NoDup(locked) && |slices| == |locked| && |done| == |s.l2|
         && (forall i :: 0 <= i < |locked| ==> ObjAt(s, locked[i], slices[i]))
         && (forall i :: 0 <= i < |done| ==> done[i] <= |locked|)
  }

  /** Waiting to be mirrored at all, or still to be copied into adapter i. */
  ghost predicate Due(s: State, i: nat, k: ChunkKey) {
    || (exists b :: b in s.pending && k in b)
    || (s.mirror.Picked? && k in s.mirror.batch)
    || (s.mirror.Mirroring? && i < |s.mirror.done| && s.mirror.done[i] <= |s.mirror.locked|
       && k in s.mirror.locked[s.mirror.done[i]..])
  }

  ghost predicate KeyCovered(s: State, k: ChunkKey) {
    if k in s.fromStore then forall i: nat :: i < |s.l2| ==> k in s.l2[i] || Due(s, i, k)
    else InSomeL2(s, k)
  }

  /** A readable chunk is in every L2 or on its way there if a STORE made it, and in some L2 otherwise. */
  ghost predicate CoverOk(s: State) {
    forall k :: CanRead(s.l1.entries, k) ==> KeyCovered(s, k)
  }

  ghost predicate Inv(s: State) {
    && CoreOk(s) && Books(s) && TempsOk(s)
    && ContentOk(s) && RecordsOk(s) && CoverOk(s)
    && HandlersOk(s) && JobOk(s) && QueueOk(s) && SessionsOk(s) && MirrorOk(s)
  }

  lemma InitInv(s: State)
    requires Init(s)
    ensures Inv(s)
  {
    assert SlicesOf(s.l1.entries) == {};
    assert FreeSlices(s.l1.pool.free) == {};
    forall role, k
      ensures Claimants(s, role, k) == {}
    {
      forall o
        ensures k !in Claim(s, role, o)
      {
      }
    }
  }

  // ---- frames -------------------------------------------------------------------------------

  /**
   * What every step guarantees about entries it does not own: surviving
   * entries keep their slice, and only the slice of w may change its bytes.
   */
  ghost predicate Carries(s: State, t: State, w: Option<ChunkKey>) {
    && t.geo == s.geo && s.stored <= t.stored
    && |t.l2| == |s.l2| && (forall i, k :: 0 <= i < |s.l2| && k in s.l2[i] ==> k in t.l2[i])
    && (forall k :: k in s.l1.entries && k in t.l1.entries ==> t.l1.entries[k].obj == s.l1.entries[k].obj)
    && (forall k :: k in s.l1.entries && k in t.l1.entries && w != Some(k) ==>
          BytesAt(t, s.l1.entries[k].obj) == BytesAt(s, s.l1.entries[k].obj))
  }

  /** Key k keeps its slice and bytes over the step. */
  ghost predicate Frozen(s: State, t: State, k: ChunkKey) {
    && k in s.l1.entries && k in t.l1.entries
    && t.l1.entries[k].obj == s.l1.entries[k].obj
    && BytesAt(t, s.l1.entries[k].obj) == BytesAt(s, s.l1.entries[k].obj)
  }

  lemma SomeL2Carries(s: State, t: State, w: Option<ChunkKey>, k: ChunkKey)
    requires Carries(s, t, w) && InSomeL2(s, k)
    ensures InSomeL2(t, k)
  {
    var i :| 0 <= i < |s.l2| && k in s.l2[i];
    assert k in t.l2[i];
  }

  /** The same owner claims k before and after, and w is not k: k is frozen. */
  lemma ClaimedIsFrozen(s: State, t: State, w: Option<ChunkKey>, role: Role, o: Owner, p: Owner, k: ChunkKey)
    requires Carries(s, t, w) && Books(s) && Books(t) && Locks(s.l1.entries) && Locks(t.l1.entries)
    requires k in Claim(s, role, o) && k in Claim(t, role, p) && w != Some(k)
    ensures Frozen(s, t, k)
  {
    if role.Reads? {
      HolderReads(s, o, k);
      HolderReads(t, p, k);
    } else {
      WriterLocks(s, o, k);
      WriterLocks(t, p, k);
    }
  }

  lemma ItemKeyAt(items: seq<Item>, extra: seq<ChunkKey>, it: Item)
    requires it in items
    ensures it.key in ItemKeys(items) + extra
  {
    var i :| 0 <= i < |items| && items[i] == it;
    assert (ItemKeys(items) + extra)[i] == it.key;
  }

  ghost predicate Quiet(s: State, t: State, w: Option<ChunkKey>) {
    && Carries(s, t, w) && Books(s) && Books(t) && Locks(s.l1.entries) && Locks(t.l1.entries)
  }

  /** w is write-locked by o, or nothing is written. */
  ghost predicate WrittenBy(s: State, w: Option<ChunkKey>, o: Owner) {
    w.Some? ==> w.value in Claim(s, Writes, o)
  }

  /** The step disturbed no bytes but those of at most one chunk write-locked by its actor. */
  ghost predicate Smooth(s: State, t: State) {
    exists w, o :: Quiet(s, t, w) && WrittenBy(s, w, o)
  }

  ghost predicate Kept(s: State, t: State) {
    Inv(t) && Smooth(s, t)
  }

  lemma KeptBy(s: State, t: State, w: Option<ChunkKey>, o: Owner)
    requires Inv(t) && Quiet(s, t, w) && WrittenBy(s, w, o)
    ensures Kept(s, t)
  {
  }

  lemma StoringCarries(s: State, t: State, w: Option<ChunkKey>, a: Owner, id: nat)
    requires Quiet(s, t, w) && WrittenBy(s, w, a) && a != Call(id)
    requires id in s.handlers && s.handlers[id].Storing? && id in t.handlers && t.handlers[id] == s.handlers[id]
    requires HandlerOk(s, s.handlers[id])
    ensures HandlerOk(t, t.handlers[id])
  {
    var h := s.handlers[id];
    hide Books, Locks, Carries;
    forall it | it in h.items
      ensures ItemOk(t, it)
    {
      assert ItemOk(s, it);
      ItemKeyAt(h.items, h.extra, it);
      assert it.key in Claim(s, Writes, Call(id)) && it.key in Claim(t, Writes, Call(id));
      if w == Some(it.key) {
        WriterLocks(s, a, it.key);
      }
      ClaimedIsFrozen(s, t, w, Writes, Call(id), Call(id), it.key);
      CarriesSupply(s, t, w, it.key, it.blob);
    }
  }

  lemma CarriesSupply(s: State, t: State, w: Option<ChunkKey>, k: ChunkKey, b: Blob)
    requires Carries(s, t, w) && Supplied(s, k, b)
    ensures Supplied(t, k, b)
  {
  }

  /** Handlers other than the acting one are unaffected. */
  lemma HandlersCarry(s: State, t: State, w: Option<ChunkKey>, a: Owner)
    requires Quiet(s, t, w) && WrittenBy(s, w, a) && HandlersOk(s)
    requires forall id :: id in t.handlers && Call(id) != a ==> id in s.handlers && t.handlers[id] == s.handlers[id]
    ensures forall id :: id in t.handlers && Call(id) != a ==> HandlerOk(t, t.handlers[id])
  {
    hide Quiet;
    forall id | id in t.handlers && Call(id) != a
      ensures HandlerOk(t, t.handlers[id])
    {
      var h := s.handlers[id];
      assert HandlerOk(s, h);
      if h.Storing? {
        StoringCarries(s, t, w, a, id);
      }
    }
  }

  lemma LoadCarries(s: State, t: State, w: Option<ChunkKey>, a: Owner, m: Lookup, n: nat, objs: seq<Slice>, loaded: nat)
    requires Quiet(s, t, w) && WrittenBy(s, w, a) && a != Worker
    requires LoadOk(s, m, n, objs, loaded)
    requires Claim(s, Writes, Worker) == Claim(t, Writes, Worker) == Part(m.keys, n, n + |objs|)
    ensures LoadOk(t, m, n, objs, loaded)
  {
    var ks := Part(m.keys, n, n + |objs|);
    hide Books, Locks, Carries;
    forall i | 0 <= i < |objs|
      ensures ObjAt(t, ks[i], objs[i]) && BytesAt(t, objs[i]) == BytesAt(s, objs[i])
    {
      assert ObjAt(s, ks[i], objs[i]);
      if w == Some(ks[i]) {
        WriterLocks(s, a, ks[i]);
      }
      ClaimedIsFrozen(s, t, w, Writes, Worker, Worker, ks[i]);
    }
    forall i | 0 <= i < loaded
      ensures Supplied(t, ks[i], BytesAt(t, objs[i])) && InSomeL2(t, ks[i])
    {
      assert Supplied(s, ks[i], BytesAt(s, objs[i])) && InSomeL2(s, ks[i]);
      assert BytesAt(t, objs[i]) == BytesAt(s, objs[i]);
      CarriesSupply(s, t, w, ks[i], BytesAt(t, objs[i]));
      SomeL2Carries(s, t, w, ks[i]);
    }
  }

  lemma LookupCarries(s: State, t: State, m: Lookup)
    requires LookupOk(s, m) && t.geo == s.geo && m.rid !in t.ses.held
    requires forall rid :: rid in s.asked ==> rid in t.asked && t.asked[rid] == s.asked[rid]
    ensures LookupOk(t, m)
  {
    assert forall k :: SizeOf(t, k) == SizeOf(s, k);
  }

  /** The session tables at most lose held keys. */
  ghost predicate SessionsShrink(s: State, t: State) {
    && t.asked == s.asked && t.ses.jobs == s.ses.jobs
    && t.ses.held.Keys <= s.ses.held.Keys
  }

  lemma SessionsSame(s: State, t: State)
    requires SessionsOk(s) && t.ses.held == s.ses.held && t.ses.hits == s.ses.hits && t.asked == s.asked
    ensures SessionsOk(t)
  {
    assert forall rid :: SessionOk(s, rid) ==> SessionOk(t, rid);
  }

  lemma JobCarries(s: State, t: State, w: Option<ChunkKey>, a: Owner)
    requires Quiet(s, t, w) && WrittenBy(s, w, a) && a != Worker
    requires JobOk(s) && t.job == s.job && SessionsShrink(s, t)
    ensures JobOk(t)
  {
    match s.job
    case Idle =>
    case Returning(keys) =>
    case Fresh(m) => LookupCarries(s, t, m);
    case Looking(m, n, _) => LookupCarries(s, t, m);
    case Reserving(m, n, _, objs, _) => LookupCarries(s, t, m); LoadCarries(s, t, w, a, m, n, objs, 0);
    case Loading(m, n, _, objs, _, _, loaded) => LookupCarries(s, t, m); LoadCarries(s, t, w, a, m, n, objs, loaded);
    case Publishing(m, n, objs, loaded) => LookupCarries(s, t, m); LoadCarries(s, t, w, a, m, n, objs, loaded);
    case Trimming(m, n, objs, loaded) => LookupCarries(s, t, m);
    case Resolving(m, n, loaded) => LookupCarries(s, t, m);
  }

  lemma QueueCarries(s: State, t: State)
    requires QueueOk(s) && t.geo == s.geo && SessionsShrink(s, t) && Active(t.job) == Active(s.job)
    ensures QueueOk(t)
  {
    forall i | 0 <= i < |t.ses.jobs|
      ensures LookupOk(t, t.ses.jobs[i])
    {
      assert LookupOk(s, s.ses.jobs[i]);
      LookupCarries(s, t, t.ses.jobs[i]);
    }
  }

  lemma MirrorCarries(s: State, t: State, w: Option<ChunkKey>, a: Owner)
    requires Quiet(s, t, w) && WrittenBy(s, w, a) && a != Mirror
    requires MirrorOk(s) && t.mirror == s.mirror && forall i :: 0 <= i < |t.pending| ==> NoDup(t.pending[i])
    ensures MirrorOk(t)
  {
    match s.mirror
    case Waiting =>
    case Picked(batch) =>
    case Mirroring(locked, slices, done) =>
      hide Books, Locks, Carries;
      forall i | 0 <= i < |locked|
        ensures ObjAt(t, locked[i], slices[i])
      {
        var k := locked[i];
        assert ObjAt(s, k, slices[i]);
        assert k in Claim(s, Reads, Mirror) && k in Claim(t, Reads, Mirror);
        if w == Some(k) {
          WriterLocks(s, a, k);
        }
        ClaimedIsFrozen(s, t, w, Reads, Mirror, Mirror, k);
      }
      QuietMeans(s, t, w);
  }

  /** Content survives when every newly readable key brings a supplied blob. */
  lemma ContentCarries(s: State, t: State, w: Option<ChunkKey>, a: Owner, newly: set<ChunkKey>)
    requires Quiet(s, t, w) && WrittenBy(s, w, a) && ContentOk(s)
    requires forall k :: CanRead(t.l1.entries, k) && k !in newly ==> CanRead(s.l1.entries, k)
    requires forall k :: k in newly && CanRead(t.l1.entries, k) ==> Supplied(t, k, BytesAt(t, t.l1.entries[k].obj))
    ensures ContentOk(t)
  {
    forall k | CanRead(t.l1.entries, k)
      ensures Supplied(t, k, BytesAt(t, t.l1.entries[k].obj))
    {
      if k !in newly {
        assert Supplied(s, k, BytesAt(s, s.l1.entries[k].obj));
        if w == Some(k) {
          WriterLocks(s, a, k);
        }
      }
    }
  }

  /** Coverage survives when duties and origins of old keys do, and new keys are covered. */
  lemma CoverCarries(s: State, t: State, w: Option<ChunkKey>, newly: set<ChunkKey>)
    requires Carries(s, t, w) && CoverOk(s)
    requires forall i: nat, k :: i < |s.l2| && Due(s, i, k) ==> Due(t, i, k) || k in t.l2[i]
    requires forall k :: k in s.fromStore && k !in newly <==> k in t.fromStore && k !in newly
    requires forall k :: CanRead(t.l1.entries, k) && k !in newly ==> CanRead(s.l1.entries, k)
    requires forall k :: k in newly && CanRead(t.l1.entries, k) ==> KeyCovered(t, k)
    ensures CoverOk(t)
  {
    forall k | CanRead(t.l1.entries, k)
      ensures KeyCovered(t, k)
    {
      if k !in newly {
        assert KeyCovered(s, k);
        assert k in t.fromStore <==> k in s.fromStore;
        if k !in s.fromStore {
          SomeL2Carries(s, t, w, k);
        } else {
          forall i: nat | i < |t.l2|
            ensures k in t.l2[i] || Due(t, i, k)
          {
            assert k in s.l2[i] || Due(s, i, k);
          }
        }
      }
    }
  }

  /** A step of one handler that leaves the workers and the session tables alone. */
  lemma Bystanders(s: State, t: State, w: Option<ChunkKey>, id: nat)
    requires Inv(s) && Quiet(s, t, w) && WrittenBy(s, w, Call(id))
    requires t.job == s.job && t.mirror == s.mirror && t.ses == s.ses && t.asked == s.asked
    requires forall i :: 0 <= i < |t.pending| ==> NoDup(t.pending[i])
    requires forall j :: j in t.handlers && j != id ==> j in s.handlers && t.handlers[j] == s.handlers[j]
    ensures JobOk(t) && QueueOk(t) && SessionsOk(t) && MirrorOk(t)
    ensures forall j :: j in t.handlers && j != id ==> HandlerOk(t, t.handlers[j])
  {
    hide Quiet, Books, CoreOk, TempsOk, ContentOk, RecordsOk, CoverOk;
    JobCarries(s, t, w, Call(id));
    QuietMeans(s, t, w);
    QueueCarries(s, t);
    MirrorCarries(s, t, w, Call(id));
    HandlersCarry(s, t, w, Call(id));
    SessionsSame(s, t);
  }

  /** What a quiet step is known to leave alone. */
  lemma QuietMeans(s: State, t: State, w: Option<ChunkKey>)
    requires Quiet(s, t, w)
    ensures Carries(s, t, w) && t.geo == s.geo && s.stored <= t.stored && |t.l2| == |s.l2|
  {
  }

  ghost predicate TempsOf(t: State, o: Owner) {
    forall k :: k in Claim(t, Writes, o) && k in t.l1.entries && t.l1.entries[k].isTemporary ==> o == Worker
  }

  lemma WorkerTemps(t: State)
    ensures TempsOf(t, Worker)
  {
  }

  /** No entry under construction becomes temporary. */
  ghost predicate NoNewTemps(s: State, t: State) {
    forall k :: k in s.l1.entries && s.l1.entries[k].writeLocked && k in t.l1.entries && t.l1.entries[k].isTemporary
      ==> s.l1.entries[k].isTemporary
  }

  lemma TempsCarry(s: State, t: State, a: Owner, b: Owner)
    requires TempsOk(s) && Books(s) && Locks(s.l1.entries) && OthersKeepClaims(s, t, a, b)
    requires NoNewTemps(s, t) && TempsOf(t, a) && TempsOf(t, b)
    ensures TempsOk(t)
  {
    forall o, k | k in Claim(t, Writes, o) && k in t.l1.entries && t.l1.entries[k].isTemporary
      ensures o == Worker
    {
      if o != a && o != b {
        assert k in Claim(s, Writes, o);
        WriterLocks(s, o, k);
      }
    }
  }

  lemma RecordsCarry(s: State, t: State)
    requires RecordsOk(s) && t.l2 == s.l2 && t.geo == s.geo && s.stored <= t.stored
    ensures RecordsOk(t)
  {
    forall i: nat, k
      ensures RecordOk(t, i, k)
    {
      assert RecordOk(s, i, k);
    }
  }

  lemma DueSame(s: State, t: State)
    requires t.pending == s.pending && t.mirror == s.mirror
    ensures forall i: nat, k :: Due(s, i, k) ==> Due(t, i, k)
  {
  }

  /** Writing into the slice of one locked entry leaves all other entries' bytes alone. */
  lemma WriteCarries(s: State, t: State, k: ChunkKey, data: Blob)
    requires CoreOk(s) && k in s.l1.entries && |data| == s.l1.entries[k].obj.size
    requires s.l1.entries[k].obj.off + s.l1.entries[k].obj.size <= |s.mem|
    requires t.mem == WriteSlice(s.mem, s.l1.entries[k].obj, data) && t.l1 == s.l1
    requires t.geo == s.geo && t.l2 == s.l2 && t.stored == s.stored
    ensures Carries(s, t, Some(k)) && CoreOk(t) && BytesAt(t, s.l1.entries[k].obj) == data
  {
    var obj := s.l1.entries[k].obj;
    OwnedApart(s.l1.entries, s.l1.pool, k, k);
    WriteThenRead(s.mem, obj, data, obj);
    forall j | j in s.l1.entries && j != k
      ensures BytesAt(t, s.l1.entries[j].obj) == BytesAt(s, s.l1.entries[j].obj)
    {
      OwnedApart(s.l1.entries, s.l1.pool, j, k);
      WriteThenRead(s.mem, obj, data, s.l1.entries[j].obj);
    }
    assert forall j :: SizeOf(t, j) == SizeOf(s, j);
  }

  /** Claims that do not change as lists, over unchanged entries, keep the books. */
  lemma BooksSame(s: State, t: State)
    requires Books(s) && t.l1.entries == s.l1.entries
    requires forall role, o :: Claim(t, role, o) == Claim(s, role, o)
    ensures Books(t)
  {
    BooksCarry(s, t, Worker, Worker);
  }
}
