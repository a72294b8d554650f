// The cache server as a step machine. Every step is one critical section or
// one byte copy of one actor; actors interleave arbitrarily between steps.
module Cache {
  import opened Types
  import opened Memory
  import opened LockProtocol
  import opened Sessions
  import opened SecondTier

  // ---- actors ------------------------------------------------------------------

  /** One chunk a STORE is writing: the slice it reserved and the bytes it was sent. */
  datatype Item = Item(key: ChunkKey, obj: Slice, blob: Blob, done: bool)

  /** A request handler thread between two of its steps. */
  datatype Handler =
    | Storing(items: seq<Item>, extra: seq<ChunkKey>)  // extra: reserved, but the message had no blob for it
    | Dead(keys: seq<ChunkKey>)                        // a STORE that stopped with these keys still write-locked
    | Reading(rid: string, keys: seq<ChunkKey>, objs: seq<Slice>, out: seq<Blob>)
    | Releasing(rid: string, keys: seq<ChunkKey>)      // about to enter release(rid, keys)
    | Dropping(rid: string, keys: seq<ChunkKey>, ending: bool)  // between release's section and finish_read
    | Closing(rid: string)                             // END_SESSION before its second section
    | Lost(keys: seq<ChunkKey>)                        // END_SESSION that discarded holds without dropping them

  /** The prefetch worker. load_keys is always keys[l1..l1 + |objs|]. */
  datatype Job =
    | Idle
    | Fresh(msg: Lookup)
    | Looking(msg: Lookup, l1: nat, answers: map<nat, nat>)
    | Reserving(msg: Lookup, l1: nat, hits: seq<nat>, objs: seq<Slice>, full: bool)
    | Loading(msg: Lookup, l1: nat, hits: seq<nat>, objs: seq<Slice>, todo: seq<nat>, from: Option<nat>, loaded: nat)
    | Publishing(msg: Lookup, l1: nat, objs: seq<Slice>, loaded: nat)
    | Trimming(msg: Lookup, l1: nat, objs: seq<Slice>, loaded: nat)
    | Resolving(msg: Lookup, l1: nat, loaded: nat)
    | Returning(keys: seq<ChunkKey>)

  /** The write-back worker; done[i] chunks are already in adapter i. */
  datatype WriteBack =
    | Waiting
    | Picked(batch: seq<ChunkKey>)
    | Mirroring(locked: seq<ChunkKey>, slices: seq<Slice>, done: seq<nat>)

  /**
   * geo: chunk size per model. The last three fields are history: every blob
   * a STORE supplied (or an L2 held at start-up), the readable keys last
   * published by a STORE, and the key list of every session.
   */
  datatype State = State(
    geo: map<string, nat>,
    l1: L1,
    mem: seq<Byte>,
    l2: seq<Chunks>,
    ses: Sessions,
    job: Job,
    pending: seq<seq<ChunkKey>>,
    mirror: WriteBack,
    victims: Option<seq<ChunkKey>>,
    handlers: map<nat, Handler>,
    stored: set<(ChunkKey, Blob)>,
    fromStore: set<ChunkKey>,
    asked: map<string, seq<ChunkKey>>)

  function SizeOf(s: State, k: ChunkKey): nat {
    if k.model in s.geo then s.geo[k.model] else 0
  }

  ghost predicate OneGeometry(s: State, keys: seq<ChunkKey>, n: nat) {
    n > 0 && forall k :: k in keys ==> SizeOf(s, k) == n
  }

  function BytesAt(s: State, obj: Slice): Blob {
    if obj.off + obj.size <= |s.mem| then ReadSlice(s.mem, obj) else []
  }

  ghost predicate Supplied(s: State, k: ChunkKey, b: Blob) {
    (k, b) in s.stored
  }

  /** Every L2 record holds a blob supplied under its key. */
  ghost predicate RecordOk(s: State, i: nat, k: ChunkKey) {
    i < |s.l2| && k in s.l2[i] ==> Supplied(s, k, s.l2[i][k]) && |s.l2[i][k]| == SizeOf(s, k)
  }

  ghost predicate RecordsOk(s: State) {
    forall i: nat, k :: RecordOk(s, i, k)
  }

  ghost predicate InAdapter(s: State, k: ChunkKey, b: Blob) {
    exists i :: 0 <= i < |s.l2| && k in s.l2[i] && s.l2[i][k] == b
  }

  ghost predicate Init(s: State) {
    && s.l1 == L1(map[], Pool(|s.mem|, 0, map[], 0), [])
    && (forall m :: m in s.geo ==> s.geo[m] > 0)
    && s.ses == Sessions(map[], map[], [])
    && s.job == Idle && s.pending == [] && s.mirror == Waiting && s.victims == None
    && s.handlers == map[] && s.fromStore == {} && s.asked == map[]
    // An adapter may start with records of an earlier run.
    && RecordsOk(s) && forall k, b :: (k, b) in s.stored ==> InAdapter(s, k, b)
  }

  // ---- steps ------------------------------------------------------------------------

  datatype StoreStep =
    | StoreReserve(id: nat, keys: seq<ChunkKey>, chunks: seq<Blob>, n: nat)
    | StoreCopy(id: nat, j: nat, data: Blob)
    | StoreRaise(id: nat, j: nat)
    | StoreFinish(id: nat)

  datatype LookupStep =
    | StartLookup(rid: string, keys: seq<ChunkKey>, sized: bool)
    | JobTake
    | JobPrefix
    | JobAsk(i: nat)
    | JobAnswered
    | JobReserve
    | JobReserved(todo: seq<nat>)
    | JobPick
    | JobLoad(data: Blob)
    | JobNext
    | JobLoaded
    | JobPublish
    | JobTrim
    | JobResolve
    | JobReturn

  datatype KeeperStep =
    | MirrorTake
    | MirrorReserve
    | MirrorCopy(i: nat)
    | MirrorFinish
    | EvictPick(keys: seq<ChunkKey>)
    | EvictDelete

  datatype CallStep =
    | Retrieve(id: nat, rid: string, keys: seq<ChunkKey>)
    | RetrieveCopy(id: nat)
    | RetrievePromote(id: nat)
    | FreeFirst(id: nat, rid: string, count: nat)
    | EndFirst(id: nat, rid: string)
    | ReleaseTake(id: nat)
    | ReleaseFinish(id: nat)
    | EndSecond(id: nat)

  datatype Step =
    | ByStore(store: StoreStep)
    | ByLookup(lookup: LookupStep)
    | ByKeeper(keeper: KeeperStep)
    | ByCall(call: CallStep)

  // ---- STORE ---------------------------------------------------------------------------

  /** The keys a reserve_write result took, in order, among the first `limit` (or after them). */
  function TakenKeys(got: map<ChunkKey, Option<Slice>>, keys: seq<ChunkKey>): (r: seq<ChunkKey>)
    ensures forall k :: k in r <==> k in keys && k in got && got[k].Some?
  {
    if keys == [] then []
    else
      var init, k := keys[..|keys| - 1], keys[|keys| - 1];
      TakenKeys(got, init) + if k in got && got[k].Some? then [k] else []
  }

  /** The chunks to copy: taken keys that the message has a blob for. */
  function ItemsOf(got: map<ChunkKey, Option<Slice>>, keys: seq<ChunkKey>, chunks: seq<Blob>): seq<Item>
    requires |keys| <= |chunks|
  {
    if keys == [] then []
    else
      var n := |keys| - 1;
      ItemsOf(got, keys[..n], chunks) +
        if keys[n] in got && got[keys[n]].Some? then [Item(keys[n], got[keys[n]].value, chunks[n], false)] else []
  }

  function ItemKeys(items: seq<Item>): (r: seq<ChunkKey>)
    ensures |r| == |items| && forall i :: 0 <= i < |items| ==> r[i] == items[i].key
  {
    seq(|items|, i requires 0 <= i < |items| => items[i].key)
  }

  function Sent(keys: seq<ChunkKey>, chunks: seq<Blob>): nat {
    if |chunks| < |keys| then |chunks| else |keys|
  }

  ghost predicate CanStoreReserve(s: State, id: nat, keys: seq<ChunkKey>, chunks: seq<Blob>, n: nat) {
    id !in s.handlers && NoDup(keys) && OneGeometry(s, keys, n)
  }

  ghost function DoStoreReserve(s: State, id: nat, keys: seq<ChunkKey>, chunks: seq<Blob>, n: nat): State {
    var (l1, got) := ReserveWrite(s.l1, keys, n, false);
    var sent := Sent(keys, chunks);
    s.(l1 := l1,
       handlers := s.handlers[id := Storing(ItemsOf(got, keys[..sent], chunks), TakenKeys(got, keys[sent..]))],
       stored := s.stored + set i | 0 <= i < sent :: (keys[i], chunks[i]))
  }

  ghost predicate IsStoring(s: State, id: nat) {
    id in s.handlers && s.handlers[id].Storing?
  }

  /** Blobs are copied in order; a copy may be seen half done (any data of the right length). */
  ghost predicate CanStoreCopy(s: State, id: nat, j: nat, data: Blob) {
    && IsStoring(s, id)
    && var items := s.handlers[id].items;
       && j < |items| && !items[j].done && (forall i :: 0 <= i < j ==> items[i].done)
       && |items[j].blob| == items[j].obj.size == |data|
       && items[j].obj.off + items[j].obj.size <= |s.mem|
  }

  ghost function DoStoreCopy(s: State, id: nat, j: nat, data: Blob): State
    requires CanStoreCopy(s, id, j, data)
  {
    var h := s.handlers[id];
    var it := h.items[j];
    s.(mem := WriteSlice(s.mem, it.obj, data),
       handlers := s.handlers[id := h.(items := h.items[j := it.(done := data == it.blob)])])
  }

  /** A blob of the wrong length raises before anything is copied for it. */
  ghost predicate CanStoreRaise(s: State, id: nat, j: nat) {
    && IsStoring(s, id)
    && var items := s.handlers[id].items;
       && j < |items| && (forall i :: 0 <= i < j ==> items[i].done)
       && |items[j].blob| != items[j].obj.size
  }

  ghost function DoStoreRaise(s: State, id: nat): State
    requires IsStoring(s, id)
  {
    var h := s.handlers[id];
    s.(handlers := s.handlers[id := Dead(ItemKeys(h.items) + h.extra)])
  }

  ghost predicate CanStoreFinish(s: State, id: nat) {
    IsStoring(s, id) && forall it :: it in s.handlers[id].items ==> it.done
  }

  ghost function DoStoreFinish(s: State, id: nat): State
    requires IsStoring(s, id)
  {
    var h := s.handlers[id];
    var written := ItemKeys(h.items);
    s.(l1 := FinishWrite(s.l1, written),
       pending := if s.l2 == [] then s.pending else s.pending + [written],
       handlers := if h.extra == [] then s.handlers - {id} else s.handlers[id := Dead(h.extra)],
       fromStore := s.fromStore + Elems(written))
  }

  // ---- LOOKUP and prefetch -----------------------------------------------------------------

  /** A request id starts one session; a deployment of unknown chunk size is asked for no keys. */
  ghost predicate CanStartLookup(s: State, rid: string, keys: seq<ChunkKey>, sized: bool) {
    rid !in s.asked && NoDup(keys) && if sized then exists n :: OneGeometry(s, keys, n) else keys == []
  }

  ghost function DoStartLookup(s: State, rid: string, keys: seq<ChunkKey>, sized: bool): State {
    s.(ses := StartSessionOf(s.ses, Lookup(rid, keys, sized)), asked := s.asked[rid := keys])
  }

  ghost predicate CanJobTake(s: State) {
    s.job == Idle && s.ses.jobs != []
  }

  ghost function DoJobTake(s: State): State
    requires CanJobTake(s)
  {
    s.(job := Fresh(s.ses.jobs[0]), ses := s.ses.(jobs := s.ses.jobs[1..]))
  }

  ghost function DoJobPrefix(s: State): State
    requires s.job.Fresh?
  {
    var msg := s.job.msg;
    var (l1, n) := ReserveReadPrefix(s.l1, msg.keys);
    s.(l1 := l1, job := if msg.sized then Looking(msg, n, map[]) else Resolving(msg, n, 0))
  }

  function MissingKeys(job: Job): seq<ChunkKey>
    requires !job.Idle? && !job.Fresh? && !job.Returning?
  {
    if job.l1 <= |job.msg.keys| then job.msg.keys[job.l1..] else []
  }

  ghost predicate CanJobAsk(s: State, i: nat) {
    s.job.Looking? && MissingKeys(s.job) != [] && i < |s.l2| && i !in s.job.answers
  }

  ghost function DoJobAsk(s: State, i: nat): State
    requires CanJobAsk(s, i)
  {
    s.(job := s.job.(answers := s.job.answers[i := LookupHits(s.l2[i], MissingKeys(s.job))]))
  }

  ghost predicate CanJobAnswered(s: State) {
    s.job.Looking? && (MissingKeys(s.job) == [] || forall i :: 0 <= i < |s.l2| ==> i in s.job.answers)
  }

  ghost function DoJobAnswered(s: State): State
    requires CanJobAnswered(s)
  {
    var hits := if MissingKeys(s.job) == [] then [] else seq(|s.l2|, i requires 0 <= i < |s.l2| => s.job.answers[i]);
    s.(job := Reserving(s.job.msg, s.job.l1, hits, [], false))
  }

  /** max(l2_hits, default=0) */
  function Best(hits: seq<nat>): (r: nat)
    ensures forall i :: 0 <= i < |hits| ==> hits[i] <= r
    ensures r == 0 || r in hits
  {
    if hits == [] then 0
    else
      var b := Best(hits[..|hits| - 1]);
      var h := hits[|hits| - 1];
      if b < h then h else b
  }

  function Wanted(job: Job): nat
    requires job.Reserving?
  {
    var missing, best := MissingKeys(job), Best(job.hits);
    if best < |missing| then best else |missing|
  }

  ghost predicate CanJobReserve(s: State) {
    s.job.Reserving? && !s.job.full && |s.job.objs| < Wanted(s.job)
  }

  /** Adapter order of the load: most hits first, ties by position. */
  ghost predicate BestFirst(todo: seq<nat>, hits: seq<nat>) {
    && NoDup(todo)
    && (forall i: nat :: i in todo <==> i < |hits|)
    && (forall a :: 0 <= a < |todo| ==> todo[a] < |hits|)
    && (forall a, b :: 0 <= a < b < |todo| ==>
          hits[todo[a]] > hits[todo[b]] || (hits[todo[a]] == hits[todo[b]] && todo[a] < todo[b]))
  }

  ghost function DoJobReserve(s: State): State
    requires CanJobReserve(s)
  {
    var job := s.job;
    var key := MissingKeys(job)[|job.objs|];
    var (l1, got) := ReserveWrite(s.l1, [key], SizeOf(s, key), true);
    // A refusal ends the loop: load only what could be allocated.
    s.(l1 := l1,
       job := if key in got && got[key].Some? then
                Reserving(job.msg, job.l1, job.hits, job.objs + [got[key].value], false)
              else Reserving(job.msg, job.l1, job.hits, job.objs, true))
  }

  ghost predicate CanJobReserved(s: State, todo: seq<nat>) {
    && s.job.Reserving? && (s.job.full || |s.job.objs| >= Wanted(s.job))
    && BestFirst(todo, s.job.hits)
  }

  ghost function DoJobReserved(s: State, todo: seq<nat>): State
    requires CanJobReserved(s, todo)
  {
    s.(job := Loading(s.job.msg, s.job.l1, s.job.hits, s.job.objs, todo, None, 0))
  }

  /** The loop over adapters stops when all is loaded or the next one knows no more chunks. */
  ghost predicate LoadOver(job: Job)
    requires job.Loading?
  {
    || job.todo == []
    || job.loaded >= |job.objs|
    || job.todo[0] >= |job.hits|
    || job.hits[job.todo[0]] <= job.loaded
  }

  ghost predicate CanJobPick(s: State) {
    s.job.Loading? && s.job.from == None && !LoadOver(s.job)
  }

  ghost function DoJobPick(s: State): State
    requires CanJobPick(s)
  {
    s.(job := s.job.(from := Some(s.job.todo[0]), todo := s.job.todo[1..]))
  }

  ghost predicate LoadingFrom(s: State) {
    s.job.Loading? && s.job.from.Some? && s.job.from.value < |s.l2|
  }

  /** The record the adapter copies next, if it still has one. */
  ghost function NextRecord(s: State): Option<Blob>
    requires LoadingFrom(s)
  {
    var missing, chunks := MissingKeys(s.job), s.l2[s.job.from.value];
    var n := s.job.loaded;
    if n < |s.job.objs| && n < |missing| && missing[n] in chunks then Some(chunks[missing[n]]) else None
  }

  /** A copy may be seen half done (any data of the right length). */
  ghost predicate CanJobLoad(s: State, data: Blob) {
    && LoadingFrom(s) && NextRecord(s).Some?
    && var obj := s.job.objs[s.job.loaded];
       |data| == obj.size == |NextRecord(s).value| && obj.off + obj.size <= |s.mem|
  }

  ghost function DoJobLoad(s: State, data: Blob): State
    requires CanJobLoad(s, data)
  {
    s.(mem := WriteSlice(s.mem, s.job.objs[s.job.loaded], data),
       job := if data == NextRecord(s).value then
                Loading(s.job.msg, s.job.l1, s.job.hits, s.job.objs, s.job.todo, s.job.from, s.job.loaded + 1)
              else s.job)
  }

  ghost predicate CanJobNext(s: State) {
    LoadingFrom(s) && NextRecord(s).None?
  }

  ghost function DoJobNext(s: State): State
    requires CanJobNext(s)
  {
    s.(job := s.job.(from := None))
  }

  ghost predicate CanJobLoaded(s: State) {
    s.job.Loading? && s.job.from == None && LoadOver(s.job)
  }

  ghost function DoJobLoaded(s: State): State
    requires CanJobLoaded(s)
  {
    s.(job := Publishing(s.job.msg, s.job.l1, s.job.objs, s.job.loaded))
  }

  function Part(keys: seq<ChunkKey>, a: nat, b: nat): seq<ChunkKey> {
    if a <= b <= |keys| then keys[a..b] else []
  }

  ghost function DoJobPublish(s: State): State
    requires s.job.Publishing?
  {
    var job := s.job;
    var loaded := Part(job.msg.keys, job.l1, job.l1 + job.loaded);
    s.(l1 := FinishWriteAndHold(s.l1, loaded),
       job := Trimming(job.msg, job.l1, job.objs, job.loaded),
       fromStore := s.fromStore - Elems(loaded))
  }

  ghost function Untouched(job: Job): seq<ChunkKey>
    requires job.Trimming?
  {
    Part(job.msg.keys, job.l1 + job.loaded, job.l1 + |job.objs|)
  }

  ghost predicate CanJobTrim(s: State) {
    s.job.Trimming? && Sized(s.l1)
  }

  ghost function DoJobTrim(s: State): State
    requires CanJobTrim(s)
  {
    s.(l1 := Delete(s.l1, Untouched(s.job), true), job := Resolving(s.job.msg, s.job.l1, s.job.loaded))
  }

  ghost predicate CanJobResolve(s: State) {
    s.job.Resolving? && s.job.l1 + s.job.loaded <= |s.job.msg.keys|
  }

  /** A session that has ended meanwhile leaves the worker with the holds. */
  ghost function DoJobResolve(s: State): State
    requires CanJobResolve(s)
  {
    var msg := s.job.msg;
    var hitKeys := msg.keys[..s.job.l1 + s.job.loaded];
    s.(ses := ResolveOf(s.ses, msg.rid, hitKeys, s.job.l1),
       job := if msg.rid in s.ses.hits then Idle else Returning(hitKeys))
  }

  ghost predicate CanJobReturn(s: State) {
    s.job.Returning? && Sized(s.l1) && Finds(s.l1, s.job.keys)
  }

  ghost function DoJobReturn(s: State): State
    requires CanJobReturn(s)
  {
    s.(l1 := FinishRead(s.l1, s.job.keys), job := Idle)
  }

  // ---- write-back and eviction ---------------------------------------------------------------

  ghost predicate CanMirrorTake(s: State) {
    s.mirror == Waiting && s.pending != []
  }

  ghost function DoMirrorTake(s: State): State
    requires CanMirrorTake(s)
  {
    s.(mirror := Picked(s.pending[0]), pending := s.pending[1..])
  }

  /** Objects of the reserved keys, in batch order. */
  function SlicesFor(got: map<ChunkKey, Option<Slice>>, keys: seq<ChunkKey>): (r: seq<Slice>)
    ensures |r| == |keys|
  {
    seq(|keys|, i requires 0 <= i < |keys| =>
      if keys[i] in got && got[keys[i]].Some? then got[keys[i]].value else Slice(0, 0))
  }

  ghost function DoMirrorReserve(s: State): State
    requires s.mirror.Picked?
  {
    var batch := s.mirror.batch;
    var (l1, got) := ReserveRead(s.l1, batch);
    var locked := TakenKeys(got, batch);
    s.(l1 := l1,
       mirror := if locked == [] then Waiting
                 else Mirroring(locked, SlicesFor(got, locked), seq(|s.l2|, _ => 0)))
  }

  ghost predicate CanMirrorCopy(s: State, i: nat) {
    && s.mirror.Mirroring? && i < |s.l2| && i < |s.mirror.done|
    && s.mirror.done[i] < |s.mirror.locked| && |s.mirror.locked| == |s.mirror.slices|
  }

  ghost function DoMirrorCopy(s: State, i: nat): State
    requires CanMirrorCopy(s, i)
  {
    var j := s.mirror.done[i];
    s.(l2 := s.l2[i := s.l2[i][s.mirror.locked[j] := BytesAt(s, s.mirror.slices[j])]],
       mirror := s.mirror.(done := s.mirror.done[i := j + 1]))
  }

  ghost predicate CanMirrorFinish(s: State) {
    && s.mirror.Mirroring? && (forall i :: 0 <= i < |s.mirror.done| ==> s.mirror.done[i] >= |s.mirror.locked|)
    && Sized(s.l1) && Finds(s.l1, s.mirror.locked)
  }

  ghost function DoMirrorFinish(s: State): State
    requires CanMirrorFinish(s)
  {
    s.(l1 := FinishRead(s.l1, s.mirror.locked), mirror := Waiting)
  }

  /** The policy looks at entries without the manager's lock, so any victims may be stale. */
  ghost function DoEvictPick(s: State, keys: seq<ChunkKey>): State {
    s.(victims := Some(keys))
  }

  ghost predicate CanEvictDelete(s: State) {
    s.victims.Some? && Sized(s.l1)
  }

  ghost function DoEvictDelete(s: State): State
    requires CanEvictDelete(s)
  {
    s.(l1 := Delete(s.l1, s.victims.value, false), victims := None)
  }

  // ---- RETRIEVE, FREE_LOOKUP_LOCKS, END_SESSION -----------------------------------------------

  /** A retrieve looks its keys up; whether its session holds them is not checked. A missing key raises at once. */
  ghost predicate CanRetrieve(s: State, id: nat, rid: string, keys: seq<ChunkKey>) {
    id !in s.handlers && NoDup(keys) && forall k :: k in keys ==> k in s.l1.entries
  }

  ghost function DoRetrieve(s: State, id: nat, rid: string, keys: seq<ChunkKey>): State
    requires CanRetrieve(s, id, rid, keys)
  {
    s.(handlers := s.handlers[id := Reading(rid, keys, ObjsOf(s.l1.entries, keys), [])])
  }

  ghost predicate CanRetrieveCopy(s: State, id: nat) {
    id in s.handlers && s.handlers[id].Reading? && |s.handlers[id].out| < |s.handlers[id].objs|
  }

  /** The chunk is sent straight out of the pool, whoever owns its slice by now. */
  ghost function DoRetrieveCopy(s: State, id: nat): State
    requires CanRetrieveCopy(s, id)
  {
    var h := s.handlers[id];
    s.(handlers := s.handlers[id := h.(out := h.out + [BytesAt(s, h.objs[|h.out|])])])
  }

  ghost predicate CanRetrievePromote(s: State, id: nat) {
    id in s.handlers && s.handlers[id].Reading? && |s.handlers[id].out| >= |s.handlers[id].objs|
  }

  ghost function DoRetrievePromote(s: State, id: nat): State
    requires CanRetrievePromote(s, id)
  {
    var h := s.handlers[id];
    s.(l1 := Promote(s.l1, h.keys), handlers := s.handlers[id := Releasing(h.rid, h.keys)])
  }

  ghost function DoFreeFirst(s: State, id: nat, rid: string, count: nat): State {
    s.(handlers := s.handlers[id := Releasing(rid, FirstHeldOf(s.ses, rid, count))])
  }

  ghost function Take(s: State, id: nat, rid: string, keys: seq<ChunkKey>, ending: bool): State {
    var (ses, released) := TakeReleasedOf(s.ses, rid, keys);
    s.(ses := ses, handlers := s.handlers[id := Dropping(rid, released, ending)])
  }

  ghost predicate CanReleaseTake(s: State, id: nat) {
    id in s.handlers && s.handlers[id].Releasing?
  }

  ghost predicate CanReleaseFinish(s: State, id: nat) {
    && id in s.handlers && s.handlers[id].Dropping?
    && Sized(s.l1) && Finds(s.l1, s.handlers[id].keys)
  }

  ghost function DoReleaseFinish(s: State, id: nat): State
    requires CanReleaseFinish(s, id)
  {
    var h := s.handlers[id];
    s.(l1 := FinishRead(s.l1, h.keys),
       handlers := if h.ending then s.handlers[id := Closing(h.rid)] else s.handlers - {id})
  }

  ghost predicate CanEndSecond(s: State, id: nat) {
    id in s.handlers && s.handlers[id].Closing?
  }

  /** hits.pop and held.pop: whatever is still held is forgotten without finish_read. */
  ghost function DoEndSecond(s: State, id: nat): State
    requires CanEndSecond(s, id)
  {
    var rid := s.handlers[id].rid;
    var left := HeldKeys(s.ses, rid);
    s.(ses := Close(s.ses, rid),
       handlers := if left == [] then s.handlers - {id} else s.handlers[id := Lost(left)])
  }

  // ---- the machine ------------------------------------------------------------------------------

  ghost predicate StoreEnabled(s: State, step: StoreStep) {
    match step
    case StoreReserve(id, keys, chunks, n) => CanStoreReserve(s, id, keys, chunks, n)
    case StoreCopy(id, j, data) => CanStoreCopy(s, id, j, data)
    case StoreRaise(id, j) => CanStoreRaise(s, id, j)
    case StoreFinish(id) => CanStoreFinish(s, id)
  }

  ghost function StoreApply(s: State, step: StoreStep): State
    requires StoreEnabled(s, step)
  {
    match step
    case StoreReserve(id, keys, chunks, n) => DoStoreReserve(s, id, keys, chunks, n)
    case StoreCopy(id, j, data) => DoStoreCopy(s, id, j, data)
    case StoreRaise(id, j) => DoStoreRaise(s, id)
    case StoreFinish(id) => DoStoreFinish(s, id)
  }

  ghost predicate LookupEnabled(s: State, step: LookupStep) {
    match step
    case StartLookup(rid, keys, sized) => CanStartLookup(s, rid, keys, sized)
    case JobTake => CanJobTake(s)
    case JobPrefix => s.job.Fresh?
    case JobAsk(i) => CanJobAsk(s, i)
    case JobAnswered => CanJobAnswered(s)
    case JobReserve => CanJobReserve(s)
    case JobReserved(todo) => CanJobReserved(s, todo)
    case JobPick => CanJobPick(s)
    case JobLoad(data) => CanJobLoad(s, data)
    case JobNext => CanJobNext(s)
    case JobLoaded => CanJobLoaded(s)
    case JobPublish => s.job.Publishing?
    case JobTrim => CanJobTrim(s)
    case JobResolve => CanJobResolve(s)
    case JobReturn => CanJobReturn(s)
  }

  ghost function LookupApply(s: State, step: LookupStep): State
    requires LookupEnabled(s, step)
  {
    match step
    case StartLookup(rid, keys, sized) => DoStartLookup(s, rid, keys, sized)
    case JobTake => DoJobTake(s)
    case JobPrefix => DoJobPrefix(s)
    case JobAsk(i) => DoJobAsk(s, i)
    case JobAnswered => DoJobAnswered(s)
    case JobReserve => DoJobReserve(s)
    case JobReserved(todo) => DoJobReserved(s, todo)
    case JobPick => DoJobPick(s)
    case JobLoad(data) => DoJobLoad(s, data)
    case JobNext => DoJobNext(s)
    case JobLoaded => DoJobLoaded(s)
    case JobPublish => DoJobPublish(s)
    case JobTrim => DoJobTrim(s)
    case JobResolve => DoJobResolve(s)
    case JobReturn => DoJobReturn(s)
  }

  ghost predicate KeeperEnabled(s: State, step: KeeperStep) {
    match step
    case MirrorTake => CanMirrorTake(s)
    case MirrorReserve => s.mirror.Picked?
    case MirrorCopy(i) => CanMirrorCopy(s, i)
    case MirrorFinish => CanMirrorFinish(s)
    case EvictPick(keys) => s.victims == None
    case EvictDelete => CanEvictDelete(s)
  }

  ghost function KeeperApply(s: State, step: KeeperStep): State
    requires KeeperEnabled(s, step)
  {
    match step
    case MirrorTake => DoMirrorTake(s)
    case MirrorReserve => DoMirrorReserve(s)
    case MirrorCopy(i) => DoMirrorCopy(s, i)
    case MirrorFinish => DoMirrorFinish(s)
    case EvictPick(keys) => DoEvictPick(s, keys)
    case EvictDelete => DoEvictDelete(s)
  }

  ghost predicate CallEnabled(s: State, step: CallStep) {
    match step
    case Retrieve(id, rid, keys) => CanRetrieve(s, id, rid, keys)
    case RetrieveCopy(id) => CanRetrieveCopy(s, id)
    case RetrievePromote(id) => CanRetrievePromote(s, id)
    case FreeFirst(id, rid, count) => id !in s.handlers
    case EndFirst(id, rid) => id !in s.handlers
    case ReleaseTake(id) => CanReleaseTake(s, id)
    case ReleaseFinish(id) => CanReleaseFinish(s, id)
    case EndSecond(id) => CanEndSecond(s, id)
  }

  ghost function CallApply(s: State, step: CallStep): State
    requires CallEnabled(s, step)
  {
    match step
    case Retrieve(id, rid, keys) => DoRetrieve(s, id, rid, keys)
    case RetrieveCopy(id) => DoRetrieveCopy(s, id)
    case RetrievePromote(id) => DoRetrievePromote(s, id)
    case FreeFirst(id, rid, count) => DoFreeFirst(s, id, rid, count)
    case EndFirst(id, rid) => Take(s, id, rid, HeldKeys(s.ses, rid), true)
    case ReleaseTake(id) => Take(s, id, s.handlers[id].rid, s.handlers[id].keys, false)
    case ReleaseFinish(id) => DoReleaseFinish(s, id)
    case EndSecond(id) => DoEndSecond(s, id)
  }

  ghost predicate Enabled(s: State, step: Step) {
    match step
    case ByStore(a) => StoreEnabled(s, a)
    case ByLookup(a) => LookupEnabled(s, a)
    case ByKeeper(a) => KeeperEnabled(s, a)
    case ByCall(a) => CallEnabled(s, a)
  }

  ghost function Apply(s: State, step: Step): State
    requires Enabled(s, step)
  {
    match step
    case ByStore(a) => StoreApply(s, a)
    case ByLookup(a) => LookupApply(s, a)
    case ByKeeper(a) => KeeperApply(s, a)
    case ByCall(a) => CallApply(s, a)
  }

  /** Step n leads from state n to state n + 1. */
  ghost predicate Linked(states: seq<State>, steps: seq<Step>, n: nat)
    requires n < |steps| == |states| - 1
  {
    Enabled(states[n], steps[n]) && states[n + 1] == Apply(states[n], steps[n])
  }

  /** A run from a start state: consecutive states are related by an enabled step. */
  ghost predicate Run(states: seq<State>, steps: seq<Step>) {
    && |states| == |steps| + 1
    && Init(states[0])
    && forall n: nat :: n < |steps| ==> Linked(states, steps, n)
  }

  /** step leads from s to t. */
  ghost predicate Leads(s: State, step: Step, t: State) {
    Enabled(s, step) && t == Apply(s, step)
  }

  /** A run grows by one step. */
  lemma Extend(states: seq<State>, steps: seq<Step>, step: Step, t: State)
    returns (states': seq<State>, steps': seq<Step>)
    requires |states| == |steps| + 1 && Run(states, steps) && Leads(states[|steps|], step, t)
    ensures |states'| == |steps'| + 1 && Run(states', steps') && states'[|steps'|] == t
    ensures states' == states + [t] && steps' == steps + [step]
  {
    hide Init, Enabled, Apply;
    states', steps' := states + [t], steps + [step];
    forall i: nat | i < |steps'|
      ensures Linked(states', steps', i)
    {
      if i < |steps| {
        assert Linked(states, steps, i);
      } else {
        assert Leads(states[i], step, t);
      }
    }
  }
}
