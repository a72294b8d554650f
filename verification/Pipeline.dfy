// The two-stream, three-slot transfer pipeline: host program, copy and kernel
// queues, and events, interleaved arbitrarily. Stream A fills the staging
// slots and stream B empties them: copy then kernel stream when loading,
// kernel then copy stream when saving.
module Pipeline {
  import opened Types
  import opened Transfer

  /** Records of an event requested by the host and completed by a stream. */
  datatype Event = Event(issued: nat, done: nat)

  /** A wait is bound, when enqueued, to the latest record requested by then. */
  datatype Op =
    | WaitFree(buf: nat, ticket: nat)
    | Produce(buf: nat, ids: seq<nat>)
    | RecordReady(buf: nat, ticket: nat)
    | WaitReady(buf: nat, ticket: nat)
    | Consume(buf: nat, ids: seq<nat>, skip: nat)
    | RecordFree(buf: nat, ticket: nat)

  /** One call: reading m chunks of blocks out of kv, or scattering the given m chunks into it. */
  datatype Job = Job(saving: bool, m: nat, chunks: seq<Blob>, ids: seq<nat>, skip: nat, g: Layout, kv: Kv) {
    ghost predicate Valid() {
      |kv| == g.layers && (!saving ==> m == |chunks|)
    }
  }

  /** The host is in front of action `phase` for chunk i; layer counts the layers the kernel has scattered so far. */
  datatype State = State(
    i: nat, phase: nat,
    cpu: seq<Blob>, staging: seq<Blob>,
    ready: seq<Event>, free: seq<Event>,
    a: seq<Op>, b: seq<Op>,
    layer: nat, kv: Kv, out: seq<Blob>)

  ghost predicate Shape(s: State) {
    |s.cpu| == |s.staging| == |s.ready| == |s.free| == 3
  }

  /** Events may have been used by earlier calls, all of whose work is complete. */
  ghost predicate Init(job: Job, s: State) {
    && job.Valid() && Shape(s) && s.i == 0 && s.phase == 0 && s.a == [] && s.b == [] && s.layer == 0
    && s.kv == job.kv && s.out == []
    && forall k :: 0 <= k < 3 ==> s.ready[k].issued == s.ready[k].done && s.free[k].issued == s.free[k].done
  }

  /** The slot chunk n goes through. */
  function Slot(n: nat): (k: nat)
    ensures k < 3
  {
    n % 3
  }

  /** The bytes of chunk n. */
  function BytesOf(job: Job, n: nat): Blob {
    if job.saving then Gather(job.kv, ChunkIds(job.ids, job.g.perChunk, n))
    else if n < |job.chunks| then job.chunks[n] else []
  }

  // ---- steps -------------------------------------------------------------------------

  /** An actor; `partial` is what an unfinished copy of its current action has left in the target so far. */
  datatype Step = Host(partial: Option<Blob>) | StreamA(partial: Option<Blob>) | StreamB(partial: Option<Blob>)

  function Requested(e: Event): Event {
    e.(issued := e.issued + 1)
  }

  ghost predicate Complete(e: Event) {
    e.done >= e.issued
  }

  ghost predicate HostCan(job: Job, s: State, partial: Option<Blob>) {
    && Shape(s) && s.i < job.m && s.phase < 9
    && (s.phase == 0 && !job.saving && s.i >= 3 ==> Complete(s.free[Slot(s.i)]))
    && (s.phase == 8 && job.saving ==> Complete(s.free[Slot(s.i)]))
    && (partial.Some? ==> s.phase == 1 && !job.saving)
  }

  ghost function HostDoes(job: Job, s: State, partial: Option<Blob>): State
    requires HostCan(job, s, partial)
  {
    var k := Slot(s.i);
    var ids := ChunkIds(job.ids, job.g.perChunk, s.i);
    if partial.Some? then s.(cpu := s.cpu[k := partial.value])
    else
      match s.phase
      case 0 => s.(phase := 1)
      case 1 => if job.saving then s.(phase := 2) else s.(phase := 2, cpu := s.cpu[k := BytesOf(job, s.i)])
      case 2 => s.(phase := 3, a := s.a + [WaitFree(k, s.free[k].issued)])
      case 3 => s.(phase := 4, a := s.a + [Produce(k, ids)])
      case 4 => s.(phase := 5, ready := s.ready[k := Requested(s.ready[k])],
                        a := s.a + [RecordReady(k, s.ready[k].issued + 1)])
      case 5 => s.(phase := 6, b := s.b + [WaitReady(k, s.ready[k].issued)])
      case 6 => s.(phase := 7, b := s.b + [Consume(k, ids, SkipOf(job.skip, s.i))])
      case 7 => s.(phase := 8, free := s.free[k := Requested(s.free[k])],
                        b := s.b + [RecordFree(k, s.free[k].issued + 1)])
      case _ =>
        if job.saving then s.(i := s.i + 1, phase := 0, out := s.out + [s.cpu[k]])
        else s.(i := s.i + 1, phase := 0)
  }

  ghost predicate ACan(job: Job, s: State, partial: Option<Blob>) {
    && Shape(s) && s.a != [] && s.a[0].buf < 3
    && (s.a[0].WaitFree? ==> s.free[s.a[0].buf].done >= s.a[0].ticket)
    && (partial.Some? ==> s.a[0].Produce?)
  }

  ghost function ADoes(job: Job, s: State, partial: Option<Blob>): State
    requires ACan(job, s, partial)
  {
    var op := s.a[0];
    if partial.Some? then s.(staging := s.staging[op.buf := partial.value])
    else
      match op
      case Produce(k, ids) => s.(a := s.a[1..],
          staging := s.staging[k := if job.saving then Gather(s.kv, ids) else s.cpu[k]])
      case RecordReady(k, t) => s.(a := s.a[1..], ready := s.ready[k := s.ready[k].(done := t)])
      case _ => s.(a := s.a[1..])
  }

  ghost predicate BCan(job: Job, s: State, partial: Option<Blob>) {
    && Shape(s) && s.b != [] && s.b[0].buf < 3
    && (s.b[0].WaitReady? ==> s.ready[s.b[0].buf].done >= s.b[0].ticket)
    && (partial.Some? ==> s.b[0].Consume? && job.saving)
  }

  ghost function BDoes(job: Job, s: State, partial: Option<Blob>): State
    requires BCan(job, s, partial)
  {
    var op := s.b[0];
    if partial.Some? then s.(cpu := s.cpu[op.buf := partial.value])
    else
      match op
      case Consume(k, ids, skip) =>
        if job.saving then s.(b := s.b[1..], cpu := s.cpu[k := s.staging[k]])
        else if s.layer < job.g.layers then
          s.(layer := s.layer + 1, kv := LayerScattered(s.kv, s.staging[k], ids, skip, job.g, s.layer))
        else s.(b := s.b[1..], layer := 0)
      case RecordFree(k, t) => s.(b := s.b[1..], free := s.free[k := s.free[k].(done := t)])
      case _ => s.(b := s.b[1..])
  }

  /** index_copy_ into one layer. */
  function LayerScattered(kv: Kv, chunk: Blob, ids: seq<nat>, skip: nat, g: Layout, l: nat): Kv {
    if l < |kv| then kv[l := ScatterLayer(kv[l], Piece(chunk, l, g.LayerBytes()), ids, skip, g.blockBytes)] else kv
  }

  ghost predicate Can(job: Job, s: State, step: Step) {
    match step
    case Host(partial) => HostCan(job, s, partial)
    case StreamA(partial) => ACan(job, s, partial)
    case StreamB(partial) => BCan(job, s, partial)
  }

  ghost function Does(job: Job, s: State, step: Step): State
    requires Can(job, s, step)
  {
    match step
    case Host(partial) => HostDoes(job, s, partial)
    case StreamA(partial) => ADoes(job, s, partial)
    case StreamB(partial) => BDoes(job, s, partial)
  }

  /** The call returns: all chunks are issued and stream B has been waited for. */
  ghost predicate Finished(job: Job, s: State) {
    s.i >= job.m && s.b == []
  }

  ghost predicate Run(job: Job, ss: seq<State>, steps: seq<Step>) {
    && |ss| == |steps| + 1 && Init(job, ss[0])
    && forall i :: 0 <= i < |steps| ==> Can(job, ss[i], steps[i]) && ss[i + 1] == Does(job, ss[i], steps[i])
  }

  // ---- counting ------------------------------------------------------------------------

  // Each stream gets three operations per chunk: a wait, the body and a record.
  // Of its first n operations so many are waits, bodies and records.

  function Waits(n: int): int {
    (n + 2) / 3
  }

  function Bodies(n: int): int {
    (n + 1) / 3
  }

  function Records(n: int): int {
    n / 3
  }

  function Kind(n: int): int {
    n % 3
  }

  lemma OneMore(n: nat)
    ensures match Kind(n)
            case 0 =>
              && Waits(n) == Bodies(n) == Records(n) && Waits(n + 1) == Waits(n) + 1
              && Bodies(n + 1) == Bodies(n) && Records(n + 1) == Records(n)
            case 1 =>
              && Waits(n) == Records(n) + 1 && Bodies(n) == Records(n)
              && Waits(n + 1) == Waits(n) && Bodies(n + 1) == Bodies(n) + 1 && Records(n + 1) == Records(n)
            case _ =>
              && Waits(n) == Bodies(n) == Records(n) + 1 && Waits(n + 1) == Waits(n)
              && Bodies(n + 1) == Bodies(n) && Records(n + 1) == Records(n) + 1
    ensures 0 <= Kind(n) < 3 && Kind(n + 1) == (if Kind(n) == 2 then 0 else Kind(n) + 1) && Records(n) >= 0
  {
  }

  /** How many of the first n chunks use slot k. */
  function Uses(n: nat, k: nat): nat
    requires k < 3
  {
    (n + 2 - k) / 3
  }

  /** The round of chunk n in its slot. */
  function Round(n: nat): nat {
    n / 3
  }

  lemma UsesNext(n: nat, k: nat)
    requires k < 3
    ensures Uses(n + 1, k) == Uses(n, k) + if Slot(n) == k then 1 else 0
  {
  }

  lemma UsesOwn(n: nat)
    ensures Uses(n, Slot(n)) == Round(n)
  {
  }

  /**
   * An event of chunk c's slot is complete up to chunk c - 3, or up to c
   * itself, exactly when n chunks are far enough.
   */
  lemma UsesReach(n: nat, c: nat)
    ensures Uses(n, Slot(c)) >= Round(c) <==> n + 3 > c
    ensures Uses(n, Slot(c)) >= Round(c) + 1 <==> n > c
  {
  }

  lemma SlotsApart(j: nat, c: nat)
    requires c < j + 3 && j < c
    ensures Slot(j) != Slot(c)
  {
  }

  /** Operations put on stream A and stream B so far. */
  function OnA(i: nat, phase: nat): nat {
    3 * i + if phase <= 2 then 0 else if phase <= 5 then phase - 2 else 3
  }

  function OnB(i: nat, phase: nat): nat {
    3 * i + if phase <= 5 then 0 else if phase <= 8 then phase - 5 else 3
  }

  lemma Issued(i: nat, phase: nat)
    requires phase < 9
    ensures Records(OnA(i, phase)) == i + (if phase >= 5 then 1 else 0)
    ensures Records(OnB(i, phase)) == i + (if phase >= 8 then 1 else 0)
    ensures phase == 2 || phase == 3 || phase == 4 ==> Kind(OnA(i, phase)) == phase - 2
    ensures phase == 5 || phase == 6 || phase == 7 ==> Kind(OnB(i, phase)) == phase - 5
  {
  }

  /** The n-th operation of stream A; base holds the free and the ready events' counts before the call. */
  function AOp(job: Job, base: seq<nat>, n: nat): Op
    requires |base| == 6
  {
    var c: nat := Records(n);
    if Kind(n) == 0 then WaitFree(Slot(c), base[Slot(c)] + Round(c))
    else if Kind(n) == 1 then Produce(Slot(c), ChunkIds(job.ids, job.g.perChunk, c))
    else RecordReady(Slot(c), base[3 + Slot(c)] + Round(c) + 1)
  }

  function BOp(job: Job, base: seq<nat>, n: nat): Op
    requires |base| == 6
  {
    var c: nat := Records(n);
    if Kind(n) == 0 then WaitReady(Slot(c), base[3 + Slot(c)] + Round(c) + 1)
    else if Kind(n) == 1 then Consume(Slot(c), ChunkIds(job.ids, job.g.perChunk, c), SkipOf(job.skip, c))
    else RecordFree(Slot(c), base[Slot(c)] + Round(c) + 1)
  }

  // ---- the invariant ----------------------------------------------------------------------

  /** c and k count the operations stream A and stream B have completed. */
  ghost predicate Queued(job: Job, base: seq<nat>, s: State, c: nat, k: nat) {
    && |base| == 6 && c + |s.a| == OnA(s.i, s.phase) && k + |s.b| == OnB(s.i, s.phase)
    && (forall x: nat :: x < |s.a| ==> s.a[x] == AOp(job, base, c + x))
    && (forall x: nat :: x < |s.b| ==> s.b[x] == BOp(job, base, k + x))
  }

  ghost predicate EventAt(e: Event, base: nat, issued: nat, done: nat, slot: nat)
    requires slot < 3
  {
    e.issued == base + Uses(issued, slot) && e.done == base + Uses(done, slot)
  }

  ghost predicate Counted(base: seq<nat>, s: State, c: nat, k: nat) {
    && |base| == 6 && Shape(s) && Records(c) >= 0 && Records(k) >= 0
    && (forall slot: nat :: slot < 3 ==>
          EventAt(s.ready[slot], base[3 + slot], s.i + (if s.phase >= 5 then 1 else 0), Records(c), slot))
    && (forall slot: nat :: slot < 3 ==>
          EventAt(s.free[slot], base[slot], s.i + (if s.phase >= 8 then 1 else 0), Records(k), slot))
  }

  /** How far each actor may be ahead of the others. */
  ghost predicate Ahead(job: Job, s: State, c: nat, k: nat) {
    && s.i <= job.m && s.phase < 9 && (s.i == job.m ==> s.phase == 0)
    && Waits(c) <= Records(k) + 3 && Waits(k) <= Records(c)
    && (if job.saving then s.i <= Records(k) else s.i + (if s.phase >= 1 then 1 else 0) <= Records(k) + 3)
  }

  /** Slots of a buffer hold the chunks from lo on that are still needed. */
  ghost predicate Holds(job: Job, slots: seq<Blob>, lo: int, hi: int) {
    |slots| == 3 && forall j: nat :: lo <= j < hi ==> slots[Slot(j)] == BytesOf(job, j)
  }

  ghost predicate Memory(job: Job, s: State, c: nat, k: nat) {
    && Holds(job, s.staging, Waits(c) - 3, Bodies(c))
    && (if job.saving then Holds(job, s.cpu, Waits(k) - 3, Bodies(k))
        else Holds(job, s.cpu, s.i + (if s.phase >= 1 then 1 else 0) - 3, s.i + (if s.phase >= 2 then 1 else 0)))
  }

  /** The tensors after n whole chunks and `layer` layers of the next. */
  ghost function Scattered(job: Job, n: nat, layer: nat): Kv
    requires n <= |job.chunks|
  {
    if layer == 0 then ScatterAll(job.kv, job.chunks, job.ids, job.skip, job.g, n)
    else ScatterUpTo(ScatterAll(job.kv, job.chunks, job.ids, job.skip, job.g, n), BytesOf(job, n),
                     ChunkIds(job.ids, job.g.perChunk, n), SkipOf(job.skip, n), job.g, layer)
  }

  /** What the call has produced so far is what the sequential loop would have. */
  ghost predicate Result(job: Job, s: State, k: nat) {
    && job.Valid()
    && if job.saving then s.kv == job.kv && s.layer == 0 && s.out == GatherAll(job.kv, job.ids, job.g, s.i)
       else
         && s.out == [] && (Kind(k) != 1 ==> s.layer == 0) && 0 <= Bodies(k) <= job.m && s.layer <= job.g.layers
         && s.kv == Scattered(job, Bodies(k), s.layer)
  }

  ghost predicate Inv(job: Job, base: seq<nat>, s: State, c: nat, k: nat) {
    && Shape(s) && job.Valid() && Ahead(job, s, c, k) && Queued(job, base, s, c, k) && Counted(base, s, c, k)
    && Memory(job, s, c, k) && Result(job, s, k)
  }

  ghost function BaseOf(s: State): seq<nat>
    requires Shape(s)
  {
    [s.free[0].done, s.free[1].done, s.free[2].done, s.ready[0].done, s.ready[1].done, s.ready[2].done]
  }

  lemma InitInv(job: Job, s: State)
    requires Init(job, s)
    ensures Inv(job, BaseOf(s), s, 0, 0)
  {
    assert forall slot: nat :: slot < 3 ==>
             && EventAt(s.ready[slot], BaseOf(s)[3 + slot], 0, 0, slot)
             && EventAt(s.free[slot], BaseOf(s)[slot], 0, 0, slot);
  }

  // ---- the host's steps -----------------------------------------------------------------------

  lemma FreeOf(base: seq<nat>, s: State, c: nat, k: nat, slot: nat)
    requires Counted(base, s, c, k) && slot < 3
    ensures EventAt(s.free[slot], base[slot], s.i + (if s.phase >= 8 then 1 else 0), Records(k), slot)
    ensures EventAt(s.ready[slot], base[3 + slot], s.i + (if s.phase >= 5 then 1 else 0), Records(c), slot)
  {
  }

  /** When the host is let through, the chunk three before, or the chunk itself, is entirely done. */
  lemma HostAhead(job: Job, base: seq<nat>, s: State, c: nat, k: nat, partial: Option<Blob>)
    requires Inv(job, base, s, c, k) && HostCan(job, s, partial)
    ensures Ahead(job, HostDoes(job, s, partial), c, k)
    ensures s.phase == 8 && job.saving ==> Records(k) > s.i
  {
    hide Queued, Memory, Result, Records, Waits, Uses, Slot, BytesOf, Gather;
    FreeOf(base, s, c, k, Slot(s.i));
    UsesOwn(s.i);
    UsesReach(Records(k), s.i);
    UsesNext(s.i, Slot(s.i));
  }

  lemma HostQueued(job: Job, base: seq<nat>, s: State, c: nat, k: nat, partial: Option<Blob>)
    requires Inv(job, base, s, c, k) && HostCan(job, s, partial)
    ensures Queued(job, base, HostDoes(job, s, partial), c, k)
  {
    hide Counted, Memory, Result, Ahead, Records, Waits, Uses, Slot, Kind, Round, BytesOf, ChunkIds, Gather;
    FreeOf(base, s, c, k, Slot(s.i));
    Issued(s.i, s.phase);
    UsesOwn(s.i);
    UsesNext(s.i, Slot(s.i));
  }

  lemma HostCounted(job: Job, base: seq<nat>, s: State, c: nat, k: nat, partial: Option<Blob>)
    requires Inv(job, base, s, c, k) && HostCan(job, s, partial)
    ensures Counted(base, HostDoes(job, s, partial), c, k)
  {
    hide Queued, Memory, Result, Ahead, Records, Waits, Uses, Slot, BytesOf, ChunkIds, Gather;
    var t := HostDoes(job, s, partial);
    forall slot: nat | slot < 3
      ensures EventAt(t.ready[slot], base[3 + slot], t.i + (if t.phase >= 5 then 1 else 0), Records(c), slot)
      ensures EventAt(t.free[slot], base[slot], t.i + (if t.phase >= 8 then 1 else 0), Records(k), slot)
    {
      FreeOf(base, s, c, k, slot);
      UsesNext(s.i, slot);
    }
  }

  lemma HostMemory(job: Job, base: seq<nat>, s: State, c: nat, k: nat, partial: Option<Blob>)
    requires Inv(job, base, s, c, k) && HostCan(job, s, partial)
    ensures Memory(job, HostDoes(job, s, partial), c, k)
  {
    hide Queued, Result, Ahead, Counted, Records, Waits, Bodies, Uses, Slot, BytesOf, ChunkIds, Gather;
    var t := HostDoes(job, s, partial);
    if s.phase == 1 && !job.saving {
      forall j: nat | s.i - 2 <= j < s.i
        ensures Slot(j) != Slot(s.i)
      {
        SlotsApart(j, s.i);
      }
    }
  }

  /** Once stream B has completed chunk i it is idle. */
  lemma LastDone(job: Job, base: seq<nat>, s: State, c: nat, k: nat)
    requires Queued(job, base, s, c, k) && s.phase == 8 && Records(k) > s.i
    ensures Waits(k) - 3 <= s.i < Bodies(k)
  {
  }

  lemma HostResult(job: Job, base: seq<nat>, s: State, c: nat, k: nat, partial: Option<Blob>)
    requires Inv(job, base, s, c, k) && HostCan(job, s, partial)
    ensures Result(job, HostDoes(job, s, partial), k)
  {
    hide Queued, Counted, Records, Waits, Bodies, Uses, Slot, Kind, ChunkIds, Gather, Scattered;
    HostAhead(job, base, s, c, k, partial);
    if s.phase == 8 && job.saving && partial.None? {
      LastDone(job, base, s, c, k);
      assert s.cpu[Slot(s.i)] == BytesOf(job, s.i);
    }
  }

  // ---- the streams' steps -------------------------------------------------------------------------

  lemma AHead(job: Job, base: seq<nat>, s: State, c: nat, k: nat)
    requires Queued(job, base, s, c, k) && s.a != []
    ensures s.a[0] == AOp(job, base, c)
    ensures forall x: nat :: x < |s.a| - 1 ==> s.a[1..][x] == AOp(job, base, c + 1 + x)
  {
    hide AOp;
    assert s.a[0] == AOp(job, base, c + 0);
    forall x: nat | x < |s.a| - 1
      ensures s.a[1..][x] == AOp(job, base, c + 1 + x)
    {
      assert s.a[x + 1] == AOp(job, base, c + (x + 1));
    }
  }

  lemma BHead(job: Job, base: seq<nat>, s: State, c: nat, k: nat)
    requires Queued(job, base, s, c, k) && s.b != []
    ensures s.b[0] == BOp(job, base, k)
    ensures forall x: nat :: x < |s.b| - 1 ==> s.b[1..][x] == BOp(job, base, k + 1 + x)
  {
    hide BOp;
    assert s.b[0] == BOp(job, base, k + 0);
    forall x: nat | x < |s.b| - 1
      ensures s.b[1..][x] == BOp(job, base, k + 1 + x)
    {
      assert s.b[x + 1] == BOp(job, base, k + (x + 1));
    }
  }

  /** The body of chunk n is queued only after the host has issued it. */
  lemma Below(job: Job, base: seq<nat>, s: State, c: nat, k: nat)
    requires Queued(job, base, s, c, k) && s.i <= job.m && s.phase < 9 && (s.i == job.m ==> s.phase == 0)
    ensures s.a != [] ==> Records(c) < job.m && Records(c) < s.i + (if s.phase >= 3 then 1 else 0)
    ensures s.b != [] ==> Records(k) < job.m && Records(k) < s.i + (if s.phase >= 6 then 1 else 0)
  {
  }

  lemma AControl(job: Job, base: seq<nat>, s: State, c: nat, k: nat)
    requires Inv(job, base, s, c, k) && ACan(job, s, None)
    ensures var t := ADoes(job, s, None);
            Ahead(job, t, c + 1, k) && Queued(job, base, t, c + 1, k) && Counted(base, t, c + 1, k)
  {
    hide Memory, Result, Records, Waits, Bodies, Uses, Slot, Kind, Round, BytesOf, ChunkIds, Gather, OnA, OnB;
    var t := ADoes(job, s, None);
    AHead(job, base, s, c, k);
    OneMore(c);
    var n: nat := Records(c);
    FreeOf(base, s, c, k, Slot(n));
    UsesReach(Records(k), n);
    forall slot: nat | slot < 3
      ensures EventAt(t.ready[slot], base[3 + slot], t.i + (if t.phase >= 5 then 1 else 0), Records(c + 1), slot)
      ensures EventAt(t.free[slot], base[slot], t.i + (if t.phase >= 8 then 1 else 0), Records(k), slot)
    {
      FreeOf(base, s, c, k, slot);
      UsesNext(n, slot);
      UsesOwn(n);
    }
  }

  /** What stream A puts into the staging slot is the chunk whose turn it is. */
  lemma ProducedIs(job: Job, base: seq<nat>, s: State, c: nat, k: nat)
    requires Inv(job, base, s, c, k) && ACan(job, s, None)
    ensures s.a[0].Produce? <==> Kind(c) == 1
    ensures Kind(c) == 1 ==>
              && Records(c) >= 0 && s.a[0].buf == Slot(Records(c))
              && ADoes(job, s, None).staging[Slot(Records(c))] == BytesOf(job, Records(c))
  {
    hide Counted, Uses, Scattered, ChunkIds, Gather, OnA, OnB, Round;
    AHead(job, base, s, c, k);
    OneMore(c);
    OneMore(k);
    if Kind(c) == 1 && !job.saving {
      Below(job, base, s, c, k);
      FilledInTime(job, s, c, k);
    }
  }

  lemma FilledInTime(job: Job, s: State, c: nat, k: nat)
    requires Ahead(job, s, c, k) && Memory(job, s, c, k) && !job.saving && Kind(c) == 1
    requires Records(c) < s.i + (if s.phase >= 3 then 1 else 0)
    ensures s.cpu[Slot(Records(c))] == BytesOf(job, Records(c))
  {
    hide BytesOf, Slot;
  }

  /** A staging slot is overwritten only when its old chunk is no longer needed, and gets its new chunk whole. */
  lemma AMemory(job: Job, base: seq<nat>, s: State, c: nat, k: nat)
    requires Inv(job, base, s, c, k) && ACan(job, s, None)
    ensures var t := ADoes(job, s, None);
            Memory(job, t, c + 1, k) && Result(job, t, k)
  {
    hide Queued, Counted, Uses, Scattered, ChunkIds, LayerScattered, BytesOf, Gather, Records, Waits, Bodies,
         Slot, Kind, Round, OnA, OnB;
    ProducedIs(job, base, s, c, k);
    OneMore(c);
    var n: nat := Records(c);
    if Kind(c) == 1 {
      forall j: nat | n - 2 <= j < n
        ensures Slot(j) != Slot(n)
      {
        SlotsApart(j, n);
      }
    }
  }

  lemma BControl(job: Job, base: seq<nat>, s: State, c: nat, k: nat)
    requires Inv(job, base, s, c, k) && BCan(job, s, None) && |BDoes(job, s, None).b| < |s.b|
    ensures var t := BDoes(job, s, None);
            Ahead(job, t, c, k + 1) && Queued(job, base, t, c, k + 1) && Counted(base, t, c, k + 1)
  {
    hide Memory, Result, Records, Waits, Bodies, Uses, Slot, Kind, Round, BytesOf, ChunkIds, Gather, OnA, OnB,
         LayerScattered;
    var t := BDoes(job, s, None);
    BHead(job, base, s, c, k);
    OneMore(k);
    var n: nat := Records(k);
    FreeOf(base, s, c, k, Slot(n));
    UsesReach(Records(c), n);
    forall slot: nat | slot < 3
      ensures EventAt(t.ready[slot], base[3 + slot], t.i + (if t.phase >= 5 then 1 else 0), Records(c), slot)
      ensures EventAt(t.free[slot], base[slot], t.i + (if t.phase >= 8 then 1 else 0), Records(k + 1), slot)
    {
      FreeOf(base, s, c, k, slot);
      UsesNext(n, slot);
      UsesOwn(n);
    }
  }

  /** When stream B consumes a chunk, that very chunk is in the staging slot. */
  lemma StagedForB(job: Job, base: seq<nat>, s: State, c: nat, k: nat)
    requires Inv(job, base, s, c, k) && s.b != [] && Kind(k) == 1
    ensures s.b[0] == Consume(Slot(Records(k)), ChunkIds(job.ids, job.g.perChunk, Records(k)),
              SkipOf(job.skip, Records(k)))
    ensures Records(k) < job.m && s.staging[Slot(Records(k))] == BytesOf(job, Records(k))
  {
    BHead(job, base, s, c, k);
    OneMore(k);
    OneMore(c);
    Below(job, base, s, c, k);
    hide Queued, Counted, Result, Waits, Bodies, Uses, Slot, Round, ChunkIds, Gather, OnA, OnB;
    assert Waits(c) - 3 <= Records(k) < Bodies(c);
  }

  lemma {:induction false} ScatterAllSize(kv: Kv, chunks: seq<Blob>, ids: seq<nat>, skip: nat, g: Layout, n: nat)
    requires n <= |chunks|
    ensures |ScatterAll(kv, chunks, ids, skip, g, n)| == |kv|
  {
    if n > 0 {
      ScatterAllSize(kv, chunks, ids, skip, g, n - 1);
    }
  }

  /** One more layer, and with the last layer one more chunk. */
  lemma ScatteredNext(job: Job, n: nat, layer: nat)
    requires job.Valid() && !job.saving && n < job.m && layer <= job.g.layers
    ensures layer < job.g.layers ==>
              Scattered(job, n, layer + 1)
              == LayerScattered(Scattered(job, n, layer), BytesOf(job, n), ChunkIds(job.ids, job.g.perChunk, n),
                  SkipOf(job.skip, n), job.g, layer)
    ensures layer == job.g.layers ==> Scattered(job, n, layer) == Scattered(job, n + 1, 0)
  {
    hide ScatterLayer, Piece, ChunkIds;
    ScatterAllSize(job.kv, job.chunks, job.ids, job.skip, job.g, n);
  }

  lemma BMemory(job: Job, base: seq<nat>, s: State, c: nat, k: nat)
    requires Inv(job, base, s, c, k) && BCan(job, s, None)
    ensures var t := BDoes(job, s, None);
            Memory(job, t, c, if |t.b| < |s.b| then k + 1 else k)
  {
    hide Counted, Result, Scattered, BytesOf, Gather, ChunkIds, LayerScattered, Uses;
    BHead(job, base, s, c, k);
    OneMore(k);
    if Kind(k) == 1 {
      StagedForB(job, base, s, c, k);
    }
    hide Queued, Counted, Result, Records, Waits, Bodies, Uses, Slot, Kind, Round, ChunkIds, Gather, OnA, OnB,
         Scattered, BytesOf;
    var n: nat := Records(k);
    if Kind(k) == 1 {
      forall j: nat | n - 2 <= j < n
        ensures Slot(j) != Slot(n)
      {
        SlotsApart(j, n);
      }
    }
  }

  lemma BResult(job: Job, base: seq<nat>, s: State, c: nat, k: nat)
    requires Inv(job, base, s, c, k) && BCan(job, s, None)
    ensures var t := BDoes(job, s, None);
            Result(job, t, if |t.b| < |s.b| then k + 1 else k)
  {
    hide Counted, Uses, Scattered, BytesOf, Gather, ChunkIds, LayerScattered, Holds, AOp;
    BHead(job, base, s, c, k);
    OneMore(k);
    if Kind(k) == 1 {
      StagedForB(job, base, s, c, k);
      if !job.saving {
        ScatteredNext(job, Records(k), s.layer);
      }
    }
    hide Queued, Counted, Ahead, Memory, Records, Waits, Bodies, Uses, Slot, Kind, Round, ChunkIds, Gather, OnA,
         OnB, Scattered, BytesOf, LayerScattered;
  }

  /** Whatever an unfinished copy leaves in its slot, nothing still needed is in that slot. */
  lemma PartialKeeps(job: Job, base: seq<nat>, s: State, c: nat, k: nat, step: Step)
    requires Inv(job, base, s, c, k) && Can(job, s, step) && !step.Host? && step.partial.Some?
    ensures Inv(job, base, Does(job, s, step), c, k)
  {
    if step.StreamA? {
      AHead(job, base, s, c, k);
    } else {
      BHead(job, base, s, c, k);
    }
    OneMore(c);
    OneMore(k);
    hide Queued, Counted, Ahead, Result, Records, Waits, Bodies, Uses, Slot, Kind, Round, ChunkIds, Gather, OnA,
         OnB, Scattered, BytesOf;
    var n: nat := if step.StreamA? then Records(c) else Records(k);
    forall j: nat | n - 2 <= j < n
      ensures Slot(j) != Slot(n)
    {
      SlotsApart(j, n);
    }
    PartialRest(job, base, s, c, k, step);
  }

  lemma PartialRest(job: Job, base: seq<nat>, s: State, c: nat, k: nat, step: Step)
    requires Inv(job, base, s, c, k) && Can(job, s, step) && !step.Host? && step.partial.Some?
    ensures var t := Does(job, s, step);
            Shape(t) && Queued(job, base, t, c, k) && Counted(base, t, c, k) && Ahead(job, t, c, k) && Result(job, t, k)
  {
    hide AOp, BOp, EventAt, Scattered, Memory;
  }

  lemma StepKeeps(job: Job, base: seq<nat>, s: State, c: nat, k: nat, step: Step) returns (c': nat, k': nat)
    requires Inv(job, base, s, c, k) && Can(job, s, step)
    ensures Inv(job, base, Does(job, s, step), c', k')
  {
    hide Queued, Counted, Ahead, Memory, Result;
    c', k' := c, k;
    match step
    case Host(partial) =>
      HostAhead(job, base, s, c, k, partial);
      HostQueued(job, base, s, c, k, partial);
      HostCounted(job, base, s, c, k, partial);
      HostMemory(job, base, s, c, k, partial);
      HostResult(job, base, s, c, k, partial);
    case StreamA(partial) =>
      if partial.Some? {
        PartialKeeps(job, base, s, c, k, step);
      } else {
        AControl(job, base, s, c, k);
        AMemory(job, base, s, c, k);
        c' := c + 1;
      }
    case StreamB(partial) =>
      if partial.Some? {
        PartialKeeps(job, base, s, c, k, step);
      } else {
        BMemory(job, base, s, c, k);
        BResult(job, base, s, c, k);
        if |BDoes(job, s, None).b| < |s.b| {
          BControl(job, base, s, c, k);
          k' := k + 1;
        } else {
          LayerOnly(job, base, s, c, k);
        }
      }
  }

  lemma LayerOnly(job: Job, base: seq<nat>, s: State, c: nat, k: nat)
    requires Inv(job, base, s, c, k) && BCan(job, s, None) && |BDoes(job, s, None).b| >= |s.b|
    ensures var t := BDoes(job, s, None);
            Shape(t) && Ahead(job, t, c, k) && Queued(job, base, t, c, k) && Counted(base, t, c, k)
  {
    hide AOp, BOp, EventAt, Scattered, Memory, LayerScattered;
  }

  lemma {:induction false} RunKeeps(job: Job, ss: seq<State>, steps: seq<Step>, n: nat) returns (c: nat, k: nat)
    requires Run(job, ss, steps) && n < |ss|
    ensures Inv(job, BaseOf(ss[0]), ss[n], c, k)
  {
    hide Inv, Can, Does;
    if n == 0 {
      InitInv(job, ss[0]);
      c, k := 0, 0;
    } else {
      c, k := RunKeeps(job, ss, steps, n - 1);
      assert Can(job, ss[n - 1], steps[n - 1]) && ss[n - 1 + 1] == Does(job, ss[n - 1], steps[n - 1]);
      c, k := StepKeeps(job, BaseOf(ss[0]), ss[n - 1], c, k, steps[n - 1]);
    }
  }

  // ---- what the pipeline guarantees ------------------------------------------------------------------

  lemma FinishedResult(job: Job, base: seq<nat>, s: State, c: nat, k: nat)
    requires Inv(job, base, s, c, k) && Finished(job, s)
    ensures job.saving ==> s.out == GatherAll(job.kv, job.ids, job.g, job.m) && s.kv == job.kv
    ensures !job.saving ==> s.kv == ScatterAll(job.kv, job.chunks, job.ids, job.skip, job.g, job.m)
  {
    hide Counted, Memory;
    assert k == 3 * job.m;
  }

  /**
   * Refinement: whatever the interleaving of the host and the two streams and
   * whatever unfinished copies show, when the call returns the chunks read
   * out, or the tensors written, are those of the plain chunk-by-chunk loop.
   */
  lemma PipelineRefinesLoop(job: Job, ss: seq<State>, steps: seq<Step>, n: nat)
    requires Run(job, ss, steps) && n < |ss| && Finished(job, ss[n])
    ensures job.saving ==> ss[n].out == GatherAll(job.kv, job.ids, job.g, job.m) && ss[n].kv == job.kv
    ensures !job.saving ==> ss[n].kv == ScatterAll(job.kv, job.chunks, job.ids, job.skip, job.g, job.m)
  {
    hide Inv, Can, Does, Finished;
    var c, k := RunKeeps(job, ss, steps, n);
    FinishedResult(job, BaseOf(ss[0]), ss[n], c, k);
  }

  lemma StageStable(job: Job, base: seq<nat>, s: State, c: nat, k: nat, step: Step)
    requires Inv(job, base, s, c, k) && Can(job, s, step) && step.StreamA? && s.b != [] && s.b[0].Consume?
    ensures s.b[0].buf < 3 && Does(job, s, step).staging[s.b[0].buf] == s.staging[s.b[0].buf]
  {
    AHead(job, base, s, c, k);
    BHead(job, base, s, c, k);
    OneMore(c);
    OneMore(k);
    hide Queued, Counted, Memory, Result, Records, Waits, Bodies, Uses, Slot, Kind, Round, ChunkIds, Gather, OnA, OnB;
    var m, n: nat := Records(k), Records(c);
    if Kind(c) == 1 {
      SlotsApart(m, n);
    }
  }

  lemma HostBufferStable(job: Job, base: seq<nat>, s: State, c: nat, k: nat, step: Step)
    requires Inv(job, base, s, c, k) && Can(job, s, step) && step.Host? && !job.saving && s.a != [] && s.a[0].Produce?
    ensures s.a[0].buf < 3 && Does(job, s, step).cpu[s.a[0].buf] == s.cpu[s.a[0].buf]
  {
    AHead(job, base, s, c, k);
    OneMore(c);
    OneMore(k);
    Below(job, base, s, c, k);
    hide Queued, Counted, Memory, Result, Records, Waits, Bodies, Uses, Slot, Kind, Round, ChunkIds, Gather, OnA, OnB;
    if s.phase == 1 {
      SlotsApart(Records(c), s.i);
    }
  }

  lemma DoneIsQuiet(job: Job, base: seq<nat>, s: State, c: nat, k: nat)
    requires Inv(job, base, s, c, k) && HostCan(job, s, None) && job.saving && s.phase == 8
    ensures s.b == []
  {
    HostAhead(job, base, s, c, k, None);
    hide Counted, Memory, Result;
  }

  /**
   * No slot is overwritten while it is being read: not the staging slot
   * stream B is emptying, not the host buffer stream A is copying from, not
   * the host buffer a finished save is about to be extracted from.
   */
  lemma NoSlotOverwritten(job: Job, ss: seq<State>, steps: seq<Step>, n: nat)
    requires Run(job, ss, steps) && n < |steps|
    ensures var (s, t, step) := (ss[n], ss[n + 1], steps[n]);
            && Shape(s) && Shape(t)
            && (s.b != [] && s.b[0].Consume? && !step.StreamB? ==>
               s.b[0].buf < 3 && t.staging[s.b[0].buf] == s.staging[s.b[0].buf])
            && (!job.saving && s.a != [] && s.a[0].Produce? && !step.StreamA? ==>
               s.a[0].buf < 3 && t.cpu[s.a[0].buf] == s.cpu[s.a[0].buf])
            && (job.saving && s.phase == 8 && HostCan(job, s, None) && !step.Host? ==> t.cpu == s.cpu)
  {
    hide Inv;
    var s, step := ss[n], steps[n];
    var base := BaseOf(ss[0]);
    var c, k := RunKeeps(job, ss, steps, n);
    InvShape(job, base, s, c, k);
    assert Can(job, s, step) && ss[n + 1] == Does(job, s, step);
    if s.b != [] && s.b[0].Consume? {
      BufInRange(job, base, s, c, k);
      if step.StreamA? {
        StageStable(job, base, s, c, k, step);
      }
    }
    if !job.saving && s.a != [] && s.a[0].Produce? {
      BufInRange(job, base, s, c, k);
      if step.Host? {
        HostBufferStable(job, base, s, c, k, step);
      }
    }
    if job.saving && s.phase == 8 && HostCan(job, s, None) {
      DoneIsQuiet(job, base, s, c, k);
    }
  }

  lemma InvShape(job: Job, base: seq<nat>, s: State, c: nat, k: nat)
    requires Inv(job, base, s, c, k)
    ensures Shape(s)
  {
  }

  lemma BufInRange(job: Job, base: seq<nat>, s: State, c: nat, k: nat)
    requires Inv(job, base, s, c, k)
    ensures s.a != [] ==> s.a[0].buf < 3
    ensures s.b != [] ==> s.b[0].buf < 3
  {
    hide Counted, Memory, Result, Ahead;
    if s.a != [] {
      AHead(job, base, s, c, k);
    }
    if s.b != [] {
      BHead(job, base, s, c, k);
    }
  }

  // ---- progress ------------------------------------------------------------------------------------------

  /** Stream A is never stuck when stream B waits for it. */
  lemma AMoves(job: Job, base: seq<nat>, s: State, c: nat, k: nat)
    requires Inv(job, base, s, c, k) && s.a != [] && Records(c) <= Records(k)
    ensures ACan(job, s, None)
  {
    AHead(job, base, s, c, k);
    BufInRange(job, base, s, c, k);
    hide Queued, Ahead, Memory, Result, Records, Waits, Bodies, Uses, Slot, Kind, Round, ChunkIds, OnA, OnB;
    FreeOf(base, s, c, k, Slot(Records(c)));
    UsesReach(Records(k), Records(c));
  }

  lemma BMovesOrWaits(job: Job, base: seq<nat>, s: State, c: nat, k: nat)
    requires Inv(job, base, s, c, k) && s.b != [] && !BCan(job, s, None)
    ensures s.a != [] && Records(c) <= Records(k)
  {
    BHead(job, base, s, c, k);
    BufInRange(job, base, s, c, k);
    FreeOf(base, s, c, k, Slot(Records(k)));
    UsesReach(Records(c), Records(k));
    AIssuedFirst(job, base, s, c, k);
    hide Queued, Ahead, Memory, Result, Records, Waits, Bodies, Uses, Slot, Kind, Round, ChunkIds, OnA, OnB;
  }

  /** What stream B has queued, stream A got before. */
  lemma AIssuedFirst(job: Job, base: seq<nat>, s: State, c: nat, k: nat)
    requires Queued(job, base, s, c, k) && s.phase < 9 && s.b != [] && Records(c) <= Records(k)
    ensures s.a != []
  {
  }

  lemma HostMovesOrWaits(job: Job, base: seq<nat>, s: State, c: nat, k: nat)
    requires Inv(job, base, s, c, k) && s.i < job.m && !HostCan(job, s, None)
    ensures s.b != []
  {
    hide Memory, Result, Uses, Slot, Round, ChunkIds;
    FreeOf(base, s, c, k, Slot(s.i));
    UsesReach(Records(k), s.i);
    UsesOwn(s.i);
    UsesNext(s.i, Slot(s.i));
  }

  /** No deadlock: until the call returns, the host or one of the streams can do a whole action. */
  lemma NeverStuck(job: Job, ss: seq<State>, steps: seq<Step>, n: nat) returns (step: Step)
    requires Run(job, ss, steps) && n < |ss| && !Finished(job, ss[n])
    ensures Can(job, ss[n], step) && step.partial.None?
  {
    hide Inv, HostCan, ACan, BCan, Does;
    var s := ss[n];
    var base := BaseOf(ss[0]);
    var c, k := RunKeeps(job, ss, steps, n);
    if s.i < job.m && HostCan(job, s, None) {
      step := Host(None);
    } else {
      if s.i < job.m {
        HostMovesOrWaits(job, base, s, c, k);
      }
      if BCan(job, s, None) {
        step := StreamB(None);
      } else {
        BMovesOrWaits(job, base, s, c, k);
        AMoves(job, base, s, c, k);
        step := StreamA(None);
      }
    }
  }

  /** Host actions, queued operations and layers still to go, compared in this order. */
  ghost predicate LessLeft(job: Job, t: State, s: State) {
    var x, y := 9 * (job.m - t.i) - t.phase, 9 * (job.m - s.i) - s.phase;
    && x >= 0
    && (x < y || (x == y && (|t.a| + |t.b| < |s.a| + |s.b|
       || (|t.a| + |t.b| == |s.a| + |s.b| && s.layer < t.layer <= job.g.layers))))
  }

  lemma HostCountsDown(job: Job, base: seq<nat>, s: State, c: nat, k: nat)
    requires Inv(job, base, s, c, k) && HostCan(job, s, None)
    ensures LessLeft(job, HostDoes(job, s, None), s)
  {
    hide Queued, Counted, Memory, Result, BytesOf, ChunkIds, Slot;
  }

  lemma StreamsCountDown(job: Job, base: seq<nat>, s: State, c: nat, k: nat, step: Step)
    requires Inv(job, base, s, c, k) && Can(job, s, step) && !step.Host? && step.partial.None?
    ensures LessLeft(job, Does(job, s, step), s)
  {
    hide Queued, Counted, Memory, Result, BytesOf, ChunkIds, Slot, Gather, LayerScattered;
  }

  /** Termination: every whole action leaves less to do, so the call returns under every schedule. */
  lemma EveryActionCounts(job: Job, ss: seq<State>, steps: seq<Step>, n: nat)
    requires Run(job, ss, steps) && n < |steps| && steps[n].partial.None?
    ensures LessLeft(job, ss[n + 1], ss[n])
  {
    hide Inv, LessLeft, HostCan, ACan, BCan, HostDoes, ADoes, BDoes;
    var c, k := RunKeeps(job, ss, steps, n);
    assert Can(job, ss[n], steps[n]) && ss[n + 1] == Does(job, ss[n], steps[n]);
    if steps[n].Host? {
      HostCountsDown(job, BaseOf(ss[0]), ss[n], c, k);
    } else {
      StreamsCountDown(job, BaseOf(ss[0]), ss[n], c, k, steps[n]);
    }
  }

  // ---- out and back ----------------------------------------------------------------------------------------

  /**
   * Saving blocks a and later loading the chunks into distinct blocks b, both
   * pipelined under any interleaving: in every layer, from position skip on,
   * block b[x] ends up as block a[x] was, and nothing else changes.
   */
  lemma PipelinedRoundTrip(save: Job, ss: seq<State>, ssteps: seq<Step>, load: Job, ls: seq<State>, lsteps: seq<Step>,
                           blocks: nat, l: nat)
    requires Run(save, ss, ssteps) && Finished(save, ss[|ssteps|]) && save.saving
    requires Run(load, ls, lsteps) && Finished(load, ls[|lsteps|]) && !load.saving
    requires load.chunks == ss[|ssteps|].out && load.g == save.g && load.m == save.m && save.g.perChunk > 0
    requires Shaped(save.kv, save.g, blocks) && Shaped(load.kv, save.g, blocks) && l < save.g.layers
    requires |save.ids| == |load.ids| == save.m * save.g.perChunk && IdsOk(save.ids, blocks) && IdsOk(load.ids, blocks)
    requires NoDup(load.ids) && load.skip <= save.g.perChunk
    ensures var r := ls[|lsteps|].kv;
            && |r| == save.g.layers && |r[l]| == blocks
            && (forall x :: load.skip <= x < |load.ids| ==> r[l][load.ids[x]] == save.kv[l][save.ids[x]])
            && (forall x :: 0 <= x < load.skip && x < |load.ids| ==> r[l][load.ids[x]] == load.kv[l][load.ids[x]])
            && (forall y: nat :: y < blocks && y !in load.ids ==> r[l][y] == load.kv[l][y])
  {
    hide Can, Does, Init, GatherAll, ScatterAll;
    PipelineRefinesLoop(save, ss, ssteps, |ssteps|);
    PipelineRefinesLoop(load, ls, lsteps, |lsteps|);
    RoundTrip(load.kv, save.kv, save.ids, load.ids, load.skip, save.m, save.g, blocks, l);
  }
}
