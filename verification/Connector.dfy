// The connector's per-request tracker: which tokens it reports as cached,
// loads back, unlocks and stores over a whole scheduler run.
module Connector {
  import opened Types
  import opened Hasher
  import opened Server

  datatype LoadStoreOp = LoadStoreOp(tokenIds: seq<Token>, blockIds: seq<nat>, start: nat, end: nat,
                                     skipFirstNTokens: int)

  /** chunkSize is a multiple of blockSize, as the connector asserts at start-up. */
  datatype Geometry = Geometry(chunkSize: nat, blockSize: nat) {
    ghost predicate Valid() {
      blockSize > 0 && chunkSize > 0 && chunkSize % blockSize == 0
    }
  }

  datatype Tracker = Tracker(
    tokenIds: seq<Token>,
    lmcacheHits: nat,
    vllmHits: nat,
    blockIds: seq<nat>,
    numComputedTokens: nat,
    numStoredTokens: nat,
    lookupResolved: bool,
    loadPending: bool,
    allocSeen: bool)

  /** A list slice whose bounds are cut to the list. */
  function Slice<T>(s: seq<T>, a: nat, b: nat): seq<T> {
    var e := if b <= |s| then b else |s|;
    if a <= e then s[a..e] else []
  }

  /** The blocks of tokens [start, end). */
  function BlocksOf(blockIds: seq<nat>, g: Geometry, start: nat, end: nat): seq<nat>
    requires g.blockSize > 0
  {
    Slice(blockIds, start / g.blockSize, end / g.blockSize)
  }

  function Least(a: int, b: int): int {
    if b < a then b else a
  }

  function Available(t: Tracker, g: Geometry): int {
    Least(Least(|t.tokenIds|, |t.blockIds| * g.blockSize), t.numComputedTokens)
  }

  function RetrieveOpOf(t: Tracker, g: Geometry): (Tracker, Option<LoadStoreOp>)
    requires g.chunkSize > 0 && g.blockSize > 0
  {
    if !t.loadPending then (t, None)
    else
      var start := t.vllmHits / g.chunkSize * g.chunkSize;
      var end := t.lmcacheHits;
      var blocks := BlocksOf(t.blockIds, g, start, end);
      (t.(loadPending := false),
       Some(LoadStoreOp(Slice(t.tokenIds, 0, end), blocks, start, end, t.vllmHits - start)))
  }

  /** Whole chunks computed and not yet stored; floor division, so it may be negative after a preemption. */
  function NewChunks(t: Tracker, g: Geometry): int
    requires g.chunkSize > 0
  {
    (Available(t, g) - t.numStoredTokens) / g.chunkSize
  }

  function StoreOpOf(t: Tracker, g: Geometry): (Tracker, Option<LoadStoreOp>)
    requires g.chunkSize > 0 && g.blockSize > 0
  {
    if NewChunks(t, g) <= 0 then (t, None)
    else
      var start := t.numStoredTokens;
      var end := start + NewChunks(t, g) * g.chunkSize;
      (t.(numStoredTokens := end),
       Some(LoadStoreOp(Slice(t.tokenIds, 0, end), BlocksOf(t.blockIds, g, start, end), start, end, 0)))
  }

  /** The reply to QUERY: no reply at all, still pending, or so many hit tokens. */
  datatype Reply = Failed | Pending | Hits(tokens: nat)

  /** What the scheduler is told: a count, or None while the lookup is pending; and whether the load is asynchronous. */
  function MatchOf(t: Tracker, reply: Reply, computed: nat): (Tracker, Option<nat>, bool) {
    if t.lookupResolved then (t, Some(0), false)
    else
      match reply
      case Failed => (t.(lookupResolved := true), Some(0), false)
      case Pending => (t, None, true)
      case Hits(n) =>
        (t.(lookupResolved := true, lmcacheHits := n, vllmHits := computed, numStoredTokens := n),
         Some(if n > computed then n - computed else 0),
         n > computed)
  }

  /** The chunks whose locks are freed at the first allocation; None for no message. */
  function AllocOf(t: Tracker, g: Geometry, groupBlocks: seq<nat>, external: nat): (Tracker, Option<nat>)
    requires g.chunkSize > 0
  {
    var u := t.(blockIds := t.blockIds + From(groupBlocks, |t.blockIds|), loadPending := t.loadPending || external > 0);
    if u.allocSeen then (u, None)
    else
      var chunks := u.lmcacheHits / g.chunkSize;
      var until := if u.loadPending then Least(u.vllmHits / g.chunkSize, chunks) else chunks;
      (u.(allocSeen := true), if until != 0 then Some(until) else None)
  }

  // ---- the tracker object ---------------------------------------------------------------

  class RequestTracker {
    const g: Geometry
    var tokenIds: seq<Token>
    var lmcacheHits: nat
    var vllmHits: nat
    var blockIds: seq<nat>
    var numComputedTokens: nat
    var numStoredTokens: nat
    var lookupResolved: bool
    var loadPending: bool
    var allocSeen: bool

    ghost function View(): Tracker
      reads this
    {
      Tracker(tokenIds, lmcacheHits, vllmHits, blockIds, numComputedTokens, numStoredTokens, lookupResolved,
          loadPending, allocSeen)
    }

    constructor (g: Geometry, tokenIds: seq<Token>)
      ensures this.g == g && View() == Tracker(tokenIds, 0, 0, [], 0, 0, false, false, false)
    {
      this.g := g;
      this.tokenIds := tokenIds;
      lmcacheHits, vllmHits, blockIds, numComputedTokens, numStoredTokens := 0, 0, [], 0, 0;
      lookupResolved, loadPending, allocSeen := false, false, false;
    }

    /** With something to load, an op that covers exactly the gap; once only. */
    method GenerateRetrieveOp() returns (op: Option<LoadStoreOp>)
      requires g.Valid()
      modifies this
      ensures (View(), op) == RetrieveOpOf(old(View()), g)
      ensures CanLoad(old(View()), g) ==> op.Some? && RetrieveFits(old(View()), g, op.value)
      ensures !loadPending
    {
      hide RetrieveFits, Slice, BlocksOf;
      ghost var t := View();
      if !loadPending {
        return None;
      }
      loadPending := false;
      var start := vllmHits / g.chunkSize * g.chunkSize;
      var end := lmcacheHits;
      op := Some(LoadStoreOp(Slice(tokenIds, 0, end), BlocksOf(blockIds, g, start, end), start, end, vllmHits - start));
      if CanLoad(t, g) {
        RetrieveOpFits(t, g);
      }
    }

    /** From an aligned waterline, an op over computed whole chunks that starts there and moves it to its own end. */
    method GenerateStoreOp() returns (op: Option<LoadStoreOp>)
      requires g.Valid()
      modifies this
      ensures (View(), op) == StoreOpOf(old(View()), g)
      ensures Aligned(old(numStoredTokens), g.chunkSize) && op.Some? ==>
                && StoreFits(old(View()), g, op.value)
                && op.value.start == old(numStoredTokens) && op.value.end == numStoredTokens
    {
      if numStoredTokens % g.chunkSize == 0 {
        StoreOpFits(View(), g);
      }
      var available := Least(Least(|tokenIds|, |blockIds| * g.blockSize), numComputedTokens);
      var numChunks := (available - numStoredTokens) / g.chunkSize;
      if numChunks <= 0 {
        return None;
      }
      var start := numStoredTokens;
      var end := start + numChunks * g.chunkSize;
      numStoredTokens := end;
      op := Some(LoadStoreOp(Slice(tokenIds, 0, end), BlocksOf(blockIds, g, start, end), start, end, 0));
    }

    method GetNumNewMatchedTokens(reply: Reply, numComputed: nat) returns (count: Option<nat>, async: bool)
      modifies this
      ensures (View(), count, async) == MatchOf(old(View()), reply, numComputed)
    {
      if lookupResolved {
        return Some(0), false;
      }
      match reply {
        case Failed =>
          lookupResolved := true;
          return Some(0), false;
        case Pending =>
          return None, true;
        case Hits(n) =>
          lookupResolved := true;
          lmcacheHits := n;
          vllmHits := numComputed;
          numStoredTokens := n;
          if n > numComputed {
            return Some(n - numComputed), true;
          }
          return Some(0), false;
      }
    }

    /** A table that extends the tracker's is adopted whole; locks are freed once, and never beyond the cached hits. */
    method UpdateStateAfterAlloc(groupBlocks: seq<nat>, numExternalTokens: nat) returns (freeUntil: Option<nat>)
      requires g.Valid()
      modifies this
      ensures (View(), freeUntil) == AllocOf(old(View()), g, groupBlocks, numExternalTokens)
      ensures old(blockIds) <= groupBlocks ==> blockIds == groupBlocks
      ensures allocSeen && (old(allocSeen) ==> freeUntil == None)
      ensures freeUntil.Some? ==> 0 < freeUntil.value <= lmcacheHits / g.chunkSize
    {
      blockIds := blockIds + From(groupBlocks, |blockIds|);
      if numExternalTokens > 0 {
        loadPending := true;
      }
      if allocSeen {
        return None;
      }
      allocSeen := true;
      var lmcacheChunks := lmcacheHits / g.chunkSize;
      var until := if loadPending then Least(vllmHits / g.chunkSize, lmcacheChunks) else lmcacheChunks;
      freeUntil := if until != 0 then Some(until) else None;
    }

    /** A newly scheduled request brings its whole block table. */
    method Admit(newBlocks: seq<nat>, computed: nat)
      modifies this
      ensures View() == old(View()).(blockIds := newBlocks, numComputedTokens := computed)
    {
      blockIds := newBlocks;
      numComputedTokens := computed;
    }

    /** A running request gets more blocks; one resumed after preemption gets a new table. */
    method Continue(newBlocks: Option<seq<nat>>, resumed: bool, computed: nat)
      modifies this
      ensures View() == ContinueOf(old(View()), newBlocks, resumed, computed)
    {
      if newBlocks.Some? {
        if resumed {
          blockIds := newBlocks.value;
        } else {
          blockIds := blockIds + newBlocks.value;
        }
      }
      numComputedTokens := computed;
    }
  }

  function ContinueOf(t: Tracker, newBlocks: Option<seq<nat>>, resumed: bool, computed: nat): Tracker {
    var blocks :=
      if newBlocks.None? then t.blockIds
      else if resumed then newBlocks.value
      else t.blockIds + newBlocks.value;
    t.(blockIds := blocks, numComputedTokens := computed)
  }

  // ---- scheduler runs ---------------------------------------------------------------------

  /** What vLLM does to one request; tokens only ever grow at the end. */
  datatype Event =
    | Ask(reply: Reply, computed: nat)
    | Allocate(groupBlocks: seq<nat>)
    | BuildLoads
    | Admitted(blocks: seq<nat>, computed: nat)
    | Continued(newBlocks: Option<seq<nat>>, resumed: bool, computed: nat)
    | Scheduled(tokens: nat)
    | Generated(token: Token)

  /** promised: the count last reported to the scheduler and not yet allocated for. */
  datatype World = World(t: Tracker, promised: nat)

  datatype Sent = Nothing | Stored(op: LoadStoreOp) | Loaded(op: LoadStoreOp) | Freed(chunks: nat)

  function Next(w: World, g: Geometry, e: Event): (World, Sent)
    requires g.chunkSize > 0 && g.blockSize > 0
  {
    match e
    case Ask(reply, computed) =>
      var (t, count, async) := MatchOf(w.t, reply, computed);
      (World(t, if count.Some? then count.value else w.promised), Nothing)
    case Allocate(groupBlocks) =>
      var (t, freed) := AllocOf(w.t, g, groupBlocks, w.promised);
      (World(t, 0), if freed.Some? then Freed(freed.value) else Nothing)
    case BuildLoads =>
      var (t, op) := RetrieveOpOf(w.t, g);
      (w.(t := t), if op.Some? then Loaded(op.value) else Nothing)
    case Admitted(blocks, computed) => (w.(t := w.t.(blockIds := blocks, numComputedTokens := computed)), Nothing)
    case Continued(newBlocks, resumed, computed) => (w.(t := ContinueOf(w.t, newBlocks, resumed, computed)), Nothing)
    case Scheduled(tokens) =>
      var (t, op) := StoreOpOf(w.t.(numComputedTokens := w.t.numComputedTokens + tokens), g);
      (w.(t := t), if op.Some? then Stored(op.value) else Nothing)
    case Generated(token) => (w.(t := w.t.(tokenIds := w.t.tokenIds + [token])), Nothing)
  }

  ghost predicate Trace(g: Geometry, ws: seq<World>, es: seq<Event>, sent: seq<Sent>) {
    && g.Valid() && |ws| == |es| + 1 && |sent| == |es|
    && forall i :: 0 <= i < |es| ==> (ws[i + 1], sent[i]) == Next(ws[i], g, es[i])
  }

  /** Ranges of the STORE ops among the messages sent, in order. */
  function StoredRanges(sent: seq<Sent>): seq<(nat, nat)> {
    if sent == [] then []
    else
      var last := sent[|sent| - 1];
      StoredRanges(sent[..|sent| - 1]) + if last.Stored? then [(last.op.start, last.op.end)] else []
  }

  ghost predicate Aligned(x: nat, n: nat) {
    n > 0 && x % n == 0
  }

  /**
   * The ranges are chunk-aligned and non-empty, each starts where the one
   * before ended, and together they cover [a, b).
   */
  ghost predicate Tiles(ranges: seq<(nat, nat)>, a: nat, b: nat, n: nat)
    requires n > 0
  {
    if ranges == [] then a == b
    else
      var last := ranges[|ranges| - 1];
      last.1 == b && last.0 < b && Aligned(last.0, n) && Aligned(b, n) && Tiles(ranges[..|ranges| - 1], a, last.0, n)
  }

  /** A well-formed STORE op over computed tokens of tracker t. */
  ghost predicate StoreFits(t: Tracker, g: Geometry, op: LoadStoreOp)
    requires g.Valid()
  {
    && op.start < op.end && op.end <= |t.tokenIds| && op.end <= t.numComputedTokens
    && Aligned(op.start, g.chunkSize) && Aligned(op.end, g.chunkSize)
    && op.tokenIds == t.tokenIds[..op.end]
    && op.end / g.blockSize <= |t.blockIds| && op.start / g.blockSize <= op.end / g.blockSize
    && op.blockIds == t.blockIds[op.start / g.blockSize..op.end / g.blockSize]
    && |op.blockIds| * g.blockSize == op.end - op.start
    && op.skipFirstNTokens == 0
  }

  // ---- arithmetic of whole blocks and chunks ------------------------------------------------

  /** Multiples of the chunk size are multiples of the block size. */
  lemma ChunkIsBlocks(g: Geometry, x: nat)
    requires g.Valid() && x % g.chunkSize == 0
    ensures x % g.blockSize == 0 && x / g.blockSize * g.blockSize == x
  {
    var c, b := g.chunkSize, g.blockSize;
    var q, k := x / c, c / b;
    assert x == q * c && c == k * b;
    assert q * (k * b) == (q * k) * b by {
      MulAssoc(q, k, b);
    }
    DivMul(q * k, b);
  }

  lemma MulAssoc(a: nat, b: nat, c: nat)
    ensures a * (b * c) == (a * b) * c
  {
  }

  lemma DiffDiv(a: nat, b: nat, n: nat)
    requires n > 0 && a <= b && a / n * n == a && b / n * n == b
    ensures a / n <= b / n && (b / n - a / n) * n == b - a
  {
    DivMono(a, b, n);
  }

  /** Adding whole chunks keeps alignment and stays below what is available. */
  lemma AddChunks(s: nat, k: nat, available: int, n: nat)
    requires n > 0 && s % n == 0 && k == (available - s) / n && k > 0
    ensures s < s + k * n <= available && (s + k * n) % n == 0
  {
    assert available - s == k * n + (available - s) % n;
    MulMono(1, k, n);
    var q := s / n;
    assert s == q * n;
    assert s + k * n == (q + k) * n;
    DivMul(q + k, n);
  }

  lemma BlocksReach(e: nat, blocks: nat, n: nat)
    requires n > 0 && e <= blocks * n
    ensures e / n <= blocks
  {
    DivMono(e, blocks * n, n);
    DivMul(blocks, n);
  }

  // ---- STORE ops tile the request --------------------------------------------------------------

  /** One STORE op: it starts at the waterline, moves it to its own end, and covers computed whole chunks only. */
  lemma StoreOpFits(t: Tracker, g: Geometry)
    requires g.Valid() && t.numStoredTokens % g.chunkSize == 0
    ensures var (u, op) := StoreOpOf(t, g);
            match op
            case None => u == t
            case Some(o) => o.start == t.numStoredTokens && u == t.(numStoredTokens := o.end) && StoreFits(t, g, o)
  {
    var (u, op) := StoreOpOf(t, g);
    if op.Some? {
      var o := op.value;
      AddChunks(o.start, NewChunks(t, g), Available(t, g), g.chunkSize);
      ChunkIsBlocks(g, o.start);
      ChunkIsBlocks(g, o.end);
      DiffDiv(o.start, o.end, g.blockSize);
      BlocksReach(o.end, |t.blockIds|, g.blockSize);
    }
  }

  /** Only a scheduled step stores, and nothing else moves the waterline of a resolved request. */
  lemma WaterlineMoves(w: World, g: Geometry, e: Event)
    requires g.Valid() && w.t.lookupResolved && Aligned(w.t.numStoredTokens, g.chunkSize)
    ensures var (v, sent) := Next(w, g, e);
            && v.t.lookupResolved && Aligned(v.t.numStoredTokens, g.chunkSize)
            && (if sent.Stored? then sent.op.start == w.t.numStoredTokens && sent.op.end == v.t.numStoredTokens
               && StoreFits(Ready(w, e), g, sent.op)
                else v.t.numStoredTokens == w.t.numStoredTokens)
  {
    if e.Scheduled? {
      StoreOpFits(Ready(w, e), g);
    }
  }

  /** The tracker a STORE op is generated from. */
  function Ready(w: World, e: Event): Tracker {
    if e.Scheduled? then w.t.(numComputedTokens := w.t.numComputedTokens + e.tokens) else w.t
  }

  /**
   * Over any scheduler run after the lookup resolves, with chunked prefill,
   * growth and preemption resets in any order, the STORE ranges are
   * chunk-aligned, follow one another without gap or overlap and together
   * cover exactly [waterline at the start, waterline at the end); each op
   * stays within the computed tokens and carries exactly its own blocks.
   */
  lemma {:induction false} StoresTile(g: Geometry, ws: seq<World>, es: seq<Event>, sent: seq<Sent>, n: nat)
    requires Trace(g, ws, es, sent) && n <= |es|
    requires ws[0].t.lookupResolved && Aligned(ws[0].t.numStoredTokens, g.chunkSize)
    ensures ws[n].t.lookupResolved && Aligned(ws[n].t.numStoredTokens, g.chunkSize)
    ensures Tiles(StoredRanges(sent[..n]), ws[0].t.numStoredTokens, ws[n].t.numStoredTokens, g.chunkSize)
    ensures forall i :: 0 <= i < n && sent[i].Stored? ==> StoreFits(Ready(ws[i], es[i]), g, sent[i].op)
  {
    hide Next, StoreFits, Aligned, Ready;
    PositiveChunk(g);
    if n > 0 {
      StoresTile(g, ws, es, sent, n - 1);
      assert (ws[n - 1 + 1], sent[n - 1]) == Next(ws[n - 1], g, es[n - 1]);
      WaterlineMoves(ws[n - 1], g, es[n - 1]);
      if sent[n - 1].Stored? {
        StoreNonEmpty(Ready(ws[n - 1], es[n - 1]), g, sent[n - 1].op);
      }
      assert sent[..n][..n - 1] == sent[..n - 1] && sent[..n][n - 1] == sent[n - 1];
      var before := StoredRanges(sent[..n - 1]);
      if sent[n - 1].Stored? {
        var r := (sent[n - 1].op.start, sent[n - 1].op.end);
        assert StoredRanges(sent[..n]) == before + [r];
        assert (before + [r])[..|before|] == before;
      } else {
        assert StoredRanges(sent[..n]) == before;
      }
    }
  }

  lemma PositiveChunk(g: Geometry)
    requires g.Valid()
    ensures g.chunkSize > 0 && g.blockSize > 0
  {
  }

  lemma StoreNonEmpty(t: Tracker, g: Geometry, op: LoadStoreOp)
    requires g.Valid() && StoreFits(t, g, op)
    ensures op.start < op.end && Aligned(op.start, g.chunkSize) && Aligned(op.end, g.chunkSize)
  {
  }

  /** A STORE op names as many chunk keys as its blocks fill chunks, so it is sent with one blob per key. */
  lemma StoreSendsOneBlobPerKey(t: Tracker, g: Geometry, op: LoadStoreOp, h: Hash, model: string, rank: nat)
    requires g.Valid() && StoreFits(t, g, op)
    ensures |op.blockIds| % (g.chunkSize / g.blockSize) == 0
    ensures |OpKeys(h, op.tokenIds, op.start, op.end, g.chunkSize, model, rank)| ==
              |op.blockIds| / (g.chunkSize / g.blockSize)
  {
    var c, b := g.chunkSize, g.blockSize;
    WholeChunks(g, op.start, op.end, |op.blockIds|);
    hide StoreFits, OpKeys, LookupKeys;
    OpFacts(t, g, op);
    OpKeysAreSlice(h, op.tokenIds, op.tokenIds, op.start, op.end, c, model, rank + 1, rank);
  }

  lemma OpFacts(t: Tracker, g: Geometry, op: LoadStoreOp)
    requires g.Valid() && StoreFits(t, g, op)
    ensures op.start <= op.end == |op.tokenIds| && op.start % g.chunkSize == 0 && op.end % g.chunkSize == 0
  {
  }

  lemma WholeChunks(g: Geometry, start: nat, end: nat, blocks: nat)
    requires g.Valid() && start <= end && Aligned(start, g.chunkSize) && Aligned(end, g.chunkSize)
    requires blocks * g.blockSize == end - start
    ensures g.chunkSize / g.blockSize > 0 && blocks % (g.chunkSize / g.blockSize) == 0
    ensures end / g.chunkSize - start / g.chunkSize == blocks / (g.chunkSize / g.blockSize)
  {
    DiffDiv(start, end, g.chunkSize);
    BlocksOfChunks(blocks, end / g.chunkSize - start / g.chunkSize, g.chunkSize, g.blockSize, end - start);
  }

  lemma BlocksOfChunks(blocks: nat, k: nat, c: nat, b: nat, tokens: nat)
    requires b > 0 && c > 0 && c % b == 0 && blocks * b == tokens && k * c == tokens
    ensures c / b > 0 && blocks % (c / b) == 0 && blocks / (c / b) == k
  {
    var m := c / b;
    assert c == m * b;
    MulAssoc(k, m, b);
    assert blocks * b == (k * m) * b;
    MulCancel(blocks, k * m, b);
    DivMul(k, m);
  }

  lemma MulCancel(x: nat, y: nat, b: nat)
    requires b > 0 && x * b == y * b
    ensures x == y
  {
    DivMul(x, b);
    DivMul(y, b);
  }

  // ---- the block table ----------------------------------------------------------------------------

  /** When vLLM's table for the request extends what the tracker has, the tracker ends up with that table. */
  lemma AllocAdoptsTable(t: Tracker, g: Geometry, groupBlocks: seq<nat>, external: nat)
    requires g.Valid() && t.blockIds <= groupBlocks
    ensures AllocOf(t, g, groupBlocks, external).0.blockIds == groupBlocks
  {
  }

  // ---- the one RETRIEVE and the one FREE of a request -------------------------------------------

  ghost predicate LoadInv(w: World) {
    && (w.promised > 0 || w.t.loadPending ==> w.t.lookupResolved && w.t.vllmHits < w.t.lmcacheHits)
    && !(w.promised > 0 && w.t.loadPending)
    && (w.t.loadPending ==> w.t.allocSeen)
    && (!w.t.lookupResolved ==> w.t.lmcacheHits == 0)
  }

  /** Nothing is left to load, now or later. */
  ghost predicate Spent(w: World) {
    w.t.lookupResolved && w.promised == 0 && !w.t.loadPending
  }

  /** Results of a resolved lookup, and having seen an allocation, are never taken back. */
  ghost predicate Persists(v: World, w: World) {
    && (v.t.lookupResolved ==> w.t.lookupResolved && w.t.lmcacheHits == v.t.lmcacheHits && w.t.vllmHits == v.t.vllmHits)
    && (v.t.allocSeen ==> w.t.allocSeen)
    && (Spent(v) ==> Spent(w))
  }

  lemma NextLoads(w: World, g: Geometry, e: Event)
    requires g.Valid() && LoadInv(w)
    ensures var (v, sent) := Next(w, g, e);
            && LoadInv(v) && Persists(w, v)
            && (sent.Loaded? ==> !Spent(w) && w.t.allocSeen && w.t.lookupResolved && Spent(v))
            && (sent.Freed? ==> !w.t.allocSeen && v.t.allocSeen && w.t.lookupResolved && (v.t.loadPending || Spent(v)))
  {
    if e.Allocate? {
      NothingToFree(g);
    }
  }

  lemma NothingToFree(g: Geometry)
    requires g.Valid()
    ensures 0 / g.chunkSize == 0
  {
  }

  /** A tracker as the connector creates it. */
  ghost predicate Fresh(w: World) {
    w == World(Tracker(w.t.tokenIds, 0, 0, [], 0, 0, false, false, false), 0)
  }

  lemma {:induction false} LoadsKeep(g: Geometry, ws: seq<World>, es: seq<Event>, sent: seq<Sent>, i: nat, j: nat)
    requires Trace(g, ws, es, sent) && Fresh(ws[0]) && i <= j <= |es|
    ensures LoadInv(ws[i]) && LoadInv(ws[j]) && Persists(ws[i], ws[j])
    decreases j, i
  {
    if i < j {
      LoadsKeep(g, ws, es, sent, i, j - 1);
      hide Next;
      assert (ws[j - 1 + 1], sent[j - 1]) == Next(ws[j - 1], g, es[j - 1]);
      NextLoads(ws[j - 1], g, es[j - 1]);
    } else if j > 0 {
      LoadsKeep(g, ws, es, sent, i - 1, j - 1);
      assert (ws[j - 1 + 1], sent[j - 1]) == Next(ws[j - 1], g, es[j - 1]);
      NextLoads(ws[j - 1], g, es[j - 1]);
    }
  }

  lemma LoadsAt(g: Geometry, ws: seq<World>, es: seq<Event>, sent: seq<Sent>, i: nat)
    requires Trace(g, ws, es, sent) && Fresh(ws[0]) && i < |es|
    ensures sent[i].Loaded? ==> !Spent(ws[i]) && ws[i].t.allocSeen && ws[i].t.lookupResolved && Spent(ws[i + 1])
    ensures sent[i].Freed? ==>
              && !ws[i].t.allocSeen && ws[i + 1].t.allocSeen && ws[i].t.lookupResolved
              && (ws[i + 1].t.loadPending || Spent(ws[i + 1]))
  {
    LoadsKeep(g, ws, es, sent, i, i);
    hide Next;
    assert (ws[i + 1], sent[i]) == Next(ws[i], g, es[i]);
    NextLoads(ws[i], g, es[i]);
  }

  /** Over a request's whole life at most one RETRIEVE and at most one FREE are sent. */
  lemma OneLoadOneFree(g: Geometry, ws: seq<World>, es: seq<Event>, sent: seq<Sent>, i: nat, j: nat)
    requires Trace(g, ws, es, sent) && Fresh(ws[0]) && i < j < |es|
    ensures !(sent[i].Loaded? && sent[j].Loaded?) && !(sent[i].Freed? && sent[j].Freed?)
  {
    LoadsAt(g, ws, es, sent, i);
    LoadsAt(g, ws, es, sent, j);
    LoadsKeep(g, ws, es, sent, i + 1, j);
  }

  lemma LoadedRange(w: World, g: Geometry, e: Event)
    requires g.Valid() && LoadInv(w) && Next(w, g, e).1.Loaded?
    ensures var op := Next(w, g, e).1.op;
            op.start == w.t.vllmHits / g.chunkSize * g.chunkSize && op.end == w.t.lmcacheHits
                && w.t.vllmHits < w.t.lmcacheHits
  {
  }

  lemma FreedRange(w: World, g: Geometry, e: Event)
    requires g.Valid() && LoadInv(w) && Next(w, g, e).1.Freed?
    ensures var (v, sent) := Next(w, g, e);
            sent.chunks == (if v.t.loadPending then w.t.vllmHits else w.t.lmcacheHits) / g.chunkSize
  {
    if w.promised > 0 {
      DivMono(w.t.vllmHits, w.t.lmcacheHits, g.chunkSize);
    }
  }

  /**
   * FREE and RETRIEVE meet: the chunks unlocked at allocation are exactly
   * those in front of the range that is loaded; when nothing is loaded, all
   * advertised chunks are unlocked.
   */
  lemma FreeMeetsLoad(g: Geometry, ws: seq<World>, es: seq<Event>, sent: seq<Sent>, i: nat)
    requires Trace(g, ws, es, sent) && Fresh(ws[0]) && i < |es| && sent[i].Freed?
    ensures forall j :: 0 <= j < |es| && sent[j].Loaded? ==>
              sent[j].op.start == sent[i].chunks * g.chunkSize && sent[j].op.end == ws[i].t.lmcacheHits && i < j
    ensures ws[i + 1].t.loadPending || (sent[i].chunks == ws[i].t.lmcacheHits / g.chunkSize
              && forall j :: 0 <= j < |es| ==> !sent[j].Loaded?)
  {
    hide Next, Spent;
    PositiveChunk(g);
    LoadsKeep(g, ws, es, sent, i, i);
    LoadsAt(g, ws, es, sent, i);
    assert (ws[i + 1], sent[i]) == Next(ws[i], g, es[i]);
    FreedRange(ws[i], g, es[i]);
    forall j | 0 <= j < |es| && sent[j].Loaded?
      ensures sent[j].op.start == sent[i].chunks * g.chunkSize && sent[j].op.end == ws[i].t.lmcacheHits && i < j
      ensures ws[i + 1].t.loadPending
    {
      LoadsAt(g, ws, es, sent, j);
      LoadsKeep(g, ws, es, sent, j, j);
      assert (ws[j + 1], sent[j]) == Next(ws[j], g, es[j]);
      LoadedRange(ws[j], g, es[j]);
      if j <= i {
        LoadsKeep(g, ws, es, sent, j, i);
      } else {
        LoadsKeep(g, ws, es, sent, i + 1, j);
        LoadsKeep(g, ws, es, sent, i, j);
      }
    }
  }

  lemma NextAllocSeen(w: World, g: Geometry, e: Event)
    requires g.Valid()
    ensures Next(w, g, e).0.t.allocSeen ==> w.t.allocSeen || e.Allocate?
  {
  }

  /** The event at which a request's blocks were first allocated. */
  lemma {:induction false} FirstAlloc(g: Geometry, ws: seq<World>, es: seq<Event>, sent: seq<Sent>, n: nat)
    returns (a: nat)
    requires Trace(g, ws, es, sent) && Fresh(ws[0]) && n <= |es| && ws[n].t.allocSeen
    ensures a < n && es[a].Allocate? && !ws[a].t.allocSeen && ws[a + 1].t.allocSeen
  {
    assert (ws[n - 1 + 1], sent[n - 1]) == Next(ws[n - 1], g, es[n - 1]);
    NextAllocSeen(ws[n - 1], g, es[n - 1]);
    if ws[n - 1].t.allocSeen {
      a := FirstAlloc(g, ws, es, sent, n - 1);
    } else {
      a := n - 1;
    }
  }

  /**
   * What the first allocation sends: a FREE exactly if the answer is there
   * and puts whole chunks in front of the load.
   */
  lemma FirstAllocFrees(w: World, g: Geometry, e: Event)
    requires g.Valid() && LoadInv(w) && e.Allocate? && !w.t.allocSeen
    ensures var (v, sent) := Next(w, g, e);
            && (!w.t.lookupResolved ==> !sent.Freed?)
            && (w.t.lookupResolved ==> v.t.loadPending || Spent(v))
            && (w.t.lookupResolved && v.t.loadPending ==> (sent.Freed? <==> w.t.vllmHits / g.chunkSize > 0))
  {
    NothingToFree(g);
    if w.promised > 0 || w.t.loadPending {
      DivMono(w.t.vllmHits, w.t.lmcacheHits, g.chunkSize);
    }
  }

  lemma StartIsZero(v: nat, n: nat)
    requires n > 0
    ensures v / n * n > 0 <==> v / n > 0
  {
    if v / n > 0 {
      MulMono(1, v / n, n);
    }
  }

  /**
   * For a request that loads: a FREE is sent if and only if the lookup had
   * been answered when its blocks were first allocated (as it always is with
   * a scheduler that allocates after the answer) and the loaded range does
   * not start at 0. So a load without a FREE has nothing in front of it.
   */
  lemma LoadNeedsFreeIff(g: Geometry, ws: seq<World>, es: seq<Event>, sent: seq<Sent>, i: nat) returns (a: nat)
    requires Trace(g, ws, es, sent) && Fresh(ws[0]) && i < |es| && sent[i].Loaded?
    ensures a < i && es[a].Allocate? && !ws[a].t.allocSeen && ws[a + 1].t.allocSeen
    ensures (exists j: nat :: j < |es| && sent[j].Freed?) <==> ws[a].t.lookupResolved && sent[i].op.start > 0
  {
    hide Next, Spent;
    PositiveChunk(g);
    LoadsKeep(g, ws, es, sent, i, i);
    LoadsAt(g, ws, es, sent, i);
    assert (ws[i + 1], sent[i]) == Next(ws[i], g, es[i]);
    LoadedRange(ws[i], g, es[i]);
    a := FirstAlloc(g, ws, es, sent, i);
    LoadsKeep(g, ws, es, sent, a, i);
    LoadsKeep(g, ws, es, sent, a + 1, i);
    assert (ws[a + 1], sent[a]) == Next(ws[a], g, es[a]);
    FirstAllocFrees(ws[a], g, es[a]);
    StartIsZero(ws[i].t.vllmHits, g.chunkSize);
    forall j: nat | j < |es| && sent[j].Freed?
      ensures j == a
    {
      OnlyFirstFrees(g, ws, es, sent, a, j);
    }
  }

  lemma OnlyFirstFrees(g: Geometry, ws: seq<World>, es: seq<Event>, sent: seq<Sent>, a: nat, j: nat)
    requires Trace(g, ws, es, sent) && Fresh(ws[0]) && a < |es| && j < |es| && sent[j].Freed?
    requires !ws[a].t.allocSeen && ws[a + 1].t.allocSeen
    ensures j == a
  {
    hide Next;
    LoadsAt(g, ws, es, sent, j);
    if j < a {
      LoadsKeep(g, ws, es, sent, j + 1, a);
    } else if j > a {
      LoadsKeep(g, ws, es, sent, a + 1, j);
    }
  }

  // ---- the range of a load ------------------------------------------------------------------------

  lemma ChunkStart(v: nat, c: nat)
    requires c > 0
    ensures 0 <= v / c * c <= v && v - v / c * c < c && v / c * c % c == 0
  {
    assert v == v / c * c + v % c;
    DivMul(v / c, c);
  }

  /** From the start s of the chunk that token v lies in, in blocks. */
  lemma GapAt(g: Geometry, s: nat, v: nat, e: nat, blocks: nat)
    requires g.Valid() && s <= v < e && v - s < g.chunkSize && s % g.chunkSize == 0
    requires v % g.blockSize == 0 && e % g.chunkSize == 0 && e <= blocks * g.blockSize
    ensures s / g.blockSize + (v - s) / g.blockSize == v / g.blockSize
    ensures (v - s) / g.blockSize < g.chunkSize / g.blockSize
    ensures s / g.blockSize <= v / g.blockSize <= e / g.blockSize <= blocks
    ensures (e / g.blockSize - s / g.blockSize) * g.blockSize == e - s
  {
    var b := g.blockSize;
    ChunkIsBlocks(g, s);
    ChunkIsBlocks(g, e);
    ChunkBlocks(g, v - s);
    hide Geometry.Valid;
    assert v / b * b == v;
    DiffDiv(s, v, b);
    DiffDiv(s, e, b);
    DivMono(v, e, b);
    BlocksReach(e, blocks, b);
    DivMul(v / b - s / b, b);
  }

  lemma GapArithmetic(g: Geometry, v: nat, e: nat, blocks: nat)
    requires g.Valid() && v < e && v % g.blockSize == 0 && e % g.chunkSize == 0 && e <= blocks * g.blockSize
    ensures var s := v / g.chunkSize * g.chunkSize;
            && 0 <= s <= v && s % g.chunkSize == 0 && s <= e
            && s / g.blockSize + (v - s) / g.blockSize == v / g.blockSize
            && (v - s) / g.blockSize < g.chunkSize / g.blockSize
            && s / g.blockSize <= v / g.blockSize <= e / g.blockSize <= blocks
            && (e / g.blockSize - s / g.blockSize) * g.blockSize == e - s
  {
    ChunkStart(v, g.chunkSize);
    GapAt(g, v / g.chunkSize * g.chunkSize, v, e, blocks);
  }

  lemma ChunkBlocks(g: Geometry, x: nat)
    requires g.Valid() && x < g.chunkSize
    ensures x / g.blockSize < g.chunkSize / g.blockSize
  {
    var c, b := g.chunkSize, g.blockSize;
    assert c == c / b * b;
    if x / b >= c / b {
      MulMono(c / b, x / b, b);
    }
  }

  /** The tracker has something to load, from block-aligned local hits on, into distinct blocks it has been given. */
  ghost predicate CanLoad(t: Tracker, g: Geometry) {
    && g.Valid() && t.loadPending && t.vllmHits < t.lmcacheHits
    && t.vllmHits % g.blockSize == 0 && t.lmcacheHits % g.chunkSize == 0
    && t.lmcacheHits <= |t.blockIds| * g.blockSize && NoDup(t.blockIds)
  }

  /**
   * A RETRIEVE op over whole chunks of blocks of the request's own table,
   * whose skip ends inside the first chunk and leads exactly to the first
   * token, and so the first block, that is not computed locally. It names the
   * tokens up to its end, from which the server derives its keys.
   */
  ghost predicate RetrieveFits(t: Tracker, g: Geometry, op: LoadStoreOp)
    requires g.Valid()
  {
    && op.end == t.lmcacheHits && op.start <= t.vllmHits && Aligned(op.start, g.chunkSize)
    && (t.lmcacheHits <= |t.tokenIds| ==> op.tokenIds == t.tokenIds[..t.lmcacheHits])
    && op.start + op.skipFirstNTokens == t.vllmHits
    && op.start / g.blockSize <= t.vllmHits / g.blockSize <= op.end / g.blockSize <= |t.blockIds|
    && op.blockIds == t.blockIds[op.start / g.blockSize..op.end / g.blockSize]
    && |op.blockIds| * g.blockSize == op.end - op.start
    && 0 <= op.skipFirstNTokens / g.blockSize < g.chunkSize / g.blockSize
    && op.start / g.blockSize + op.skipFirstNTokens / g.blockSize == t.vllmHits / g.blockSize
  }

  /** The op generated from block-aligned local hits below the cached ones fits. */
  lemma RetrieveOpFits(t: Tracker, g: Geometry)
    requires CanLoad(t, g)
    ensures RetrieveFits(t, g, RetrieveOpOf(t, g).1.value)
  {
    hide RetrieveFits, Slice, BlocksOf;
    PositiveChunk(g);
    OpFits(t, g, RetrieveOpOf(t, g).1.value, t.vllmHits, t.lmcacheHits);
  }

  lemma OpFits(t: Tracker, g: Geometry, op: LoadStoreOp, v: nat, e: nat)
    requires CanLoad(t, g) && v == t.vllmHits && e == t.lmcacheHits
    requires op.start == v / g.chunkSize * g.chunkSize && op.end == e && op.skipFirstNTokens == v - op.start
    requires op.blockIds == BlocksOf(t.blockIds, g, op.start, op.end) && op.tokenIds == Slice(t.tokenIds, 0, e)
    ensures RetrieveFits(t, g, op)
  {
    hide BlocksOf, Slice, Geometry.Valid;
    TokensAre(t.tokenIds, e);
    GapArithmetic(g, v, e, |t.blockIds|);
    hide CanLoad;
    BlocksAre(t.blockIds, g, op.start, op.end);
  }

  lemma TokensAre(ids: seq<Token>, end: nat)
    ensures end <= |ids| ==> Slice(ids, 0, end) == ids[..end]
  {
  }

  lemma BlocksAre(ids: seq<nat>, g: Geometry, start: nat, end: nat)
    requires g.blockSize > 0 && start / g.blockSize <= end / g.blockSize <= |ids|
    ensures BlocksOf(ids, g, start, end) == ids[start / g.blockSize..end / g.blockSize]
    ensures |BlocksOf(ids, g, start, end)| == end / g.blockSize - start / g.blockSize
  {
  }

  /** A multiple of the chunk size in blocks is as many times the blocks of a chunk. */
  lemma ChunksOfBlocks(g: Geometry, x: nat)
    requires g.Valid() && x % g.chunkSize == 0
    ensures g.chunkSize / g.blockSize > 0 && x / g.blockSize == x / g.chunkSize * (g.chunkSize / g.blockSize)
  {
    var c, b := g.chunkSize, g.blockSize;
    var m, q := c / b, x / c;
    assert c == m * b && x == q * c;
    MulAssoc(q, m, b);
    DivMul(q * m, b);
  }
}
