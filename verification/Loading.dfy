// What a load leaves in the KV tensors: the connector's RETRIEVE op, the
// chunks the server answers with and the transfer that scatters them, together.
module Loading {
  import opened Types
  import opened Hasher
  import opened Server
  import opened Connector
  import opened Transfer
  import Pipeline

  /** One layout for both sides: a chunk has as many blocks as the connector's sizes say. */
  ghost predicate SameChunks(g: Geometry, lay: Layout) {
    g.Valid() && lay.perChunk == g.chunkSize / g.blockSize
  }

  /** How many blocks are computed locally, and how many the cache has. */
  function Local(t: Tracker, g: Geometry): nat
    requires g.blockSize > 0
  {
    t.vllmHits / g.blockSize
  }

  function Cached(t: Tracker, g: Geometry): nat
    requires g.blockSize > 0
  {
    t.lmcacheHits / g.blockSize
  }

  /** Block z of the request holds the z-th block of the cached prefix, whose chunks from number c0 on are given. */
  ghost predicate BlockLoaded(r: Kv, ids: seq<nat>, z: nat, c0: nat, chunks: seq<Blob>, lay: Layout, l: nat)
    requires lay.perChunk > 0 && z < |ids| && l < |r|
  {
    && c0 <= z / lay.perChunk < c0 + |chunks| && ids[z] < |r[l]|
    && r[l][ids[z]] == BlockAt(chunks[z / lay.perChunk - c0], lay, l, z % lay.perChunk)
  }

  /**
   * Layer l after a load into block table ids whose first chunk is number c0
   * of the request: block z of the request holds the z-th block of the cached
   * prefix for all z in [a, b), and no other block of the tensor has changed.
   */
  ghost predicate GapLoaded(r: Kv, kv: Kv, ids: seq<nat>, a: nat, b: nat, c0: nat, chunks: seq<Blob>, lay: Layout,
                            l: nat)
    requires lay.perChunk > 0 && a <= b <= |ids| && l < |kv|
  {
    && |r| == |kv| && |r[l]| == |kv[l]|
    && (forall y: nat :: y < |kv[l]| && y !in ids[a..b] ==> r[l][y] == kv[l][y])
    && forall z: nat :: a <= z < b ==> BlockLoaded(r, ids, z, c0, chunks, lay, l)
  }

  lemma BlockIsLoaded(r: Kv, ids: seq<nat>, s: nat, b: nat, z: nat, c0: nat, chunks: seq<Blob>, lay: Layout, l: nat)
    requires lay.perChunk > 0 && s == c0 * lay.perChunk && s <= z < b <= |ids| && l < |r|
    requires FilledAt(r, chunks, ids[s..b], z - s, lay, l)
    ensures BlockLoaded(r, ids, z, c0, chunks, lay, l)
  {
    OpPosition(z - s, c0, lay.perChunk);
  }

  /** Position x of the op is block s + x of the request. */
  lemma OpPosition(x: nat, c0: nat, n: nat)
    requires n > 0
    ensures (c0 * n + x) / n == c0 + x / n && (c0 * n + x) % n == x % n
  {
    assert x == x / n * n + x % n;
    assert (c0 + x / n) * n == c0 * n + x / n * n;
    PositionIs(c0 * n + x, n, c0 + x / n, x % n);
  }

  /** Scattering into a part of the table that starts with whole chunk c0, given what the scatter does to that part. */
  lemma PartLoaded(r: Kv, kv: Kv, ids: seq<nat>, s: nat, a: nat, b: nat, c0: nat, chunks: seq<Blob>, lay: Layout,
                   l: nat)
    requires lay.perChunk > 0 && s == c0 * lay.perChunk && s <= a <= b <= |ids| && l < |kv|
    requires |r| == |kv| && IdsOk(ids, |kv[l]|)
    requires Filled(r, chunks, ids[s..b], a - s, b - s, lay, l) && Untouched(r, kv, ids[s..b], a - s, b - s, l)
    ensures GapLoaded(r, kv, ids, a, b, c0, chunks, lay, l)
  {
    hide BlockLoaded, FilledAt;
    var op := ids[s..b];
    forall y: nat | y < |kv[l]| && y !in ids[a..b]
      ensures r[l][y] == kv[l][y]
    {
      forall x | a - s <= x < b - s
        ensures op[x] != y
      {
        assert ids[a..b][x - (a - s)] == op[x];
      }
    }
    forall z: nat | a <= z < b
      ensures BlockLoaded(r, ids, z, c0, chunks, lay, l)
    {
      assert FilledAt(r, chunks, op, z - s, lay, l);
      BlockIsLoaded(r, ids, s, b, z, c0, chunks, lay, l);
    }
  }

  // ---- the op in blocks and chunks ------------------------------------------------------

  function LoadOp(t: Tracker, g: Geometry): (op: LoadStoreOp)
    requires CanLoad(t, g)
    ensures op.skipFirstNTokens >= 0 && op.start <= op.end
  {
    RetrieveOpFits(t, g);
    RetrieveOpOf(t, g).1.value
  }

  /** The number, within the request, of the first chunk the op covers. */
  function FirstChunk(t: Tracker, g: Geometry): nat
    requires CanLoad(t, g)
  {
    LoadOp(t, g).start / g.chunkSize
  }

  /** How many keys the server derives from the op. */
  function ChunkTotal(t: Tracker, g: Geometry): nat
    requires CanLoad(t, g)
  {
    DivMono(LoadOp(t, g).start, LoadOp(t, g).end, g.chunkSize);
    LoadOp(t, g).end / g.chunkSize - LoadOp(t, g).start / g.chunkSize
  }

  function SkipBlocks(t: Tracker, g: Geometry): nat
    requires CanLoad(t, g)
  {
    LoadOp(t, g).skipFirstNTokens / g.blockSize
  }

  lemma LoadOpFits(t: Tracker, g: Geometry)
    requires CanLoad(t, g)
    ensures var op := LoadOp(t, g);
            && op.end == t.lmcacheHits && op.start <= op.end && op.start % g.chunkSize == 0
            && op.start / g.blockSize <= Local(t, g) <= Cached(t, g) <= |t.blockIds|
            && op.blockIds == t.blockIds[op.start / g.blockSize..Cached(t, g)]
            && SkipBlocks(t, g) < g.chunkSize / g.blockSize
            && op.start / g.blockSize + SkipBlocks(t, g) == Local(t, g)
  {
    hide RetrieveOpOf;
    RetrieveOpFits(t, g);
  }

  /** The op covers whole chunks of the block table, and its skip leads to the first block not computed locally. */
  lemma OpInChunks(t: Tracker, g: Geometry, lay: Layout)
    requires CanLoad(t, g) && SameChunks(g, lay)
    ensures var s := FirstChunk(t, g) * lay.perChunk;
            && lay.perChunk > 0 && 0 <= s <= Local(t, g) <= Cached(t, g) <= |t.blockIds|
            && LoadOp(t, g).blockIds == t.blockIds[s..Cached(t, g)]
            && Cached(t, g) == s + ChunkTotal(t, g) * lay.perChunk
            && SkipBlocks(t, g) < lay.perChunk && s + SkipBlocks(t, g) == Local(t, g)
  {
    hide LoadOp, Local, SkipBlocks;
    LoadOpFits(t, g);
    ChunksOfBlocks(g, LoadOp(t, g).start);
    ChunksOfBlocks(g, t.lmcacheHits);
    DivMono(LoadOp(t, g).start, LoadOp(t, g).end, g.chunkSize);
    Distribute(FirstChunk(t, g), t.lmcacheHits / g.chunkSize, lay.perChunk);
  }

  lemma Distribute(a: nat, b: nat, n: nat)
    requires a <= b
    ensures a * n + (b - a) * n == b * n
  {
  }

  /** The op names the tokens up to the cached hits, from the chunk of the first token not computed locally on. */
  lemma LoadOpNames(t: Tracker, g: Geometry)
    requires CanLoad(t, g) && t.lmcacheHits <= |t.tokenIds|
    ensures var op := LoadOp(t, g);
            && op.tokenIds == t.tokenIds[..t.lmcacheHits] && op.end == t.lmcacheHits
            && g.chunkSize > 0 && 0 <= op.start <= t.vllmHits < op.end
            && op.start % g.chunkSize == 0 && op.end % g.chunkSize == 0
  {
    hide RetrieveOpOf;
    RetrieveOpFits(t, g);
  }

  /**
   * The keys the server derives from the op's own fields are one per chunk of
   * the load, and they are the rank's looked-up keys of those chunks, in
   * order.
   */
  lemma LoadNamesItsChunks(t: Tracker, g: Geometry, h: Hash, tokens: seq<Token>, model: string, ws: nat, rank: nat)
    requires CanLoad(t, g) && rank < ws && t.lmcacheHits <= |t.tokenIds| && t.lmcacheHits <= |tokens|
    requires tokens[..t.lmcacheHits] == t.tokenIds[..t.lmcacheHits]
    ensures var (op, a, b) := (LoadOp(t, g), FirstChunk(t, g), FirstChunk(t, g) + ChunkTotal(t, g));
            var keys := LookupKeys(h, tokens, g.chunkSize, model, ws);
            var derived := OpKeys(h, op.tokenIds, op.start, op.end, g.chunkSize, model, rank);
            && op.tokenIds == t.tokenIds[..t.lmcacheHits] && b * ws <= |keys|
            && |derived| == ChunkTotal(t, g) && derived == RankSlice(keys, ws, rank, a, b)
  {
    hide LoadOp, LookupKeys, OpKeys;
    LoadOpNames(t, g);
    var op := LoadOp(t, g);
    assert t.tokenIds[..t.lmcacheHits][..op.end] == t.tokenIds[..t.lmcacheHits];
    OpKeysAreSlice(h, tokens, op.tokenIds, op.start, op.end, g.chunkSize, model, ws, rank);
  }

  // ---- what the load does to the tensors --------------------------------------------------

  /**
   * With one chunk per key of the op, whatever the bytes, exactly the blocks
   * of tokens [vllmHits, lmcacheHits) are written, each with its own block of
   * its own chunk. No block computed locally, of another request or past the
   * hits is touched.
   */
  lemma LoadTouchesOnlyTheGap(t: Tracker, g: Geometry, kv: Kv, chunks: seq<Blob>, lay: Layout, l: nat)
    requires CanLoad(t, g) && SameChunks(g, lay) && |chunks| == ChunkTotal(t, g)
    requires l < |kv| && IdsOk(t.blockIds, |kv[l]|)
    ensures lay.perChunk > 0 && Local(t, g) <= Cached(t, g) <= |t.blockIds|
    ensures GapLoaded(ScatterAll(kv, chunks, LoadOp(t, g).blockIds, SkipBlocks(t, g), lay, |chunks|), kv,
                      t.blockIds, Local(t, g), Cached(t, g), FirstChunk(t, g), chunks, lay, l)
  {
    hide LoadOp, FirstChunk, ChunkTotal, SkipBlocks, Local, Cached, SameChunks, ScatterAll, Filled, Untouched,
           GapLoaded;
    OpInChunks(t, g, lay);
    var s, ids := FirstChunk(t, g) * lay.perChunk, LoadOp(t, g).blockIds;
    assert NoDup(ids) && |ids| == |chunks| * lay.perChunk;
    hide CanLoad;
    ScatterAllEffect(kv, chunks, ids, SkipBlocks(t, g), lay, |chunks|, l);
    PartLoaded(ScatterAll(kv, chunks, ids, SkipBlocks(t, g), lay, |chunks|), kv, t.blockIds, s,
               Local(t, g), Cached(t, g), FirstChunk(t, g), chunks, lay, l);
  }

  /** The transfer of a RETRIEVE op. */
  function LoadJob(t: Tracker, g: Geometry, kv: Kv, chunks: seq<Blob>, lay: Layout): Pipeline.Job
    requires CanLoad(t, g)
  {
    Pipeline.Job(false, |chunks|, chunks, LoadOp(t, g).blockIds, SkipBlocks(t, g), lay, kv)
  }

  /** The same of the pipelined transfer, under every interleaving of the host and the two streams. */
  lemma PipelinedLoadTouchesOnlyTheGap(t: Tracker, g: Geometry, kv: Kv, chunks: seq<Blob>, lay: Layout, l: nat,
                                       ss: seq<Pipeline.State>, steps: seq<Pipeline.Step>, n: nat)
    requires CanLoad(t, g) && SameChunks(g, lay) && |chunks| == ChunkTotal(t, g)
    requires l < |kv| && IdsOk(t.blockIds, |kv[l]|)
    requires Pipeline.Run(LoadJob(t, g, kv, chunks, lay), ss, steps) && n < |ss|
    requires Pipeline.Finished(LoadJob(t, g, kv, chunks, lay), ss[n])
    ensures lay.perChunk > 0 && Local(t, g) <= Cached(t, g) <= |t.blockIds|
    ensures GapLoaded(ss[n].kv, kv, t.blockIds, Local(t, g), Cached(t, g), FirstChunk(t, g), chunks, lay, l)
  {
    hide LoadOp, FirstChunk, ChunkTotal, SkipBlocks, Local, Cached, SameChunks, CanLoad, ScatterAll, GapLoaded,
         Pipeline.Run, Pipeline.Finished;
    LoadTouchesOnlyTheGap(t, g, kv, chunks, lay, l);
    Pipeline.PipelineRefinesLoop(LoadJob(t, g, kv, chunks, lay), ss, steps, n);
  }

  /** The chunks are the ones that were read out of blocks a of the tensors `from`, by their numbers in the request. */
  ghost predicate ReadOut(chunks: seq<Blob>, from: Kv, a: seq<nat>, c0: nat, lay: Layout) {
    forall c :: 0 <= c < |chunks| ==> chunks[c] == Gather(from, ChunkIds(a, lay.perChunk, c0 + c))
  }

  /**
   * The point of the cache: when the chunks are those another request (or an
   * earlier one) read out of its own blocks, block z of the loading request
   * ends up as block z of that request was, for every z between local and
   * cached hits.
   */
  lemma LoadRestoresPrefix(t: Tracker, g: Geometry, kv: Kv, from: Kv, a: seq<nat>, blocks: nat, chunks: seq<Blob>,
                           lay: Layout, l: nat, z: nat)
    requires CanLoad(t, g) && SameChunks(g, lay) && |chunks| == ChunkTotal(t, g)
    requires l < |kv| && IdsOk(t.blockIds, |kv[l]|) && ReadOut(chunks, from, a, FirstChunk(t, g), lay)
    requires Shaped(from, lay, blocks) && l < lay.layers && IdsOk(a, blocks) && Cached(t, g) <= |a|
    requires Local(t, g) <= z < Cached(t, g)
    ensures var r := ScatterAll(kv, chunks, LoadOp(t, g).blockIds, SkipBlocks(t, g), lay, |chunks|);
            && z < |t.blockIds| && l < |r| && t.blockIds[z] < |r[l]|
            && r[l][t.blockIds[z]] == from[l][a[z]]
  {
    hide LoadOp, FirstChunk, ChunkTotal, SkipBlocks, Local, Cached, SameChunks, CanLoad, ScatterAll, BlockAt, Gather,
           Shaped;
    LoadTouchesOnlyTheGap(t, g, kv, chunks, lay, l);
    OpInChunks(t, g, lay);
    assert BlockLoaded(ScatterAll(kv, chunks, LoadOp(t, g).blockIds, SkipBlocks(t, g), lay, |chunks|), t.blockIds, z,
                       FirstChunk(t, g), chunks, lay, l);
    var n, c0 := lay.perChunk, FirstChunk(t, g);
    Distribute(c0, c0 + |chunks|, n);
    ChunkReach(z, n, c0 + |chunks|);
    IdsCut(a, n, z / n, blocks);
    GatherLayout(from, lay, blocks, ChunkIds(a, n, z / n), l, z % n);
    assert chunks[z / n - c0] == Gather(from, ChunkIds(a, n, c0 + (z / n - c0)));
  }

  lemma ChunkReach(z: nat, n: nat, c: nat)
    requires n > 0 && z < c * n
    ensures z / n < c && (z / n + 1) * n <= c * n && z == z / n * n + z % n && z / n * n + n == (z / n + 1) * n
  {
    if z / n >= c {
      MulMono(c, z / n, n);
    }
    MulMono(z / n + 1, c, n);
  }
}
