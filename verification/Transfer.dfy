// Moving KV blocks between the device tensors and chunk bytes: the byte
// layout of a chunk, and gathering and scattering chunk by chunk.
module Transfer {
  import opened Types
  import opened Hasher

  /** layers tensors, perChunk blocks of blockBytes bytes per chunk. */
  datatype Layout = Layout(layers: nat, perChunk: nat, blockBytes: nat) {
    function LayerBytes(): nat {
      perChunk * blockBytes
    }
    function ChunkBytes(): nat {
      layers * LayerBytes()
    }
  }

  /** The KV tensors by layer and block. */
  type Kv = seq<seq<Blob>>

  ghost predicate Shaped(kv: Kv, g: Layout, blocks: nat) {
    && |kv| == g.layers
    && (forall l :: 0 <= l < |kv| ==> |kv[l]| == blocks)
    && (forall l, b :: 0 <= l < |kv| && 0 <= b < |kv[l]| ==> |kv[l][b]| == g.blockBytes)
  }

  ghost predicate IdsOk(ids: seq<nat>, blocks: nat) {
    forall i :: 0 <= i < |ids| ==> ids[i] < blocks
  }

  // ---- byte layout -----------------------------------------------------------------

  function Flatten(parts: seq<Blob>): Blob {
    if parts == [] then [] else Flatten(parts[..|parts| - 1]) + parts[|parts| - 1]
  }

  /** The i-th part of n bytes; empty outside the blob. */
  function Piece(b: Blob, i: nat, n: nat): (r: Blob) {
    if 0 <= i * n <= i * n + n <= |b| then b[i * n..i * n + n] else []
  }

  lemma PieceOfFront(b: Blob, c: Blob, i: nat, n: nat)
    requires 0 <= i * n <= i * n + n <= |b|
    ensures Piece(b + c, i, n) == Piece(b, i, n)
  {
    var at := i * n;
    assert (b + c)[at..at + n] == b[at..at + n];
  }

  lemma PieceOfBack(b: Blob, c: Blob, i: nat, n: nat)
    requires |b| == i * n && |c| == n
    ensures Piece(b + c, i, n) == c
  {
    assert (b + c)[|b|..|b| + n] == c;
  }

  lemma {:induction false} FlattenPiece(parts: seq<Blob>, n: nat, i: nat)
    requires forall k :: 0 <= k < |parts| ==> |parts[k]| == n
    ensures |Flatten(parts)| == |parts| * n
    ensures i < |parts| ==> Piece(Flatten(parts), i, n) == parts[i]
  {
    hide Piece;
    if parts != [] {
      var m := |parts| - 1;
      var init := parts[..m];
      FlattenPiece(init, n, i);
      NextRange(n, m);
      if i < m {
        PieceSize(m * n, m, n, i);
        PieceOfFront(Flatten(init), parts[m], i, n);
      } else if i == m {
        PieceOfBack(Flatten(init), parts[m], i, n);
      }
    }
  }

  function Select(layer: seq<Blob>, ids: seq<nat>): (r: seq<Blob>)
    ensures |r| == |ids|
  {
    seq(|ids|, i requires 0 <= i < |ids| => if ids[i] < |layer| then layer[ids[i]] else [])
  }

  /** One chunk: layer after layer, in each layer the blocks in the order of ids. */
  function Gather(kv: Kv, ids: seq<nat>): Blob {
    Flatten(seq(|kv|, l requires 0 <= l < |kv| => Flatten(Select(kv[l], ids))))
  }

  /** The bytes of block j of layer l in a chunk. */
  function BlockAt(chunk: Blob, g: Layout, l: nat, j: nat): Blob {
    Piece(Piece(chunk, l, g.LayerBytes()), j, g.blockBytes)
  }

  /** The chunk has the registered size, and its blocks are where the layout says. */
  lemma GatherLayout(kv: Kv, g: Layout, blocks: nat, ids: seq<nat>, l: nat, j: nat)
    requires Shaped(kv, g, blocks) && IdsOk(ids, blocks) && |ids| == g.perChunk
    ensures |Gather(kv, ids)| == g.ChunkBytes()
    ensures l < g.layers && j < g.perChunk ==> BlockAt(Gather(kv, ids), g, l, j) == kv[l][ids[j]]
  {
    var parts := seq(|kv|, l requires 0 <= l < |kv| => Flatten(Select(kv[l], ids)));
    forall k | 0 <= k < |parts|
      ensures |parts[k]| == g.LayerBytes()
    {
      FlattenPiece(Select(kv[k], ids), g.blockBytes, j);
    }
    FlattenPiece(parts, g.LayerBytes(), l);
    if l < g.layers {
      FlattenPiece(Select(kv[l], ids), g.blockBytes, j);
    }
  }

  // ---- scatter -----------------------------------------------------------------------

  /** The position from skip on at which block b is written. */
  function Place(ids: seq<nat>, b: nat, skip: nat): (r: Option<nat>)
    ensures r.Some? ==> skip <= r.value < |ids| && ids[r.value] == b
    ensures r.None? ==> forall j :: skip <= j < |ids| ==> ids[j] != b
  {
    if |ids| <= skip then None
    else if ids[|ids| - 1] == b then Some(|ids| - 1)
    else Place(ids[..|ids| - 1], b, skip)
  }

  function ScatterLayer(layer: seq<Blob>, bytes: Blob, ids: seq<nat>, skip: nat, n: nat): (r: seq<Blob>)
    ensures |r| == |layer|
  {
    seq(|layer|, b requires 0 <= b < |layer| =>
      match Place(ids, b, skip)
      case Some(j) => Piece(bytes, j, n)
      case None => layer[b])
  }

  /** The first `upTo` layers get the blocks ids[skip..] of the chunk. */
  function ScatterUpTo(kv: Kv, chunk: Blob, ids: seq<nat>, skip: nat, g: Layout, upTo: nat): (r: Kv)
    ensures |r| == |kv|
  {
    seq(|kv|, l requires 0 <= l < |kv| =>
      if l < upTo then ScatterLayer(kv[l], Piece(chunk, l, g.LayerBytes()), ids, skip, g.blockBytes) else kv[l])
  }

  function Scatter(kv: Kv, chunk: Blob, ids: seq<nat>, skip: nat, g: Layout): Kv {
    ScatterUpTo(kv, chunk, ids, skip, g, |kv|)
  }

  function ChunkIds(ids: seq<nat>, n: nat, i: nat): seq<nat> {
    if 0 <= i * n <= i * n + n <= |ids| then ids[i * n..i * n + n] else []
  }

  /** Only the first chunk has blocks to skip. */
  function SkipOf(skip: nat, i: nat): nat {
    if i == 0 then skip else 0
  }

  /** What scattering the first n chunks one after the other leaves in the tensors. */
  function ScatterAll(kv: Kv, chunks: seq<Blob>, ids: seq<nat>, skip: nat, g: Layout, n: nat): Kv
    requires n <= |chunks|
  {
    if n == 0 then kv
    else Scatter(ScatterAll(kv, chunks, ids, skip, g, n - 1), chunks[n - 1], ChunkIds(ids, g.perChunk, n - 1),
        SkipOf(skip, n - 1), g)
  }

  function GatherAll(kv: Kv, ids: seq<nat>, g: Layout, n: nat): (r: seq<Blob>)
    ensures |r| == n
  {
    seq(n, i requires 0 <= i < n => Gather(kv, ChunkIds(ids, g.perChunk, i)))
  }

  // ---- what a whole scatter changes ----------------------------------------------------------

  lemma PieceSize(total: nat, parts: nat, n: nat, i: nat)
    requires total == parts * n && i < parts
    ensures 0 <= i * n <= i * n + n <= total
  {
    MulMono(i + 1, parts, n);
    assert (i + 1) * n == i * n + n;
  }

  lemma NextRange(n: nat, i: nat)
    ensures (i + 1) * n == i * n + n && (i > 0 ==> i * n >= n)
    ensures i == 0 ==> i * n == 0
  {
    if i > 0 {
      MulMono(1, i, n);
    }
  }

  lemma IdsCut(ids: seq<nat>, n: nat, i: nat, blocks: nat)
    requires IdsOk(ids, blocks) && (i + 1) * n <= |ids|
    ensures |ChunkIds(ids, n, i)| == n && IdsOk(ChunkIds(ids, n, i), blocks)
  {
    assert (i + 1) * n == i * n + n;
  }

  lemma PlaceIs(ids: seq<nat>, j: nat, skip: nat)
    requires NoDup(ids) && skip <= j < |ids|
    ensures Place(ids, ids[j], skip) == Some(j)
  {
  }

  /** Position x of a block list is block x % n of chunk x / n. */
  lemma PositionIs(x: nat, n: nat, i: nat, j: nat)
    requires n > 0 && j < n && x == i * n + j
    ensures x / n == i && x % n == j
  {
    assert x == x / n * n + x % n;
    if x / n < i {
      MulMono(x / n + 1, i, n);
    } else if x / n > i {
      MulMono(i + 1, x / n, n);
    }
  }

  /** The block at position x of the list holds its piece of the chunks. */
  ghost predicate FilledAt(r: Kv, chunks: seq<Blob>, ids: seq<nat>, x: nat, g: Layout, l: nat)
    requires g.perChunk > 0 && x < |ids| && l < |r|
  {
    x / g.perChunk < |chunks| && ids[x] < |r[l]|
        && r[l][ids[x]] == BlockAt(chunks[x / g.perChunk], g, l, x % g.perChunk)
  }

  /** Blocks ids[skip..end] of layer l hold their pieces of the chunks. */
  ghost predicate Filled(r: Kv, chunks: seq<Blob>, ids: seq<nat>, skip: nat, end: nat, g: Layout, l: nat)
    requires g.perChunk > 0 && end <= |ids| && l < |r|
  {
    forall x: nat :: skip <= x < end ==> FilledAt(r, chunks, ids, x, g, l)
  }

  /** Every block not listed from skip on is as before. */
  ghost predicate Untouched(r: Kv, to: Kv, ids: seq<nat>, skip: nat, end: nat, l: nat)
    requires end <= |ids| && l < |r| && l < |to|
  {
    |r[l]| == |to[l]| && forall y: nat :: y < |r[l]| && (forall x :: skip <= x < end ==> ids[x] != y) ==>
        r[l][y] == to[l][y]
  }

  /** One chunk: its blocks from `first` on are written, all others left alone. */
  lemma ScatterEffect(q: Kv, chunk: Blob, targets: seq<nat>, first: nat, g: Layout, l: nat)
    requires l < |q| && IdsOk(targets, |q[l]|) && NoDup(targets)
    ensures var r := Scatter(q, chunk, targets, first, g);
            && |r| == |q| && |r[l]| == |q[l]|
            && (forall j: nat :: first <= j < |targets| ==> r[l][targets[j]] == BlockAt(chunk, g, l, j))
            && (forall y: nat :: y < |q[l]| && (forall j :: first <= j < |targets| ==> targets[j] != y) ==>
               r[l][y] == q[l][y])
  {
    hide Piece;
    var r := Scatter(q, chunk, targets, first, g);
    forall j: nat | first <= j < |targets|
      ensures r[l][targets[j]] == BlockAt(chunk, g, l, j)
    {
      PlaceIs(targets, j, first);
    }
    forall y: nat | y < |q[l]| && forall j :: first <= j < |targets| ==> targets[j] != y
      ensures r[l][y] == q[l][y]
    {
      assert Place(targets, y, first).None?;
    }
  }

  lemma FilledNow(r: Kv, chunks: seq<Blob>, ids: seq<nat>, i: nat, j: nat, x: nat, g: Layout, l: nat)
    requires i < |chunks| && j < g.perChunk && x == i * g.perChunk + j && x < |ids|
    requires l < |r| && ids[x] < |r[l]| && r[l][ids[x]] == BlockAt(chunks[i], g, l, j)
    ensures FilledAt(r, chunks, ids, x, g, l)
  {
    PositionIs(x, g.perChunk, i, j);
  }

  lemma FilledStill(q: Kv, r: Kv, chunks: seq<Blob>, ids: seq<nat>, x: nat, g: Layout, l: nat)
    requires g.perChunk > 0 && x < |ids| && l < |q| && l < |r| && |r[l]| == |q[l]| && FilledAt(q, chunks, ids, x, g, l)
    requires r[l][ids[x]] == q[l][ids[x]]
    ensures FilledAt(r, chunks, ids, x, g, l)
  {
  }

  /** One more chunk, the blocks at positions [start, end). */
  lemma ScatterStep(q: Kv, r: Kv, to: Kv, chunks: seq<Blob>, ids: seq<nat>, targets: seq<nat>, skip: nat, i: nat,
                    start: nat, end: nat,
                    first: nat, g: Layout, l: nat)
    requires g.perChunk > 0 && NoDup(ids) && i < |chunks| && start == i * g.perChunk && end == start + g.perChunk
    requires if start == 0 then first == skip else first == 0 && skip <= start
    requires end <= |ids| && targets == ids[start..end]
    requires l < |q| && l < |r| && l < |to| && |q[l]| == |r[l]| == |to[l]| && IdsOk(ids, |q[l]|)
    requires Filled(q, chunks, ids, skip, start, g, l) && Untouched(q, to, ids, skip, start, l)
    requires forall j: nat :: first <= j < |targets| ==> r[l][targets[j]] == BlockAt(chunks[i], g, l, j)
    requires forall y: nat :: y < |q[l]| && (forall j :: first <= j < |targets| ==> targets[j] != y) ==>
               r[l][y] == q[l][y]
    ensures Filled(r, chunks, ids, skip, end, g, l) && Untouched(r, to, ids, skip, end, l)
  {
    hide BlockAt, FilledAt;
    forall x: nat | skip <= x < end
      ensures FilledAt(r, chunks, ids, x, g, l)
    {
      if x >= start {
        assert targets[x - start] == ids[x];
        FilledNow(r, chunks, ids, i, x - start, x, g, l);
      } else {
        assert forall j :: first <= j < |targets| ==> targets[j] == ids[start + j] != ids[x];
        FilledStill(q, r, chunks, ids, x, g, l);
      }
    }
    forall y: nat | y < |r[l]| && forall x :: skip <= x < end ==> ids[x] != y
      ensures r[l][y] == to[l][y]
    {
      assert forall x :: skip <= x < start ==> ids[x] != y;
      assert forall j :: first <= j < |targets| ==> targets[j] == ids[start + j] != y;
    }
  }

  /**
   * Scattering n chunks to distinct blocks, whatever their bytes: in every
   * layer the blocks listed from the skip on hold their pieces of the chunks,
   * and every other block is as it was.
   */
  lemma {:induction false} ScatterAllEffect(kv: Kv, chunks: seq<Blob>, ids: seq<nat>, skip: nat, g: Layout, n: nat,
                                            l: nat)
    requires g.perChunk > 0 && n <= |chunks| && n * g.perChunk <= |ids| && skip <= g.perChunk
    requires l < |kv| && IdsOk(ids, |kv[l]|) && NoDup(ids)
    ensures var r := ScatterAll(kv, chunks, ids, skip, g, n);
            && |r| == |kv| && |r[l]| == |kv[l]|
            && Filled(r, chunks, ids, skip, n * g.perChunk, g, l) && Untouched(r, kv, ids, skip, n * g.perChunk, l)
    decreases n
  {
    hide Scatter, Filled, Untouched, BlockAt;
    if n == 0 {
      NothingFilled(kv, chunks, ids, skip, g, l);
    } else {
      var i := n - 1;
      NextRange(g.perChunk, i);
      ScatterAllEffect(kv, chunks, ids, skip, g, i, l);
      var q := ScatterAll(kv, chunks, ids, skip, g, i);
      var targets := ChunkIds(ids, g.perChunk, i);
      IdsCut(ids, g.perChunk, i, |kv[l]|);
      assert NoDup(targets);
      ScatterEffect(q, chunks[i], targets, SkipOf(skip, i), g, l);
      ScatterStep(q, Scatter(q, chunks[i], targets, SkipOf(skip, i), g), kv, chunks, ids, targets, skip, i,
          i * g.perChunk, n * g.perChunk,
                  SkipOf(skip, i), g, l);
    }
  }

  lemma NothingFilled(kv: Kv, chunks: seq<Blob>, ids: seq<nat>, skip: nat, g: Layout, l: nat)
    requires g.perChunk > 0 && l < |kv|
    ensures 0 * g.perChunk == 0 && Filled(kv, chunks, ids, skip, 0, g, l) && Untouched(kv, kv, ids, skip, 0, l)
  {
  }

  // ---- round trip -------------------------------------------------------------------------

  /** The piece at position x of what was read out is the old block a[x]. */
  lemma GatheredPiece(from: Kv, a: seq<nat>, m: nat, g: Layout, blocks: nat, l: nat, x: nat)
    requires g.perChunk > 0 && Shaped(from, g, blocks) && l < g.layers && IdsOk(a, blocks) && x < |a| == m * g.perChunk
    ensures x / g.perChunk < m && BlockAt(GatherAll(from, a, g, m)[x / g.perChunk], g, l, x % g.perChunk) ==
              from[l][a[x]]
  {
    hide BlockAt, Gather;
    var n := g.perChunk;
    var i, j := x / n, x % n;
    assert x == i * n + j;
    if i >= m {
      MulMono(m, i, n);
    }
    PieceSize(|a|, m, n, i);
    IdsCut(a, n, i, blocks);
    GatherLayout(from, g, blocks, ChunkIds(a, n, i), l, j);
  }

  /**
   * Reading out blocks a and scattering them to distinct blocks b makes, in
   * every layer, block b[x] equal to the old block a[x] for all positions
   * x >= skip, and changes no other block.
   */
  lemma RoundTrip(to: Kv, from: Kv, a: seq<nat>, b: seq<nat>, skip: nat, m: nat, g: Layout, blocks: nat, l: nat)
    requires g.perChunk > 0 && Shaped(to, g, blocks) && Shaped(from, g, blocks) && l < g.layers
    requires |a| == |b| == m * g.perChunk && IdsOk(a, blocks) && IdsOk(b, blocks) && NoDup(b) && skip <= g.perChunk
    ensures var r := ScatterAll(to, GatherAll(from, a, g, m), b, skip, g, m);
            && |r| == g.layers && |r[l]| == |to[l]|
            && (forall x :: skip <= x < |b| ==> r[l][b[x]] == from[l][a[x]])
            && (forall x :: 0 <= x < skip && x < |b| ==> r[l][b[x]] == to[l][b[x]])
            && (forall y: nat :: y < |to[l]| && y !in b ==> r[l][y] == to[l][y])
  {
    hide ScatterAll, GatherAll, BlockAt;
    var chunks := GatherAll(from, a, g, m);
    ScatterAllEffect(to, chunks, b, skip, g, m, l);
    var r := ScatterAll(to, chunks, b, skip, g, m);
    forall x | skip <= x < |b|
      ensures r[l][b[x]] == from[l][a[x]]
    {
      GatheredPiece(from, a, m, g, blocks, l, x);
      assert FilledAt(r, chunks, b, x, g, l);
    }
    forall x | 0 <= x < skip && x < |b|
      ensures r[l][b[x]] == to[l][b[x]]
    {
      assert forall z :: skip <= z < |b| ==> b[z] != b[x];
    }
    forall y: nat | y < |to[l]| && y !in b
      ensures r[l][y] == to[l][y]
    {
      assert forall z :: skip <= z < |b| ==> b[z] != y;
    }
  }
}
