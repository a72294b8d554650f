// The transfer loops over the device tensors, in place, proved equal to the
// chunk-by-chunk gather and scatter.
module KVTransfer {
  import opened Types
  import opened Memory
  import opened Hasher
  import opened Transfer

  /** The tensors as a value: one row per layer, one entry per block. */
  ghost function View(kv: array2<Blob>): Kv
    reads kv
  {
    seq(kv.Length0, l requires 0 <= l < kv.Length0 reads kv =>
      seq(kv.Length1, b requires 0 <= b < kv.Length1 reads kv => kv[l, b]))
  }

  lemma CutSelect(layer: seq<Blob>, ids: seq<nat>, j: nat)
    requires j < |ids| && ids[j] < |layer|
    ensures Flatten(Select(layer, ids)[..j + 1]) == Flatten(Select(layer, ids)[..j]) + layer[ids[j]]
  {
    var s := Select(layer, ids);
    assert s[..j + 1][..j] == s[..j];
  }

  /** index_select of one layer into its part of the chunk buffer. */
  method IndexSelect(kv: array2<Blob>, layer: nat, ids: seq<nat>, n: nat, out: array<Byte>, base: nat)
    requires layer < kv.Length0 && IdsOk(ids, kv.Length1) && base + |ids| * n <= out.Length
    requires forall b :: 0 <= b < kv.Length1 ==> |kv[layer, b]| == n
    modifies out
    ensures out[base..base + |ids| * n] == Flatten(Select(View(kv)[layer], ids))
    ensures out[..base] == old(out[..base])
    ensures out[base + |ids| * n..] == old(out[base + |ids| * n..])
  {
    ghost var parts, rows, end := Select(View(kv)[layer], ids), View(kv)[layer], base + |ids| * n;
    ghost var was := out[..];
    var j, at := 0, base;
    while j < |ids|
      invariant j <= |ids| && at == base + j * n && base <= at <= end <= out.Length
      invariant View(kv)[layer] == rows
      invariant out[..base] == was[..base] && out[end..] == was[end..]
      invariant out[base..at] == Flatten(parts[..j])
    {
      Advance(base, |ids|, n, j);
      ghost var before := out[..];
      Fill(out, Slice(at, n), kv[layer, ids[j]]);
      FilledIs(before, out[..], at, n, rows[ids[j]]);
      Filled(before, out[..], base, at, n, end);
      CutSelect(rows, ids, j);
      j, at := j + 1, at + n;
    }
    assert parts[..|ids|] == parts;
  }

  lemma Advance(base: nat, parts: nat, n: nat, j: nat)
    requires j < parts
    ensures base + j * n + n == base + (j + 1) * n <= base + parts * n
  {
    PieceSize(parts * n, parts, n, j);
  }

  lemma FilledIs(before: seq<Byte>, after: seq<Byte>, at: nat, n: nat, data: Blob)
    requires |data| == n && at + n <= |before| && after == WriteSlice(before, Slice(at, n), data)
    ensures |after| == |before| && after[..at] == before[..at] && after[at..at + n] == data
              && after[at + n..] == before[at + n..]
  {
  }

  /** What one fill leaves of the ranges around it. */
  lemma Filled(before: seq<Byte>, after: seq<Byte>, base: nat, at: nat, n: nat, end: nat)
    requires base <= at <= at + n <= end <= |before| == |after|
    requires after[..at] == before[..at] && after[at + n..] == before[at + n..]
    ensures after[..base] == before[..base] && after[end..] == before[end..]
    ensures after[base..at + n] == before[base..at] + after[at..at + n]
  {
    assert after[..base] == after[..at][..base] && before[..base] == before[..at][..base];
    assert after[end..] == after[at + n..][end - at - n..] && before[end..] == before[at + n..][end - at - n..];
    assert after[base..at] == after[..at][base..] && before[base..at] == before[..at][base..];
  }

  ghost function Parts(kv: Kv, ids: seq<nat>): seq<Blob> {
    seq(|kv|, l requires 0 <= l < |kv| => Flatten(Select(kv[l], ids)))
  }

  /** Fills the staging buffer with one chunk, layer by layer. */
  method GatherChunk(kv: array2<Blob>, ids: seq<nat>, g: Layout, staging: array<Byte>)
    requires Shaped(View(kv), g, kv.Length1) && IdsOk(ids, kv.Length1) && |ids| == g.perChunk
    requires staging.Length == g.ChunkBytes()
    modifies staging
    ensures staging[..] == Gather(View(kv), ids)
  {
    hide Flatten, Select, Parts, View, Gather;
    ghost var rows := View(kv);
    ghost var parts := Parts(rows, ids);
    GatherIsFlat(rows, ids);
    var size := g.LayerBytes();
    var l, at := 0, 0;
    while l < g.layers
      invariant l <= g.layers && at == l * size && at <= staging.Length
      invariant View(kv) == rows
      invariant staging[..at] == Flatten(parts[..l])
    {
      Advance(0, g.layers, size, l);
      LayerSizes(kv, g, l);
      IndexSelect(kv, l, ids, g.blockBytes, staging, at);
      CutParts(rows, ids, l);
      assert staging[..at + size] == staging[..at] + staging[at..at + size];
      l, at := l + 1, at + size;
    }
    assert parts[..g.layers] == parts;
    assert staging[..staging.Length] == staging[..];
  }

  lemma GatherIsFlat(kv: Kv, ids: seq<nat>)
    ensures Gather(kv, ids) == Flatten(Parts(kv, ids)) && |Parts(kv, ids)| == |kv| && Flatten(Parts(kv, ids)[..0]) == []
  {
  }

  lemma CutParts(kv: Kv, ids: seq<nat>, l: nat)
    requires l < |kv|
    ensures Flatten(Parts(kv, ids)[..l + 1]) == Flatten(Parts(kv, ids)[..l]) + Flatten(Select(kv[l], ids))
  {
    var s := Parts(kv, ids);
    assert s[..l + 1][..l] == s[..l];
  }

  lemma LayerSizes(kv: array2<Blob>, g: Layout, l: nat)
    requires Shaped(View(kv), g, kv.Length1) && l < g.layers
    ensures l < kv.Length0 && forall b :: 0 <= b < kv.Length1 ==> |kv[l, b]| == g.blockBytes
  {
    forall b | 0 <= b < kv.Length1
      ensures |kv[l, b]| == g.blockBytes
    {
      assert View(kv)[l][b] == kv[l, b];
    }
  }

  /** Copies whole chunks of blocks out of the tensors. */
  method ToHost(kv: array2<Blob>, blockIds: seq<nat>, g: Layout) returns (chunks: seq<Blob>)
    requires g.perChunk > 0 && |blockIds| % g.perChunk == 0
    requires Shaped(View(kv), g, kv.Length1) && IdsOk(blockIds, kv.Length1)
    ensures chunks == GatherAll(View(kv), blockIds, g, |blockIds| / g.perChunk)
  {
    var staging := new Byte[g.ChunkBytes()];
    chunks := [];
    var nChunks := |blockIds| / g.perChunk;
    var i := 0;
    while i < nChunks
      invariant i <= nChunks && View(kv) == old(View(kv))
      invariant chunks == GatherAll(View(kv), blockIds, g, i)
    {
      WholeChunk(blockIds, g.perChunk, i);
      IdsCut(blockIds, g.perChunk, i, kv.Length1);
      var ids := ChunkIds(blockIds, g.perChunk, i);
      GatherChunk(kv, ids, g, staging);
      chunks := chunks + [staging[..]];
      i := i + 1;
    }
  }

  lemma WholeChunk(ids: seq<nat>, n: nat, i: nat)
    requires n > 0 && i < |ids| / n
    ensures (i + 1) * n <= |ids|
  {
    MulMono(i + 1, |ids| / n, n);
    assert |ids| == |ids| / n * n + |ids| % n;
  }

  lemma NothingScattered(row: seq<Blob>, bytes: Blob, ids: seq<nat>, skip: nat, n: nat)
    requires |ids| <= skip
    ensures ScatterLayer(row, bytes, ids, skip, n) == row
  {
  }

  /** One more block of the list is one more assignment. */
  lemma ScatterOne(row: seq<Blob>, bytes: Blob, ids: seq<nat>, skip: nat, n: nat, j: nat)
    requires skip <= j < |ids| && ids[j] < |row|
    ensures ScatterLayer(row, bytes, ids[..j + 1], skip, n) ==
              ScatterLayer(row, bytes, ids[..j], skip, n)[ids[j] := Piece(bytes, j, n)]
  {
    assert ids[..j + 1][..j] == ids[..j];
  }

  /** index_copy_ of the blocks ids[skip..] into one layer. */
  method IndexCopy(kv: array2<Blob>, layer: nat, ids: seq<nat>, skip: nat, bytes: Blob, n: nat)
    requires layer < kv.Length0 && IdsOk(ids, kv.Length1) && skip <= |ids|
    modifies kv
    ensures forall l, b :: 0 <= l < kv.Length0 && 0 <= b < kv.Length1 && l != layer ==> kv[l, b] == old(kv[l, b])
    ensures View(kv)[layer] == ScatterLayer(old(View(kv)[layer]), bytes, ids, skip, n)
  {
    hide ScatterLayer, Piece;
    ghost var row := View(kv)[layer];
    NothingScattered(row, bytes, ids[..skip], skip, n);
    var j := skip;
    while j < |ids|
      invariant skip <= j <= |ids|
      invariant forall l, b :: 0 <= l < kv.Length0 && 0 <= b < kv.Length1 && l != layer ==> kv[l, b] == old(kv[l, b])
      invariant View(kv)[layer] == ScatterLayer(row, bytes, ids[..j], skip, n)
    {
      ScatterOne(row, bytes, ids, skip, n, j);
      ghost var before := View(kv)[layer];
      kv[layer, ids[j]] := Piece(bytes, j, n);
      assert View(kv)[layer] == before[ids[j] := Piece(bytes, j, n)];
      j := j + 1;
    }
    assert ids[..|ids|] == ids;
  }

  /** Scatters one chunk into all layers. */
  method ScatterChunk(kv: array2<Blob>, chunk: Blob, ids: seq<nat>, skip: nat, g: Layout)
    requires IdsOk(ids, kv.Length1) && skip <= |ids| && kv.Length0 == g.layers
    modifies kv
    ensures View(kv) == Scatter(old(View(kv)), chunk, ids, skip, g)
  {
    ghost var was := View(kv);
    var layer := 0;
    while layer < g.layers
      invariant layer <= g.layers
      invariant View(kv) == ScatterUpTo(was, chunk, ids, skip, g, layer)
    {
      ghost var before := View(kv);
      IndexCopy(kv, layer, ids, skip, Piece(chunk, layer, g.LayerBytes()), g.blockBytes);
      assert forall l :: 0 <= l < |was| && l != layer ==> View(kv)[l] == before[l];
      assert before[layer] == was[layer];
      layer := layer + 1;
    }
  }

  /**
   * Scatters the chunks back, block lists longer than the chunks included,
   * leaving the first skipBlocks blocks of the first chunk untouched.
   */
  method FromHost(kv: array2<Blob>, chunks: seq<Blob>, blockIds: seq<nat>, skipBlocks: nat, g: Layout)
    requires g.perChunk > 0 && |blockIds| % g.perChunk == 0 && |chunks| * g.perChunk <= |blockIds|
               && skipBlocks <= g.perChunk
    requires kv.Length0 == g.layers && IdsOk(blockIds, kv.Length1)
    modifies kv
    ensures View(kv) == ScatterAll(old(View(kv)), chunks, blockIds, skipBlocks, g, |chunks|)
  {
    var i := 0;
    while i < |chunks|
      invariant i <= |chunks|
      invariant View(kv) == ScatterAll(old(View(kv)), chunks, blockIds, skipBlocks, g, i)
    {
      MulMono(i + 1, |chunks|, g.perChunk);
      assert (i + 1) * g.perChunk == i * g.perChunk + g.perChunk;
      IdsCut(blockIds, g.perChunk, i, kv.Length1);
      ScatterChunk(kv, chunks[i], ChunkIds(blockIds, g.perChunk, i), SkipOf(skipBlocks, i), g);
      i := i + 1;
    }
  }
}
