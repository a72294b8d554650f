// How the server turns token lists into chunk keys and interleaves the ranks
// of a deployment, for lookups and for the ops of one rank.
module Server {
  import opened Types
  import opened Hasher

  function RankKeys(hash: seq<Byte>, model: string, ranks: seq<nat>): (r: seq<ChunkKey>)
    ensures |r| == |ranks| && forall i :: 0 <= i < |ranks| ==> r[i] == ChunkKey(hash, model, ranks[i])
  {
    seq(|ranks|, i requires 0 <= i < |ranks| => ChunkKey(hash, model, ranks[i]))
  }

  /** All ranks of the first chunk, then all ranks of the second, and so on. */
  function KeysFor(hashes: seq<Digest>, model: string, ranks: seq<nat>): (r: seq<ChunkKey>)
    ensures |r| == |hashes| * |ranks|
  {
    if hashes == [] then []
    else
      var n := |hashes| - 1;
      assert |hashes| * |ranks| == n * |ranks| + |ranks|;
      KeysFor(hashes[..n], model, ranks) + RankKeys(hashes[n], model, ranks)
  }

  /** The key of chunk c and the r-th rank is at index c * world size + r. */
  lemma {:induction false} KeyAt(hashes: seq<Digest>, model: string, ranks: seq<nat>, c: nat, r: nat)
    requires c < |hashes| && r < |ranks|
    ensures 0 <= c * |ranks| + r < |KeysFor(hashes, model, ranks)|
    ensures KeysFor(hashes, model, ranks)[c * |ranks| + r] == ChunkKey(hashes[c], model, ranks[r])
  {
    var n := |hashes| - 1;
    assert |hashes| * |ranks| == n * |ranks| + |ranks|;
    MulMono(c, n, |ranks|);
    if c < n {
      KeyAt(hashes[..n], model, ranks, c, r);
    }
  }

  /** Every index is of that form. */
  lemma Interleaved(i: nat, ws: nat)
    requires ws > 0
    ensures i == (i / ws) * ws + i % ws && i % ws < ws
  {
  }

  lemma IndexUnique(a: nat, r: nat, b: nat, s: nat, ws: nat)
    requires r < ws && s < ws && a * ws + r == b * ws + s
    ensures a == b && r == s
  {
    if a < b {
      MulMono(a + 1, b, ws);
    } else if b < a {
      MulMono(b + 1, a, ws);
    }
  }

  function AllRanks(ws: nat): (r: seq<nat>)
    ensures |r| == ws && forall i :: 0 <= i < ws ==> r[i] == i
  {
    seq(ws, i requires 0 <= i < ws => i)
  }

  /** What LOOKUP asks for: every rank of every whole chunk of the tokens. */
  function LookupKeys(h: Hash, tokens: seq<Token>, n: nat, model: string, ws: nat): seq<ChunkKey>
    requires n > 0
  {
    KeysFor(ChainList(h, tokens, n), model, AllRanks(ws))
  }

  function Cut<T>(s: seq<T>, e: nat): seq<T> {
    if e <= |s| then s[..e] else s
  }

  function From<T>(s: seq<T>, b: nat): seq<T> {
    if b <= |s| then s[b..] else []
  }

  /** The keys one rank's load or store op covers. */
  function OpKeys(h: Hash, tokens: seq<Token>, start: nat, end: nat, n: nat, model: string, rank: nat): seq<ChunkKey>
    requires n > 0
  {
    KeysFor(From(ChainList(h, Cut(tokens, end), n), start / n), model, [rank])
  }

  /** QUERY's answer: whole chunks that all ranks have, in tokens. */
  function Answer(hits: nat, ws: nat, n: nat): (r: nat)
    requires ws > 0
  {
    hits / ws * n
  }

  // ---- op keys are a rank's slice of the lookup keys -------------------------------------

  /** The keys of chunks [a, b) of one rank, read off an interleaved list. */
  function RankSlice(keys: seq<ChunkKey>, ws: nat, rank: nat, a: nat, b: nat): (r: seq<ChunkKey>)
    requires a <= b && rank < ws && b * ws <= |keys|
    ensures |r| == b - a
  {
    seq(b - a, i requires 0 <= i < b - a => (SliceInRange(ws, rank, a, b, i); keys[(a + i) * ws + rank]))
  }

  lemma SliceInRange(ws: nat, rank: nat, a: nat, b: nat, i: nat)
    requires rank < ws && i < b - a
    ensures 0 <= (a + i) * ws + rank < b * ws
  {
    MulMono(a + i + 1, b, ws);
    assert (a + i + 1) * ws == (a + i) * ws + ws;
  }

  lemma KeysOfOneRank(hashes: seq<Digest>, model: string, rank: nat, i: nat)
    requires i < |hashes|
    ensures |KeysFor(hashes, model, [rank])| == |hashes|
    ensures KeysFor(hashes, model, [rank])[i] == ChunkKey(hashes[i], model, rank)
  {
    KeyAt(hashes, model, [rank], i, 0);
  }

  /**
   * A rank's op over a chunk-aligned range [start, end) of tokens that agree
   * with the looked-up ones up to end covers exactly that rank's keys of those
   * chunks, in order.
   */
  lemma OpKeysAreSlice(h: Hash, tokens: seq<Token>, all: seq<Token>, start: nat, end: nat, n: nat, model: string,
                       ws: nat, rank: nat)
    requires n > 0 && rank < ws && start <= end <= |tokens| && end <= |all| && start % n == 0 && end % n == 0
    requires tokens[..end] == all[..end]
    ensures start / n <= end / n && end / n * ws <= |LookupKeys(h, tokens, n, model, ws)|
    ensures OpKeys(h, all, start, end, n, model, rank) ==
              RankSlice(LookupKeys(h, tokens, n, model, ws), ws, rank, start / n, end / n)
  {
    hide ChainList, KeysFor, Chunks;
    var keys := LookupKeys(h, tokens, n, model, ws);
    var a, b := start / n, end / n;
    CutHashes(h, tokens, n, end);
    DivMono(start, end, n);
    ChunkCount(h, tokens, n);
    MulMono(b, |tokens| / n, ws);
    var hashes := ChainList(h, tokens, n);
    var mine := From(ChainList(h, Cut(all, end), n), a);
    assert mine == hashes[..b][a..] == hashes[a..b];
    OpsAreSlice(hashes, model, ws, rank, a, b);
  }

  lemma ChunkCount(h: Hash, tokens: seq<Token>, n: nat)
    requires n > 0
    ensures |ChainList(h, tokens, n)| == |tokens| / n
  {
    ChunksIs(tokens, n);
  }

  lemma OpsAreSlice(hashes: seq<Digest>, model: string, ws: nat, rank: nat, a: nat, b: nat)
    requires a <= b <= |hashes| && rank < ws && b * ws <= |hashes| * ws
    ensures KeysFor(hashes[a..b], model, [rank]) == RankSlice(KeysFor(hashes, model, AllRanks(ws)), ws, rank, a, b)
  {
    hide KeysFor;
    var mine, keys := hashes[a..b], KeysFor(hashes, model, AllRanks(ws));
    var ops := KeysFor(mine, model, [rank]);
    forall i | 0 <= i < b - a
      ensures |ops| == b - a && ops[i] == RankSlice(keys, ws, rank, a, b)[i]
    {
      KeysOfOneRank(mine, model, rank, i);
      SliceInRange(ws, rank, a, b, i);
      KeyAt(hashes, model, AllRanks(ws), a + i, rank);
    }
    if a == b {
      NoKeys(mine, model, rank);
    }
  }

  lemma NoKeys(hashes: seq<Digest>, model: string, rank: nat)
    requires hashes == []
    ensures KeysFor(hashes, model, [rank]) == []
  {
  }

  lemma AnswerChunks(hits: nat, ws: nat, n: nat)
    requires ws > 0 && n > 0
    ensures Answer(hits, ws, n) % n == 0 && Answer(hits, ws, n) / n == hits / ws && hits / ws * ws <= hits
  {
    var q := hits / ws;
    assert q * n == n * q;
    DivMul(q, n);
  }

  lemma DivMul(q: nat, n: nat)
    requires n > 0
    ensures q * n / n == q && q * n % n == 0
  {
    var d, m := q * n / n, q * n % n;
    assert q * n == d * n + m;
    if d < q {
      MulMono(d + 1, q, n);
    } else if d > q {
      MulMono(q + 1, d, n);
    }
  }

  /** What is advertised for hits of the looked-up keys does not exceed the tokens looked up. */
  lemma AnswerFits(h: Hash, tokens: seq<Token>, n: nat, model: string, ws: nat, hits: nat)
    requires n > 0 && ws > 0 && hits <= |LookupKeys(h, tokens, n, model, ws)|
    ensures Answer(hits, ws, n) <= |tokens|
  {
    hide KeysFor;
    var c := Chunks(tokens, n);
    HitsInChunks(c, ws, hits);
    MulMono(hits / ws, c, n);
    ChunksIs(tokens, n);
  }

  lemma HitsInChunks(c: nat, ws: nat, hits: nat)
    requires ws > 0 && hits <= c * ws
    ensures hits / ws <= c
  {
    DivMono(hits, c * ws, ws);
    DivMul(c, ws);
  }

  /** Every rank's op that ends at the advertised boundary stays within the first `hits` looked-up keys. */
  lemma OpWithinHits(h: Hash, tokens: seq<Token>, all: seq<Token>, start: nat, n: nat, model: string, ws: nat,
                     rank: nat, hits: nat)
    requires n > 0 && rank < ws && hits <= |LookupKeys(h, tokens, n, model, ws)|
    requires start % n == 0 && start <= Answer(hits, ws, n) <= |all| && Answer(hits, ws, n) <= |tokens|
    requires tokens[..Answer(hits, ws, n)] == all[..Answer(hits, ws, n)]
    ensures forall k :: k in OpKeys(h, all, start, Answer(hits, ws, n), n, model, rank) ==>
              k in LookupKeys(h, tokens, n, model, ws)[..hits]
  {
    hide LookupKeys, OpKeys, Answer;
    var end := Answer(hits, ws, n);
    AnswerChunks(hits, ws, n);
    OpKeysAreSlice(h, tokens, all, start, end, n, model, ws, rank);
    SliceWithin(LookupKeys(h, tokens, n, model, ws), ws, rank, start / n, end / n, hits);
  }

  lemma SliceWithin(keys: seq<ChunkKey>, ws: nat, rank: nat, a: nat, b: nat, cut: nat)
    requires a <= b && rank < ws && b * ws <= cut <= |keys|
    ensures forall k :: k in RankSlice(keys, ws, rank, a, b) ==> k in keys[..cut]
  {
    forall i | 0 <= i < b - a
      ensures RankSlice(keys, ws, rank, a, b)[i] in keys[..cut]
    {
      SliceInRange(ws, rank, a, b, i);
      assert keys[..cut][(a + i) * ws + rank] == keys[(a + i) * ws + rank];
    }
  }

  /** All ranks' keys of the first e tokens are among the hits. */
  ghost predicate AllRanksHave(h: Hash, tokens: seq<Token>, e: nat, n: nat, model: string, ws: nat, hits: nat)
    requires n > 0 && hits <= |LookupKeys(h, tokens, n, model, ws)|
  {
    forall rank, k :: 0 <= rank < ws && k in OpKeys(h, tokens, 0, e, n, model, rank) ==>
      k in LookupKeys(h, tokens, n, model, ws)[..hits]
  }

  /** QUERY's answer is the largest number of whole chunks' tokens that all ranks have: that many and no more. */
  lemma AnswerIsLargest(h: Hash, tokens: seq<Token>, e: nat, n: nat, model: string, ws: nat, hits: nat)
    requires n > 0 && ws > 0 && e % n == 0 && e <= |tokens|
    requires hits <= |LookupKeys(h, tokens, n, model, ws)| && NoDup(LookupKeys(h, tokens, n, model, ws))
    ensures AllRanksHave(h, tokens, e, n, model, ws, hits) <==> e <= Answer(hits, ws, n)
  {
    hide LookupKeys, OpKeys, Answer;
    if e <= Answer(hits, ws, n) {
      forall rank, k | 0 <= rank < ws && k in OpKeys(h, tokens, 0, e, n, model, rank)
        ensures k in LookupKeys(h, tokens, n, model, ws)[..hits]
      {
        WithinAnswer(h, tokens, e, n, model, ws, rank, hits);
      }
    } else {
      BeyondAnswer(h, tokens, e, n, model, ws, hits);
    }
  }

  lemma WithinAnswer(h: Hash, tokens: seq<Token>, e: nat, n: nat, model: string, ws: nat, rank: nat, hits: nat)
    requires n > 0 && rank < ws && e % n == 0 && e <= |tokens| && e <= Answer(hits, ws, n)
    requires hits <= |LookupKeys(h, tokens, n, model, ws)|
    ensures forall k :: k in OpKeys(h, tokens, 0, e, n, model, rank) ==>
              k in LookupKeys(h, tokens, n, model, ws)[..hits]
  {
    hide LookupKeys, OpKeys, Answer;
    AnswerChunks(hits, ws, n);
    DivMono(e, Answer(hits, ws, n), n);
    MulMono(e / n, hits / ws, ws);
    DivMul(0, n);
    OpKeysAreSlice(h, tokens, tokens, 0, e, n, model, ws, rank);
    SliceWithin(LookupKeys(h, tokens, n, model, ws), ws, rank, 0, e / n, hits);
  }

  /** The first key that is not a hit belongs to the chunk behind the answer. */
  lemma BeyondAnswer(h: Hash, tokens: seq<Token>, e: nat, n: nat, model: string, ws: nat, hits: nat)
    requires n > 0 && ws > 0 && e % n == 0 && e <= |tokens| && e > Answer(hits, ws, n)
    requires hits <= |LookupKeys(h, tokens, n, model, ws)| && NoDup(LookupKeys(h, tokens, n, model, ws))
    ensures !AllRanksHave(h, tokens, e, n, model, ws, hits)
  {
    hide LookupKeys, OpKeys;
    var keys, c, rank := LookupKeys(h, tokens, n, model, ws), hits / ws, hits % ws;
    Interleaved(hits, ws);
    if e / n <= c {
      MulMono(e / n, c, n);
    }
    DivMul(0, n);
    OpKeysAreSlice(h, tokens, tokens, 0, e, n, model, ws, rank);
    SliceInRange(ws, rank, 0, e / n, c);
    assert RankSlice(keys, ws, rank, 0, e / n)[c] == keys[hits];
    assert keys[hits] in OpKeys(h, tokens, 0, e, n, model, rank) && keys[hits] !in keys[..hits];
  }

  lemma SliceNoDup(keys: seq<ChunkKey>, ws: nat, rank: nat, a: nat, b: nat)
    requires NoDup(keys) && a <= b && rank < ws && b * ws <= |keys|
    ensures NoDup(RankSlice(keys, ws, rank, a, b))
  {
    var r := RankSlice(keys, ws, rank, a, b);
    forall i, j | 0 <= i < j < |r|
      ensures r[i] != r[j]
    {
      SliceInRange(ws, rank, a, b, i);
      SliceInRange(ws, rank, a, b, j);
      MulMono(a + i + 1, a + j, ws);
    }
  }

  /** Keys of different chunks or ranks differ when the chunk hashes do. */
  lemma KeysNoDup(hashes: seq<Digest>, model: string, ws: nat)
    requires NoDup(hashes)
    ensures NoDup(KeysFor(hashes, model, AllRanks(ws)))
  {
    var keys := KeysFor(hashes, model, AllRanks(ws));
    hide KeysFor;
    forall i, j | 0 <= i < j < |keys|
      ensures keys[i] != keys[j]
    {
      KeyOf(hashes, model, ws, i);
      KeyOf(hashes, model, ws, j);
      Interleaved(i, ws);
      Interleaved(j, ws);
    }
  }

  lemma KeyOf(hashes: seq<Digest>, model: string, ws: nat, i: nat)
    requires i < |hashes| * ws
    ensures ws > 0 && i / ws < |hashes| && |KeysFor(hashes, model, AllRanks(ws))| == |hashes| * ws
    ensures KeysFor(hashes, model, AllRanks(ws))[i] == ChunkKey(hashes[i / ws], model, i % ws)
  {
    assert ws == 0 ==> |hashes| * ws == 0;
    Interleaved(i, ws);
    if i / ws >= |hashes| {
      MulMono(|hashes|, i / ws, ws);
    }
    KeyAt(hashes, model, AllRanks(ws), i / ws, i % ws);
  }

  /** The keys of one lookup are distinct, or a collision of the hash is at hand. */
  lemma LookupKeysDistinct(h: Hash, tokens: seq<Token>, n: nat, model: string, ws: nat)
    returns (c: Option<(seq<Byte>, seq<Byte>)>)
    requires n > 0
    ensures match c
            case None => NoDup(LookupKeys(h, tokens, n, model, ws))
            case Some((x, y)) => Collides(h, x, y)
  {
    c := HashesDistinct(h, tokens, n);
    if c == None {
      KeysNoDup(ChainList(h, tokens, n), model, ws);
    }
  }

  lemma TailNoDup<T>(s: seq<T>, b: nat)
    requires NoDup(s)
    ensures NoDup(From(s, b))
  {
  }

  lemma RankKeysNoDup(hashes: seq<Digest>, model: string, rank: nat)
    requires NoDup(hashes)
    ensures NoDup(KeysFor(hashes, model, [rank]))
  {
    hide KeysFor;
    var keys := KeysFor(hashes, model, [rank]);
    forall i, j | 0 <= i < j < |keys|
      ensures keys[i] != keys[j]
    {
      KeysOfOneRank(hashes, model, rank, i);
      KeysOfOneRank(hashes, model, rank, j);
    }
  }

  /** The keys of one STORE or RETRIEVE, whatever its range, are distinct, or a collision of the hash is at hand. */
  lemma OpKeysDistinct(h: Hash, tokens: seq<Token>, start: nat, end: nat, n: nat, model: string, rank: nat)
    returns (c: Option<(seq<Byte>, seq<Byte>)>)
    requires n > 0
    ensures match c
            case None => NoDup(OpKeys(h, tokens, start, end, n, model, rank))
            case Some((x, y)) => Collides(h, x, y)
  {
    hide ChainList, KeysFor, NoDup;
    c := HashesDistinct(h, Cut(tokens, end), n);
    if c == None {
      TailNoDup(ChainList(h, Cut(tokens, end), n), start / n);
      RankKeysNoDup(From(ChainList(h, Cut(tokens, end), n), start / n), model, rank);
    }
  }
}
