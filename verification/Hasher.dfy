// The prefix hash chain over whole chunks of token ids. The digest is an
// arbitrary function with 32-byte results, so collisions exist; what is proved
// is that a wrong match between two prefixes exhibits one.
module Hasher {
  import opened Types

  type Token = t: int | 0 <= t < 0x1_0000_0000

  type Digest = d: seq<Byte> | |d| == 32 witness seq(32, _ => 0)

  type Hash = seq<Byte> -> Digest

  /** Unsigned 32-bit big-endian, as in the ">I" format. */
  function PackOne(t: Token): (r: seq<Byte>)
    ensures |r| == 4
  {
    [t / 0x100_0000, t / 0x1_0000 % 0x100, t / 0x100 % 0x100, t % 0x100]
  }

  function Pack(tokens: seq<Token>): (r: seq<Byte>)
    ensures |r| == 4 * |tokens|
  {
    if tokens == [] then [] else PackOne(tokens[0]) + Pack(tokens[1..])
  }

  /** Hashing a prefix digest and then the packed tokens is hashing their concatenation. */
  function HashOne(h: Hash, prefix: seq<Byte>, tokens: seq<Token>): Digest {
    h(prefix + Pack(tokens))
  }

  /** The 12 bytes behind NONE_HASH: eight zero bytes and one zero token. */
  function Seed(): seq<Byte> {
    [0, 0, 0, 0, 0, 0, 0, 0] + Pack([0])
  }

  function NoneHash(h: Hash): Digest {
    HashOne(h, [0, 0, 0, 0, 0, 0, 0, 0], [0])
  }

  /** The number of whole chunks. */
  function Chunks(tokens: seq<Token>, n: nat): nat
    requires n > 0
  {
    if |tokens| < n then 0 else 1 + Chunks(tokens[n..], n)
  }

  function ChunkOf(tokens: seq<Token>, n: nat, i: nat): (r: seq<Token>)
    requires n > 0 && i < Chunks(tokens, n)
    ensures |r| == n
  {
    if i == 0 then tokens[..n] else ChunkOf(tokens[n..], n, i - 1)
  }

  lemma {:induction false} ChunksIs(tokens: seq<Token>, n: nat)
    requires n > 0
    ensures Chunks(tokens, n) == |tokens| / n && |tokens| - |tokens| % n == Chunks(tokens, n) * n
    decreases |tokens|
  {
    if |tokens| >= n {
      ChunksIs(tokens[n..], n);
      OneLess(|tokens|, n);
    }
  }

  lemma OneLess(m: nat, n: nat)
    requires 0 < n <= m
    ensures m / n == (m - n) / n + 1 && m % n == (m - n) % n
    ensures (m / n) * n == ((m - n) / n) * n + n
  {
    var q, r := (m - n) / n, (m - n) % n;
    assert m == (q + 1) * n + r;
    DivUnique(m, n, q + 1, r);
    assert (q + 1) * n == q * n + n;
  }

  lemma DivUnique(m: nat, n: nat, q: nat, r: nat)
    requires n > 0 && r < n && m == q * n + r
    ensures m / n == q && m % n == r
  {
    var d, e := m / n, m % n;
    assert m == d * n + e;
    if d < q {
      MulMono(d + 1, q, n);
    } else if d > q {
      MulMono(q + 1, d, n);
    }
  }

  lemma MulMono(a: nat, b: nat, n: nat)
    requires a <= b
    ensures a * n <= b * n
  {
  }

  lemma ChunkFits(tokens: seq<Token>, n: nat, i: nat)
    requires n > 0 && i < Chunks(tokens, n)
    ensures 0 <= i * n <= (i + 1) * n <= |tokens| && (i + 1) * n - i * n == n
  {
    ChunksIs(tokens, n);
    MulMono(i + 1, Chunks(tokens, n), n);
    assert (i + 1) * n == i * n + n;
  }

  lemma NextMultiple(i: nat, n: nat)
    ensures (i + 1) * n == i * n + n
  {
  }

  lemma SliceOfTail(tokens: seq<Token>, n: nat, a: nat, b: nat)
    requires a <= b && n + b <= |tokens|
    ensures tokens[n..][a..b] == tokens[n + a..n + b]
  {
  }

  /** Chunk i is the tokens from i * n to (i + 1) * n. */
  lemma {:induction false} ChunkIs(tokens: seq<Token>, n: nat, i: nat)
    requires n > 0 && i < Chunks(tokens, n)
    ensures 0 <= i * n <= (i + 1) * n <= |tokens| && ChunkOf(tokens, n, i) == tokens[i * n..(i + 1) * n]
    decreases i
  {
    ChunkFits(tokens, n, i);
    if i > 0 {
      ChunkIs(tokens[n..], n, i - 1);
      NextMultiple(i - 1, n);
      NextMultiple(i, n);
      SliceOfTail(tokens, n, (i - 1) * n, i * n);
    }
  }

  /** The bytes hashed for chunk i. */
  function Input(h: Hash, tokens: seq<Token>, n: nat, i: nat): seq<Byte>
    requires n > 0 && i < Chunks(tokens, n)
    decreases i
  {
    (if i == 0 then NoneHash(h) else h(Input(h, tokens, n, i - 1))) + Pack(ChunkOf(tokens, n, i))
  }

  /** The hash of the prefix up to and including chunk i. */
  function Chain(h: Hash, tokens: seq<Token>, n: nat, i: nat): Digest
    requires n > 0 && i < Chunks(tokens, n)
  {
    h(Input(h, tokens, n, i))
  }

  function ChainList(h: Hash, tokens: seq<Token>, n: nat): (r: seq<Digest>)
    requires n > 0
    ensures |r| == Chunks(tokens, n) && forall i :: 0 <= i < |r| ==> r[i] == Chain(h, tokens, n, i)
  {
    seq(Chunks(tokens, n), i requires 0 <= i < Chunks(tokens, n) => Chain(h, tokens, n, i))
  }

  /** The loop over whole chunks; a trailing partial chunk is ignored. */
  method ChunkHashes(h: Hash, tokenIds: seq<Token>, chunkSize: nat) returns (hashes: seq<Digest>)
    requires chunkSize > 0
    ensures hashes == ChainList(h, tokenIds, chunkSize)
  {
    hide Chunks, Pack;
    hashes := [];
    var prefixHash: Digest := NoneHash(h);
    var i := 0;
    var end := |tokenIds| - |tokenIds| % chunkSize;
    ghost var c := 0;
    ChunksIs(tokenIds, chunkSize);
    while i < end
      invariant i == c * chunkSize && c == |hashes| && c <= Chunks(tokenIds, chunkSize)
      invariant forall k :: 0 <= k < c ==> hashes[k] == Chain(h, tokenIds, chunkSize, k)
      invariant prefixHash == if c == 0 then NoneHash(h) else hashes[c - 1]
      decreases end - i
    {
      NextChunk(tokenIds, chunkSize, c);
      prefixHash := HashOne(h, prefixHash, tokenIds[i..i + chunkSize]);
      hashes := hashes + [prefixHash];
      i := i + chunkSize;
      c := c + 1;
    }
    AllChunks(tokenIds, chunkSize, c);
  }

  lemma NextChunk(tokens: seq<Token>, n: nat, c: nat)
    requires n > 0 && c * n < Chunks(tokens, n) * n
    ensures c < Chunks(tokens, n) && c * n + n <= |tokens| && tokens[c * n..c * n + n] == ChunkOf(tokens, n, c)
    ensures (c + 1) * n == c * n + n
  {
    if c >= Chunks(tokens, n) {
      MulMono(Chunks(tokens, n), c, n);
    }
    ChunkIs(tokens, n, c);
    assert (c + 1) * n == c * n + n;
  }

  lemma AllChunks(tokens: seq<Token>, n: nat, c: nat)
    requires n > 0 && c * n >= Chunks(tokens, n) * n && c <= Chunks(tokens, n)
    ensures c == Chunks(tokens, n)
  {
  }

  // ---- prefixes -------------------------------------------------------------------

  /** Hashes of equal prefixes are equal, whatever follows them. */
  lemma {:induction false} PrefixDecides(h: Hash, a: seq<Token>, b: seq<Token>, n: nat, i: nat)
    requires n > 0 && i < Chunks(a, n) && i < Chunks(b, n)
    requires (i + 1) * n <= |a| && (i + 1) * n <= |b| && a[..(i + 1) * n] == b[..(i + 1) * n]
    ensures Input(h, a, n, i) == Input(h, b, n, i)
    decreases i
  {
    ChunkIs(a, n, i);
    ChunkIs(b, n, i);
    var m := (i + 1) * n;
    assert a[..m][i * n..m] == a[i * n..m] && b[..m][i * n..m] == b[i * n..m];
    if i > 0 {
      assert a[..m][..i * n] == a[..i * n] && b[..m][..i * n] == b[..i * n];
      PrefixDecides(h, a, b, n, i - 1);
    }
  }

  /** The hashes of a token list cut at e are the first e / n hashes of the whole list. */
  lemma CutHashes(h: Hash, tokens: seq<Token>, n: nat, e: nat)
    requires n > 0 && e <= |tokens|
    ensures e / n <= |ChainList(h, tokens, n)| == |tokens| / n
    ensures ChainList(h, tokens[..e], n) == ChainList(h, tokens, n)[..e / n]
  {
    DivMono(e, |tokens|, n);
    ChunksIs(tokens, n);
    ChunksIs(tokens[..e], n);
    forall i | 0 <= i < e / n
      ensures Chain(h, tokens[..e], n, i) == Chain(h, tokens, n, i)
    {
      ChunkFits(tokens[..e], n, i);
      assert tokens[..e][..(i + 1) * n] == tokens[..(i + 1) * n];
      PrefixDecides(h, tokens[..e], tokens, n, i);
    }
  }

  lemma DivMono(a: nat, b: nat, n: nat)
    requires n > 0 && a <= b
    ensures a / n <= b / n
  {
    assert b == b / n * n + b % n && a == a / n * n + a % n;
    if a / n > b / n {
      MulMono(b / n + 1, a / n, n);
    }
  }

  // ---- collisions ------------------------------------------------------------------

  lemma PackOneInjective(s: Token, t: Token)
    requires PackOne(s) == PackOne(t)
    ensures s == t
  {
    assert PackOne(s)[0] == PackOne(t)[0] && PackOne(s)[1] == PackOne(t)[1] && PackOne(s)[2] == PackOne(t)[2]
             && PackOne(s)[3] == PackOne(t)[3];
    Unpacked(s);
    Unpacked(t);
  }

  function Unpack(b: seq<Byte>): int
    requires |b| == 4
  {
    b[0] as int * 0x100_0000 + b[1] as int * 0x1_0000 + b[2] as int * 0x100 + b[3] as int
  }

  lemma Unpacked(t: Token)
    ensures t as int == Unpack(PackOne(t))
  {
    assert t / 0x1_0000 == t / 0x100_0000 * 0x100 + t / 0x1_0000 % 0x100;
    assert t / 0x100 == t / 0x1_0000 * 0x100 + t / 0x100 % 0x100;
  }

  lemma {:induction false} PackInjective(a: seq<Token>, b: seq<Token>)
    requires Pack(a) == Pack(b)
    ensures a == b
  {
    if a != [] {
      assert b != [];
      assert Pack(a)[..4] == PackOne(a[0]) && Pack(b)[..4] == PackOne(b[0]);
      assert Pack(a)[4..] == Pack(a[1..]) && Pack(b)[4..] == Pack(b[1..]);
      PackOneInjective(a[0], b[0]);
      PackInjective(a[1..], b[1..]);
      assert a == [a[0]] + a[1..] && b == [b[0]] + b[1..];
    }
  }

  /** The four bytes from position p on. */
  function FourAt(b: seq<Byte>, p: nat): (r: seq<Byte>)
    requires p + 4 <= |b|
    ensures |r| == 4
  {
    [b[p], b[p + 1], b[p + 2], b[p + 3]]
  }

  lemma {:induction false} PackAt(tokens: seq<Token>, j: nat)
    requires j < |tokens|
    ensures FourAt(Pack(tokens), 4 * j) == PackOne(tokens[j])
    decreases j
  {
    hide PackOne;
    var rest := Pack(tokens[1..]);
    assert Pack(tokens) == PackOne(tokens[0]) + rest;
    if j > 0 {
      PackAt(tokens[1..], j - 1);
      hide Pack;
      FourBehind(PackOne(tokens[0]), rest, 4 * (j - 1));
    }
  }

  lemma FourBehind(front: seq<Byte>, s: seq<Byte>, p: nat)
    requires p + 4 <= |s|
    ensures FourAt(front + s, |front| + p) == FourAt(s, p)
  {
  }

  /**
   * What is hashed for chunk i: the 32 bytes of the hash in front of it, which
   * for the first chunk is the hash of the seed, and then its own tokens,
   * four bytes each, most significant first.
   */
  lemma InputIs(h: Hash, tokens: seq<Token>, n: nat, i: nat, j: nat)
    requires n > 0 && i < Chunks(tokens, n) && j < n
    ensures var x := Input(h, tokens, n, i);
            && |x| == 32 + 4 * n
            && x[..32] == (if i == 0 then h([0, 0, 0, 0, 0, 0, 0, 0] + [0, 0, 0, 0]) else Chain(h, tokens, n, i - 1))
            && i * n + j < |tokens| && Unpack(FourAt(x, 32 + 4 * j)) == tokens[i * n + j] as int
  {
    hide Pack, Unpack, Chunks, ChunkOf, FourAt;
    var chunk := ChunkOf(tokens, n, i);
    ChunkIs(tokens, n, i);
    ChunkFits(tokens, n, i);
    SeedBytes();
    PackAt(chunk, j);
    FourBehind(if i == 0 then NoneHash(h) else Chain(h, tokens, n, i - 1), Pack(chunk), 4 * j);
    Unpacked(chunk[j]);
  }

  lemma SeedBytes()
    ensures Pack([0]) == [0, 0, 0, 0]
  {
    assert Pack([0][1..]) == [];
  }

  ghost predicate Collides(h: Hash, x: seq<Byte>, y: seq<Byte>) {
    x != y && h(x) == h(y)
  }

  lemma InputSplits(h: Hash, a: seq<Token>, b: seq<Token>, n: nat, i: nat, j: nat)
    requires n > 0 && i < Chunks(a, n) && j < Chunks(b, n) && Input(h, a, n, i) == Input(h, b, n, j)
    ensures ChunkOf(a, n, i) == ChunkOf(b, n, j)
    ensures (if i == 0 then NoneHash(h) else Chain(h, a, n, i - 1)) ==
              (if j == 0 then NoneHash(h) else Chain(h, b, n, j - 1))
  {
    var x, y := Input(h, a, n, i), Input(h, b, n, j);
    assert x[32..] == Pack(ChunkOf(a, n, i)) && y[32..] == Pack(ChunkOf(b, n, j));
    assert x[..32] == if i == 0 then NoneHash(h) else Chain(h, a, n, i - 1);
    assert y[..32] == if j == 0 then NoneHash(h) else Chain(h, b, n, j - 1);
    PackInjective(ChunkOf(a, n, i), ChunkOf(b, n, j));
  }

  /**
   * The collision behind two equal chain hashes, found by walking both chains
   * back in step; None when the two prefixes are the same.
   */
  ghost function Extract(h: Hash, a: seq<Token>, i: nat, b: seq<Token>, j: nat,
                         n: nat): (r: Option<(seq<Byte>, seq<Byte>)>)
    requires n > 0 && i < Chunks(a, n) && j < Chunks(b, n)
    decreases i + j
  {
    var x, y := Input(h, a, n, i), Input(h, b, n, j);
    if x != y then Some((x, y))
    else if i > 0 && j > 0 then Extract(h, a, i - 1, b, j - 1, n)
    else if i > 0 then Some((Seed(), Input(h, a, n, i - 1)))
    else if j > 0 then Some((Seed(), Input(h, b, n, j - 1)))
    else None
  }

  /**
   * For any hash function: equal chain hashes mean the same number of chunks
   * and the same tokens, or the extracted pair is a collision of the hash.
   */
  lemma {:induction false} ExtractFindsCollision(h: Hash, a: seq<Token>, i: nat, b: seq<Token>, j: nat, n: nat)
    requires n > 0 && i < Chunks(a, n) && j < Chunks(b, n)
    requires Chain(h, a, n, i) == Chain(h, b, n, j)
    ensures (i + 1) * n <= |a| && (j + 1) * n <= |b|
    ensures match Extract(h, a, i, b, j, n)
            case None => i == j && a[..(i + 1) * n] == b[..(j + 1) * n]
            case Some((x, y)) => Collides(h, x, y)
    decreases i + j
  {
    hide ChunkOf, Chunks, Pack;
    ChunkFits(a, n, i);
    ChunkFits(b, n, j);
    var x, y := Input(h, a, n, i), Input(h, b, n, j);
    if x == y {
      InputSplits(h, a, b, n, i, j);
      if i > 0 && j > 0 {
        ExtractFindsCollision(h, a, i - 1, b, j - 1, n);
        if Extract(h, a, i - 1, b, j - 1, n).None? {
          JoinChunk(a, n, i);
          JoinChunk(b, n, j);
        }
      } else if i > 0 {
        SeedIsShort(h, a, n, i - 1);
      } else if j > 0 {
        SeedIsShort(h, b, n, j - 1);
      } else {
        ChunkIs(a, n, 0);
        ChunkIs(b, n, 0);
      }
    }
  }

  lemma JoinChunk(a: seq<Token>, n: nat, i: nat)
    requires n > 0 && 0 < i < Chunks(a, n)
    ensures 0 <= i * n <= (i + 1) * n <= |a| && (i - 1 + 1) * n == i * n
    ensures a[..(i + 1) * n] == a[..i * n] + ChunkOf(a, n, i)
  {
    ChunkIs(a, n, i);
  }

  /** The seed has 12 bytes, every chunk input at least 36. */
  lemma SeedIsShort(h: Hash, a: seq<Token>, n: nat, i: nat)
    requires n > 0 && i < Chunks(a, n)
    ensures |Seed()| == 12 && |Input(h, a, n, i)| >= 36 && h(Seed()) == NoneHash(h)
  {
  }

  /** The hashes of one list are pairwise different, or a collision of the hash function is at hand. */
  lemma HashesDistinct(h: Hash, tokens: seq<Token>, n: nat) returns (c: Option<(seq<Byte>, seq<Byte>)>)
    requires n > 0
    ensures match c
            case None => NoDup(ChainList(h, tokens, n))
            case Some((x, y)) => Collides(h, x, y)
  {
    if i, j :| 0 <= i < j < Chunks(tokens, n) && Chain(h, tokens, n, i) == Chain(h, tokens, n, j) {
      ExtractFindsCollision(h, tokens, i, tokens, j, n);
      c := Extract(h, tokens, i, tokens, j, n);
    } else {
      c := None;
    }
  }
}
