// The L2 adapters: an in-memory dictionary, and the file store's naming and
// keep-first rule.
module SecondTier {
  import opened Types
  import opened Memory

  type Chunks = map<ChunkKey, Blob>

  /** Length of the prefix of keys that is present. */
  function LookupHits(chunks: Chunks, keys: seq<ChunkKey>): (n: nat)
    ensures n <= |keys|
    ensures forall i :: 0 <= i < n ==> keys[i] in chunks
    ensures n < |keys| ==> keys[n] !in chunks
  {
    if keys == [] || keys[0] !in chunks then 0 else 1 + LookupHits(chunks, keys[1..])
  }

  datatype LoadResult = LoadResult(mem: seq<Byte>, loaded: nat, raised: bool)

  /** Fills slices in order until a key is missing; a record of another size raises. */
  function LoadInto(chunks: Chunks, keys: seq<ChunkKey>, objs: seq<Slice>, mem: seq<Byte>): LoadResult
    requires forall i :: 0 <= i < |objs| ==> objs[i].off + objs[i].size <= |mem|
    decreases keys
  {
    if keys == [] || objs == [] || keys[0] !in chunks then LoadResult(mem, 0, false)
    else if |chunks[keys[0]]| != objs[0].size then LoadResult(mem, 0, true)
    else
      var r := LoadInto(chunks, keys[1..], objs[1..], WriteSlice(mem, objs[0], chunks[keys[0]]));
      r.(loaded := r.loaded + 1)
  }

  /** What a load fills in: exactly the records of the keys it counts, in slices lying apart. */
  lemma {:induction false} LoadFills(chunks: Chunks, keys: seq<ChunkKey>, objs: seq<Slice>, mem: seq<Byte>)
    requires |objs| == |keys| && forall i :: 0 <= i < |objs| ==> objs[i].off + objs[i].size <= |mem|
    requires forall i, j :: 0 <= i < j < |objs| ==> objs[i].Apart(objs[j])
    ensures var r := LoadInto(chunks, keys, objs, mem);
            && |r.mem| == |mem| && r.loaded <= LookupHits(chunks, keys)
            && (!r.raised ==> r.loaded == LookupHits(chunks, keys))
            && (forall i :: 0 <= i < r.loaded ==> ReadSlice(r.mem, objs[i]) == chunks[keys[i]])
            && (forall s: Slice :: s.off + s.size <= |mem| && (forall i :: 0 <= i < |objs| ==> objs[i].Apart(s))
                  ==> ReadSlice(r.mem, s) == ReadSlice(mem, s))
    decreases keys
  {
    if keys != [] && keys[0] in chunks && |chunks[keys[0]]| == objs[0].size {
      var data := chunks[keys[0]];
      var m := WriteSlice(mem, objs[0], data);
      LoadFills(chunks, keys[1..], objs[1..], m);
      var r := LoadInto(chunks, keys, objs, mem);
      WriteThenRead(mem, objs[0], data, objs[0]);
      assert forall i :: 0 <= i < |objs| - 1 ==> objs[1..][i].Apart(objs[0]);
      forall i | 0 <= i < r.loaded
        ensures ReadSlice(r.mem, objs[i]) == chunks[keys[i]]
      {
        if i > 0 {
          assert objs[i] == objs[1..][i - 1] && keys[i] == keys[1..][i - 1];
        }
      }
      forall s: Slice | s.off + s.size <= |mem| && forall i :: 0 <= i < |objs| ==> objs[i].Apart(s)
        ensures ReadSlice(r.mem, s) == ReadSlice(mem, s)
      {
        assert objs[0].Apart(s);
        if s == objs[0] {
          assert s.size == 0;
          assert ReadSlice(r.mem, s) == [] == ReadSlice(mem, s);
        } else {
          WriteThenRead(mem, objs[0], data, s);
        }
      }
    }
  }

  /** Among the first n keys, the i-th does not come again. */
  ghost predicate LastAt(keys: seq<ChunkKey>, i: nat, n: nat) {
    i < n <= |keys| && forall j :: i < j < n ==> keys[j] != keys[i]
  }

  class MockAdapter {
    var chunks: Chunks

    constructor ()
      ensures chunks == map[]
    {
      chunks := map[];
    }

    /** Copies each slice's bytes under its key; of a repeated key the last slice counts. */
    method Store(keys: seq<ChunkKey>, objs: seq<Slice>, pool: array<Byte>)
      requires |keys| == |objs|
      requires forall i :: 0 <= i < |objs| ==> objs[i].off + objs[i].size <= pool.Length
      modifies this
      ensures chunks.Keys == old(chunks).Keys + Elems(keys)
      ensures forall i :: 0 <= i < |keys| && LastAt(keys, i, |keys|) ==> chunks[keys[i]] == ReadSlice(pool[..], objs[i])
      ensures forall k :: k in old(chunks) && k !in keys ==> chunks[k] == old(chunks)[k]
    {
      for i := 0 to |keys|
        invariant chunks.Keys == old(chunks).Keys + Elems(keys[..i])
        invariant forall j :: 0 <= j < i && LastAt(keys, j, i) ==> chunks[keys[j]] == ReadSlice(pool[..], objs[j])
        invariant forall k :: k in old(chunks) && k !in keys[..i] ==> chunks[k] == old(chunks)[k]
      {
        chunks := chunks[keys[i] := pool[objs[i].off..objs[i].off + objs[i].size]];
        assert keys[..i + 1] == keys[..i] + [keys[i]];
        assert pool[objs[i].off..objs[i].off + objs[i].size] == ReadSlice(pool[..], objs[i]);
      }
      assert keys[..|keys|] == keys;
    }

    method Lookup(keys: seq<ChunkKey>) returns (hits: nat)
      ensures hits == LookupHits(chunks, keys)
    {
      hits := 0;
      while hits < |keys| && keys[hits] in chunks
        invariant hits <= |keys| && LookupHits(chunks, keys) == hits + LookupHits(chunks, keys[hits..])
      {
        assert keys[hits..][1..] == keys[hits + 1..];
        hits := hits + 1;
      }
    }

    method Load(keys: seq<ChunkKey>, objs: seq<Slice>, pool: array<Byte>) returns (loaded: nat, raised: bool)
      requires |keys| == |objs| && forall i :: 0 <= i < |objs| ==> objs[i].off + objs[i].size <= pool.Length
      modifies pool
      ensures LoadResult(pool[..], loaded, raised) == LoadInto(chunks, keys, objs, old(pool[..]))
    {
      loaded, raised := 0, false;
      while loaded < |keys| && keys[loaded] in chunks
        invariant loaded <= |keys|
        invariant LoadResumes(chunks, keys, objs, old(pool[..]), pool[..], loaded)
      {
        var data, obj := chunks[keys[loaded]], objs[loaded];
        LoadStep(chunks, keys, objs, old(pool[..]), pool[..], loaded);
        if |data| != obj.size {
          raised := true;
          return;
        }
        Fill(pool, obj, data);
        loaded := loaded + 1;
      }
      LoadStep(chunks, keys, objs, old(pool[..]), pool[..], loaded);
    }
  }

  ghost predicate LoadResumes(chunks: Chunks, keys: seq<ChunkKey>, objs: seq<Slice>, mem: seq<Byte>, m: seq<Byte>,
                              done: nat)
    requires |objs| == |keys| && forall i :: 0 <= i < |objs| ==> objs[i].off + objs[i].size <= |mem|
  {
    && |m| == |mem| && done <= |keys|
    && var r := LoadInto(chunks, keys[done..], objs[done..], m);
       LoadInto(chunks, keys, objs, mem) == r.(loaded := r.loaded + done)
  }

  lemma LoadStep(chunks: Chunks, keys: seq<ChunkKey>, objs: seq<Slice>, mem: seq<Byte>, m: seq<Byte>, done: nat)
    requires |objs| == |keys| && forall i :: 0 <= i < |objs| ==> objs[i].off + objs[i].size <= |mem|
    requires LoadResumes(chunks, keys, objs, mem, m, done)
    ensures if done == |keys| || keys[done] !in chunks then
              LoadInto(chunks, keys, objs, mem) == LoadResult(m, done, false)
            else if |chunks[keys[done]]| != objs[done].size then
                LoadInto(chunks, keys, objs, mem) == LoadResult(m, done, true)
            else LoadResumes(chunks, keys, objs, mem, WriteSlice(m, objs[done], chunks[keys[done]]), done + 1)
  {
    if done < |keys| {
      assert keys[done..][1..] == keys[done + 1..] && objs[done..][1..] == objs[done + 1..];
    }
  }

  // ---- file names -----------------------------------------------------------------

  function HexDigit(d: nat): char
    requires d < 16
  {
    "0123456789abcdef"[d]
  }

  function Hex(n: nat): string {
    if n < 16 then [HexDigit(n)] else Hex(n / 16) + [HexDigit(n % 16)]
  }

  function HexBytes(b: seq<Byte>): string {
    if b == [] then "" else HexByte(b[0]) + HexBytes(b[1..])
  }

  function HexByte(b: Byte): (r: string)
    ensures |r| == 2
  {
    [HexDigit(b / 16), HexDigit(b % 16)]
  }

  function Dashed(model: string): (r: string)
    ensures |r| == |model|
    ensures forall i :: 0 <= i < |model| ==> r[i] == if model[i] == '/' then '-' else model[i]
  {
    if model == "" then "" else [if model[0] == '/' then '-' else model[0]] + Dashed(model[1..])
  }

  function FileName(k: ChunkKey): string {
    Dashed(k.model) + "@" + Hex(k.rank) + "@" + HexBytes(k.chunkHash) + ".data"
  }

  lemma HexDigitInjective(c: nat, d: nat)
    requires c < 16 && d < 16
    ensures HexDigit(c) != '@'
    ensures HexDigit(c) == HexDigit(d) ==> c == d
  {
    var digits := "0123456789abcdef";
    assert forall i :: 0 <= i < 16 ==> digits[i] == if i < 10 then '0' + i as char else 'a' + (i - 10) as char;
  }

  /** The last digit, and the digits in front of it. */
  lemma HexLast(n: nat)
    ensures |Hex(n)| > 0 && Hex(n)[|Hex(n)| - 1] == HexDigit(n % 16)
    ensures n < 16 <==> |Hex(n)| == 1
    ensures n >= 16 ==> Hex(n)[..|Hex(n)| - 1] == Hex(n / 16) && Hex(n) == Hex(n / 16) + [HexDigit(n % 16)]
  {
    hide HexDigit;
    if n >= 16 {
      HexLast(n / 16);
    }
  }

  lemma {:induction false} HexInjective(m: nat, n: nat)
    ensures '@' !in Hex(m)
    ensures Hex(m) == Hex(n) ==> m == n
    decreases m
  {
    hide Hex, HexDigit;
    HexDigitInjective(m % 16, n % 16);
    HexLast(m);
    HexLast(n);
    if m >= 16 {
      HexInjective(m / 16, n / 16);
    } else {
      assert Hex(m) == [HexDigit(m % 16)];
    }
  }

  lemma HexByteInjective(a: Byte, b: Byte)
    ensures '@' !in HexByte(a)
    ensures HexByte(a) == HexByte(b) ==> a == b
  {
    HexDigitInjective(a / 16, b / 16);
    HexDigitInjective(a % 16, b % 16);
    assert HexByte(a)[0] == HexDigit(a / 16) && HexByte(a)[1] == HexDigit(a % 16);
    assert HexByte(b)[0] == HexDigit(b / 16) && HexByte(b)[1] == HexDigit(b % 16);
  }

  lemma {:induction false} HexBytesInjective(a: seq<Byte>, b: seq<Byte>)
    ensures '@' !in HexBytes(a)
    ensures HexBytes(a) == HexBytes(b) ==> a == b
    decreases a
  {
    hide HexByte;
    if a != [] && b != [] {
      HexByteInjective(a[0], b[0]);
      HexBytesInjective(a[1..], b[1..]);
      assert HexBytes(a)[..2] == HexByte(a[0]) && HexBytes(b)[..2] == HexByte(b[0]);
      assert HexBytes(a)[2..] == HexBytes(a[1..]) && HexBytes(b)[2..] == HexBytes(b[1..]);
      assert a == [a[0]] + a[1..] && b == [b[0]] + b[1..];
    } else if a != [] {
      HexByteInjective(a[0], a[0]);
      HexBytesInjective(a[1..], []);
    }
  }

  /** A text splits uniquely at its last '@'. */
  lemma SplitAtLast(a: string, x: string, b: string, y: string)
    requires '@' !in x && '@' !in y
    requires a + "@" + x == b + "@" + y
    ensures a == b && x == y
  {
    var s, t := a + "@" + x, b + "@" + y;
    assert s[|a|] == '@' && t[|b|] == '@';
    assert forall i :: |a| < i < |s| ==> s[i] == x[i - |a| - 1];
    assert forall i :: |b| < i < |t| ==> t[i] == y[i - |b| - 1];
    assert |a| == |b|;
    assert a == s[..|a|] && b == t[..|b|];
    assert x == s[|a| + 1..] && y == t[|b| + 1..];
  }

  /**
   * Two chunks share a file exactly when they agree on rank and hash and their
   * model names agree once '/' is read as '-'.
   */
  lemma FileNameCollides(j: ChunkKey, k: ChunkKey)
    ensures FileName(j) == FileName(k)
       <==> j.rank == k.rank && j.chunkHash == k.chunkHash && Dashed(j.model) == Dashed(k.model)
  {
    if FileName(j) == FileName(k) {
      HexBytesInjective(j.chunkHash, k.chunkHash);
      HexBytesInjective(k.chunkHash, j.chunkHash);
      HexInjective(j.rank, k.rank);
      HexInjective(k.rank, j.rank);
      var a, b := Dashed(j.model) + "@" + Hex(j.rank), Dashed(k.model) + "@" + Hex(k.rank);
      var fj, fk := FileName(j), FileName(k);
      assert fj[..|fj| - 5] == a + "@" + HexBytes(j.chunkHash);
      assert fk[..|fk| - 5] == b + "@" + HexBytes(k.chunkHash);
      SplitAtLast(a, HexBytes(j.chunkHash), b, HexBytes(k.chunkHash));
      SplitAtLast(Dashed(j.model), Hex(j.rank), Dashed(k.model), Hex(k.rank));
    }
  }

  type Files = map<string, Blob>

  /** The file store writes a chunk only when its file does not exist yet. */
  function StoreFirst(files: Files, k: ChunkKey, data: Blob): Files {
    if FileName(k) in files then files else files[FileName(k) := data]
  }

  /** After a store the key is present, with these bytes if it was not before, and a written file never changes. */
  lemma StoreFirstKeeps(files: Files, k: ChunkKey, data: Blob, j: ChunkKey)
    ensures var after := StoreFirst(files, k, data);
            && FileName(k) in after
            && (FileName(k) !in files ==> after[FileName(k)] == data)
            && (FileName(j) in files ==> FileName(j) in after && after[FileName(j)] == files[FileName(j)])
            && (FileName(j) in after && FileName(j) !in files <==>
                  FileName(k) !in files && j.rank == k.rank && j.chunkHash == k.chunkHash
                      && Dashed(j.model) == Dashed(k.model))
  {
    FileNameCollides(j, k);
  }
}
