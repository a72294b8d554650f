// The L1 pool: one buffer carved by a bump pointer, with freed slices kept
// in one list per size and reused before the bump pointer moves.
module Memory {
  import opened Types

  /** One allocated slice of the pool. */
  datatype Slice = Slice(off: nat, size: nat) {
    ghost predicate Covers(b: nat) {
      off <= b < off + size
    }
    ghost predicate Apart(other: Slice) {
      off + size <= other.off || other.off + other.size <= off
    }
  }

  datatype Pool = Pool(total: nat, brk: nat, free: map<nat, seq<nat>>, used: int)

  function FreeOf(p: Pool, n: nat): seq<nat> {
    if n in p.free then p.free[n] else []
  }

  /** Offsets for up to `need` slices of size n: freed ones first, newest first, then fresh ones. */
  function Collect(p: Pool, n: nat, need: nat): (r: (Pool, seq<nat>))
    requires n in p.free
    ensures n in r.0.free && |r.1| <= need
    decreases need
  {
    if need == 0 then (p, [])
    else
      var f := p.free[n];
      if f != [] then
        var (q, offs) := Collect(p.(free := p.free[n := f[..|f| - 1]]), n, need - 1);
        (q, [f[|f| - 1]] + offs)
      else if p.brk + n <= p.total then
        var (q, offs) := Collect(p.(brk := p.brk + n), n, need - 1);
        (q, [p.brk] + offs)
      else (p, [])
  }

  function SlicesAt(offs: seq<nat>, n: nat): (r: seq<Slice>)
    ensures |r| == |offs|
    ensures forall i :: 0 <= i < |offs| ==> r[i] == Slice(offs[i], n)
  {
    seq(|offs|, i requires 0 <= i < |offs| => Slice(offs[i], n))
  }

  /** The pool after asking for count slices of n bytes, and the slices when the pool had them all. */
  function AllocateFrom(p: Pool, count: nat, n: nat): (Pool, Option<seq<Slice>>) {
    var (q, offs) := Collect(p.(free := p.free[n := FreeOf(p, n)]), n, count);
    if |offs| < count then
      (q.(free := q.free[n := q.free[n] + offs]), None)
    else
      (q.(used := q.used + count * n), Some(SlicesAt(offs, n)))
  }

  function Release(p: Pool, s: Slice): Pool
    requires s.size in p.free
  {
    p.(used := p.used - s.size, free := p.free[s.size := p.free[s.size] + [s.off]])
  }

  // ---- what the pool promises ------------------------------------------

  ghost function FreeSlices(free: map<nat, seq<nat>>): set<Slice> {
    set n, o | n in free && o in free[n] :: Slice(o, n)
  }

  /** The slices of n bytes at these offsets. */
  ghost function Cut(offs: seq<nat>, n: nat): set<Slice> {
    set o | o in offs :: Slice(o, n)
  }

  lemma CutIsElems(offs: seq<nat>, n: nat)
    ensures Elems(SlicesAt(offs, n)) == Cut(offs, n)
  {
    forall s | s in Cut(offs, n)
      ensures s in SlicesAt(offs, n)
    {
      var i :| 0 <= i < |offs| && offs[i] == s.off;
      assert SlicesAt(offs, n)[i] == s;
    }
  }

  lemma CutCons(o: nat, rest: seq<nat>, n: nat)
    ensures Cut([o] + rest, n) == {Slice(o, n)} + Cut(rest, n)
  {
    forall s | s in {Slice(o, n)} + Cut(rest, n)
      ensures s in Cut([o] + rest, n)
    {
      assert s.off in [o] + rest;
    }
  }

  lemma CutMisses(o: nat, offs: seq<nat>, n: nat)
    ensures o in offs <==> Slice(o, n) in Cut(offs, n)
  {
  }

  ghost predicate Covered(all: set<Slice>, b: nat) {
    exists s :: s in all && s.Covers(b)
  }

  /** The slices cut [0, brk) into disjoint non-empty pieces that leave no byte out. */
  ghost predicate Tiling(all: set<Slice>, brk: nat) {
    && (forall s :: s in all ==> s.size > 0 && s.off + s.size <= brk)
    && (forall s, t :: s in all && t in all && s != t ==> s.Apart(t))
    && (forall b: nat :: b < brk ==> Covered(all, b))
  }

  ghost function Bytes(ss: set<Slice>): nat
    decreases ss
  {
    if ss == {} then 0 else var s :| s in ss; s.size + Bytes(ss - {s})
  }

  /** Live and free slices together tile [0, brk), and no slice is both or listed twice. */
  ghost predicate Layout(p: Pool, live: set<Slice>) {
    && p.brk <= p.total
    && live !! FreeSlices(p.free)
    && Tiling(live + FreeSlices(p.free), p.brk)
    && Bytes(live + FreeSlices(p.free)) == p.brk
    && (forall n :: n in p.free ==> NoDup(p.free[n]))
    && (forall s :: s in live ==> s.size in p.free)
  }

  ghost predicate PoolInv(p: Pool, live: set<Slice>) {
    Layout(p, live) && p.used == Bytes(live)
  }

  lemma {:induction false} BytesRemove(ss: set<Slice>, x: Slice)
    requires x in ss
    ensures Bytes(ss) == x.size + Bytes(ss - {x})
    decreases ss
  {
    var s :| s in ss && Bytes(ss) == s.size + Bytes(ss - {s});
    if s != x {
      BytesRemove(ss - {s}, x);
      assert ss - {s} - {x} == ss - {x} - {s};
      BytesRemove(ss - {x}, s);
    }
  }

  lemma BytesAdd(ss: set<Slice>, x: Slice)
    requires x !in ss
    ensures Bytes(ss + {x}) == Bytes(ss) + x.size
  {
    BytesRemove(ss + {x}, x);
    assert ss + {x} - {x} == ss;
  }

  lemma {:induction false} BytesUnion(a: set<Slice>, b: set<Slice>)
    requires a !! b
    ensures Bytes(a + b) == Bytes(a) + Bytes(b)
    decreases b
  {
    if b == {} {
      assert a + b == a;
    } else {
      var x :| x in b;
      assert a + b - {x} == a + (b - {x});
      BytesRemove(a + b, x);
      BytesRemove(b, x);
      BytesUnion(a, b - {x});
    }
  }

  // ---- allocation ---------------------------------------------------------

  /** Taking the newest freed slice out of its list makes it live; the tiling is untouched. */
  lemma PopKeepsLayout(p: Pool, live: set<Slice>, n: nat)
    requires Layout(p, live) && n in p.free && p.free[n] != []
    ensures var f := p.free[n]; var x := Slice(f[|f| - 1], n);
            x !in live && Layout(p.(free := p.free[n := f[..|f| - 1]]), live + {x})
  {
    var f := p.free[n];
    var x := Slice(f[|f| - 1], n);
    var free' := p.free[n := f[..|f| - 1]];
    assert x in FreeSlices(p.free);
    assert FreeSlices(free') == FreeSlices(p.free) - {x} by {
      forall s | s in FreeSlices(p.free) && s != x
        ensures s in FreeSlices(free')
      {
        if s.size == n {
          var i :| 0 <= i < |f| && f[i] == s.off;
          assert i != |f| - 1;
          assert s.off == f[..|f| - 1][i];
        }
      }
    }
    assert live + {x} + FreeSlices(free') == live + FreeSlices(p.free);
  }

  /** Moving the bump pointer appends one piece to the tiling. */
  lemma BumpKeepsLayout(p: Pool, live: set<Slice>, n: nat)
    requires Layout(p, live) && n in p.free && n > 0 && p.brk + n <= p.total
    ensures var x := Slice(p.brk, n);
            x !in live + FreeSlices(p.free) && Layout(p.(brk := p.brk + n), live + {x})
  {
    var x := Slice(p.brk, n);
    var all := live + FreeSlices(p.free);
    assert x !in all;
    BytesAdd(all, x);
    var all' := live + {x} + FreeSlices(p.free);
    assert all' == all + {x};
    forall b: nat | b < p.brk + n
      ensures Covered(all', b)
    {
      if b < p.brk {
        assert Covered(all, b);
        var s :| s in all && s.Covers(b);
        assert s in all' && s.Covers(b);
      } else {
        assert x in all' && x.Covers(b);
      }
    }
  }

  /** Collected slices are pairwise different, new to `live`, and live afterwards. */
  lemma {:induction false} CollectKeepsLayout(p: Pool, live: set<Slice>, n: nat, need: nat)
    requires Layout(p, live) && n in p.free && n > 0
    ensures var (q, offs) := Collect(p, n, need);
            var got := Cut(offs, n);
            && Layout(q, live + got)
            && NoDup(offs) && got !! live
            && q.free.Keys == p.free.Keys && q.used == p.used && q.total == p.total
    decreases need
  {
    hide Layout, Bytes, Tiling;
    var f := p.free[n];
    if need > 0 && (f != [] || p.brk + n <= p.total) {
      var o := if f != [] then f[|f| - 1] else p.brk;
      var p' := if f != [] then p.(free := p.free[n := f[..|f| - 1]]) else p.(brk := p.brk + n);
      var rest := Collect(p', n, need - 1).1;
      CutCons(o, rest, n);
      assert live + {Slice(o, n)} + Cut(rest, n) == live + Cut([o] + rest, n);
      CutMisses(o, rest, n);
      if f != [] {
        PopKeepsLayout(p, live, n);
      } else {
        BumpKeepsLayout(p, live, n);
      }
      CollectKeepsLayout(p', live + {Slice(o, n)}, n, need - 1);
      assert o !in rest;
      NoDupConcat([o], rest);
    } else {
      assert live + Cut([], n) == live;
    }
  }

  /** A request collects exactly what the free list and the untouched tail can give. */
  lemma {:induction false} CollectCount(p: Pool, n: nat, need: nat)
    requires n in p.free && n > 0 && p.brk <= p.total
    ensures var (q, offs) := Collect(p, n, need);
            && |offs| + Capacity(q, n) == Capacity(p, n)
            && (|offs| == need || (|offs| < need && Capacity(q, n) == 0))
            && q.brk <= q.total && q.total == p.total && n in q.free && q.used == p.used
    decreases need
  {
    hide Fit;
    if need > 0 {
      var f := p.free[n];
      if f != [] {
        CollectCount(p.(free := p.free[n := f[..|f| - 1]]), n, need - 1);
      } else if p.brk + n <= p.total {
        TailShrinks(p.total - p.brk, n);
        CollectCount(p.(brk := p.brk + n), n, need - 1);
      } else {
        TailShrinks(p.total - p.brk, n);
      }
    }
  }

  /** How many pieces of n bytes fit into a tail. */
  function Fit(tail: nat, n: nat): nat
    requires n > 0
  {
    tail / n
  }

  lemma TailShrinks(tail: nat, n: nat)
    requires n > 0
    ensures Fit(tail, n) == if tail < n then 0 else Fit(tail - n, n) + 1
  {
    if tail >= n {
      var q, q' := (tail - n) / n, tail / n;
      assert q * n <= tail - n < q * n + n;
      assert q' * n <= tail < q' * n + n;
      MulSucc(q, n);
      if q + 1 < q' {
        StepsApart(q + 1, q', n);
      } else if q' < q + 1 {
        StepsApart(q', q + 1, n);
      }
    }
  }

  /** Multiples of n with different factors lie at least n apart. */
  lemma StepsApart(a: int, b: int, n: nat)
    requires a < b
    ensures a * n + n <= b * n
  {
    assert b * n == a * n + (b - a) * n;
    MulAtLeast(b - a, n);
  }

  lemma MulSucc(a: int, n: int)
    ensures (a + 1) * n == a * n + n
  {
  }

  lemma MulAtLeast(a: int, n: nat)
    requires a >= 1
    ensures a * n >= n
  {
    assert a * n == n + (a - 1) * n;
    assert (a - 1) * n >= 0;
  }

  /** How many slices of n bytes the pool can still hand out. */
  function Capacity(p: Pool, n: nat): nat
    requires n > 0
  {
    |FreeOf(p, n)| + if p.brk <= p.total then Fit(p.total - p.brk, n) else 0
  }

  /**
   * allocate succeeds exactly when the request fits the size-n capacity; a
   * refused request costs nothing (its slices go back to the free list, even
   * those for which the bump pointer has moved).
   */
  lemma AllocateBound(p: Pool, count: nat, n: nat)
    requires n > 0 && p.brk <= p.total
    ensures var (q, got) := AllocateFrom(p, count, n);
            && (got.Some? <==> count <= Capacity(p, n))
            && q.brk <= q.total && q.total == p.total
            && (got.Some? ==> |got.value| == count && Capacity(q, n) == Capacity(p, n) - count
                              && q.used == p.used + count * n)
            && (got.None? ==> Capacity(q, n) == Capacity(p, n) && q.used == p.used)
  {
    CollectCount(p.(free := p.free[n := FreeOf(p, n)]), n, count);
  }

  lemma {:induction false} CollectReuses(p: Pool, n: nat, need: nat)
    requires n in p.free
    ensures var (q, offs) := Collect(p, n, need);
            && (need <= |p.free[n]| ==> q.brk == p.brk)
            && |q.free[n]| == (if need <= |p.free[n]| then |p.free[n]| - need else 0)
            && forall m :: m != n ==> FreeOf(q, m) == FreeOf(p, m)
    decreases need
  {
    if need > 0 {
      var f := p.free[n];
      if f != [] {
        CollectReuses(p.(free := p.free[n := f[..|f| - 1]]), n, need - 1);
      } else if p.brk + n <= p.total {
        CollectReuses(p.(brk := p.brk + n), n, need - 1);
      }
    }
  }

  /**
   * Freed slices are reused before any byte is carved, and only slices of the
   * size asked for are: carving begins when there are none of that size left.
   */
  lemma AllocateReuses(p: Pool, count: nat, n: nat)
    ensures var (q, got) := AllocateFrom(p, count, n);
            && (count <= |FreeOf(p, n)| ==> q.brk == p.brk && |FreeOf(q, n)| == |FreeOf(p, n)| - count)
            && (count > |FreeOf(p, n)| && got.Some? ==> FreeOf(q, n) == [])
            && forall m :: m != n ==> FreeOf(q, m) == FreeOf(p, m)
  {
    var p' := p.(free := p.free[n := FreeOf(p, n)]);
    CollectReuses(p', n, count);
    CollectEnough(p', n, count);
    assert forall m :: m != n ==> FreeOf(p', m) == FreeOf(p, m);
  }

  lemma {:induction false} CollectEnough(p: Pool, n: nat, need: nat)
    requires n in p.free
    ensures need <= |p.free[n]| ==> |Collect(p, n, need).1| == need
    decreases need
  {
    if 0 < need <= |p.free[n]| {
      CollectEnough(p.(free := p.free[n := p.free[n][..|p.free[n]| - 1]]), n, need - 1);
    }
  }

  /** Both outcomes of allocate keep the pool exactly partitioned. */
  lemma AllocateKeepsPool(p: Pool, live: set<Slice>, count: nat, n: nat)
    requires PoolInv(p, live) && n > 0
    ensures var (q, got) := AllocateFrom(p, count, n);
            && (got.None? ==> PoolInv(q, live))
            && (got.Some? ==>
                  && |got.value| == count && NoDup(got.value)
                  && Elems(got.value) !! live
                  && (forall s :: s in got.value ==> s.size == n)
                  && PoolInv(q, live + Elems(got.value)))
  {
    hide Layout, Tiling, Collect, Capacity, Bytes, FreeSlices;
    var p0 := p.(free := p.free[n := FreeOf(p, n)]);
    ListedKeepsLayout(p, live, n);
    CollectKeepsLayout(p0, live, n, count);
    CollectCount(p0, n, count);
    var (q, offs) := Collect(p0, n, count);
    CutIsElems(offs, n);
    if |offs| < count {
      ReturnKeepsLayout(q, live, offs, n);
    } else {
      assert NoDup(SlicesAt(offs, n));
      BytesUnion(live, Cut(offs, n));
      BytesOfEqualSlices(offs, n);
      LayoutIgnoresUsed(q, live + Cut(offs, n), q.used + count * n);
    }
  }

  /** An empty list for a new size changes nothing. */
  lemma ListedKeepsLayout(p: Pool, live: set<Slice>, n: nat)
    requires Layout(p, live)
    ensures var q := p.(free := p.free[n := FreeOf(p, n)]);
            Layout(q, live) && q.brk <= q.total && FreeSlices(q.free) == FreeSlices(p.free)
  {
    hide Tiling, Bytes;
    assert FreeSlices(p.free[n := FreeOf(p, n)]) == FreeSlices(p.free);
  }

  lemma LayoutIgnoresUsed(p: Pool, live: set<Slice>, used: int)
    requires Layout(p, live)
    ensures Layout(p.(used := used), live)
  {
  }

  /** Handing back a refused request's slices keeps the tiling. */
  lemma ReturnKeepsLayout(q: Pool, live: set<Slice>, offs: seq<nat>, n: nat)
    requires n in q.free && NoDup(offs)
    requires var got := Cut(offs, n); got !! live && Layout(q, live + got)
    ensures Layout(q.(free := q.free[n := q.free[n] + offs]), live)
  {
    var got := Cut(offs, n);
    var free' := q.free[n := q.free[n] + offs];
    assert FreeSlices(free') == FreeSlices(q.free) + got by {
      forall s | s in got
        ensures s in FreeSlices(free')
      {
        assert s.off in free'[n];
      }
      forall s | s in FreeSlices(q.free)
        ensures s in FreeSlices(free')
      {
        assert s.off in free'[s.size];
      }
    }
    assert live + FreeSlices(free') == live + got + FreeSlices(q.free);
    forall i | 0 <= i < |offs|
      ensures offs[i] !in q.free[n]
    {
      CutMisses(offs[i], offs, n);
      assert Slice(offs[i], n) !in FreeSlices(q.free);
    }
    NoDupConcat(q.free[n], offs);
  }

  lemma {:induction false} BytesOfEqualSlices(offs: seq<nat>, n: nat)
    requires NoDup(offs)
    ensures Bytes(Cut(offs, n)) == |offs| * n
  {
    if offs == [] {
      assert Cut(offs, n) == {};
    } else {
      var o, rest := offs[0], offs[1..];
      NoDupTail(offs);
      BytesOfEqualSlices(rest, n);
      assert offs == [o] + rest;
      CutCons(o, rest, n);
      CutMisses(o, rest, n);
      BytesAdd(Cut(rest, n), Slice(o, n));
      assert Cut(offs, n) == Cut(rest, n) + {Slice(o, n)};
      MulSucc(|rest|, n);
      assert |offs| == |rest| + 1;
    }
  }

  /** free turns one live slice into a free one of its own size. */
  lemma ReleaseKeepsPool(p: Pool, live: set<Slice>, s: Slice)
    requires PoolInv(p, live) && s in live
    ensures PoolInv(Release(p, s), live - {s})
  {
    var free' := p.free[s.size := p.free[s.size] + [s.off]];
    assert Slice(s.off, s.size) == s;
    assert FreeSlices(free') == FreeSlices(p.free) + {s} by {
      forall t | t in FreeSlices(p.free)
        ensures t in FreeSlices(free')
      {
        assert t.off in free'[t.size];
      }
      assert s.off in free'[s.size];
    }
    assert live - {s} + FreeSlices(free') == live + FreeSlices(p.free);
    assert s.off in p.free[s.size] ==> s in FreeSlices(p.free);
    BytesRemove(live, s);
  }

  /** Freed one after the other. */
  function ReleaseAll(p: Pool, objs: seq<Slice>): (r: Pool)
    requires forall i :: 0 <= i < |objs| ==> objs[i].size in p.free
    ensures r.free.Keys == p.free.Keys
  {
    if objs == [] then p else Release(ReleaseAll(p, objs[..|objs| - 1]), objs[|objs| - 1])
  }

  lemma ReleaseOne(p: Pool, s: Slice)
    requires s.size in p.free
    ensures ReleaseAll(p, [s]) == Release(p, s)
  {
    assert [s][..0] == [];
  }

  lemma ReleasedSizes(p: Pool, live: set<Slice>)
    requires PoolInv(p, live)
    ensures forall s :: s in live ==> s.size in p.free
  {
  }

  /** free turns distinct live slices into free ones of their sizes, and the pool counts exactly the remaining ones. */
  lemma {:induction false} ReleaseAllKeepsPool(p: Pool, live: set<Slice>, objs: seq<Slice>)
    requires PoolInv(p, live) && NoDup(objs) && forall i :: 0 <= i < |objs| ==> objs[i] in live
    ensures forall i :: 0 <= i < |objs| ==> objs[i].size in p.free
    ensures PoolInv(ReleaseAll(p, objs), live - Elems(objs))
  {
    hide PoolInv, Release;
    ReleasedSizes(p, live);
    if objs == [] {
      assert live - Elems(objs) == live;
    } else {
      var init, s := objs[..|objs| - 1], objs[|objs| - 1];
      assert objs == init + [s];
      ReleaseAllKeepsPool(p, live, init);
      assert s !in Elems(init);
      ReleaseKeepsPool(ReleaseAll(p, init), live - Elems(init), s);
      assert live - Elems(init) - {s} == live - Elems(objs);
    }
  }

  // ---- accounting -----------------------------------------------------------

  /** Sum over the sizes of size times the number of free slices of that size. */
  ghost function FreeBytes(free: map<nat, seq<nat>>): nat
    decreases free.Keys
  {
    if free == map[] then 0
    else
      var n :| n in free;
      assert free.Keys == (free - {n}).Keys + {n};
      n * |free[n]| + FreeBytes(free - {n})
  }

  lemma {:induction false} FreeBytesIsBytes(free: map<nat, seq<nat>>)
    requires forall n :: n in free ==> NoDup(free[n])
    ensures FreeBytes(free) == Bytes(FreeSlices(free))
    decreases free.Keys
  {
    if free == map[] {
      assert FreeSlices(free) == {};
    } else {
      var n: nat :| n in free && FreeBytes(free) == n * |free[n]| + FreeBytes(free - {n});
      var others := free - {n};
      assert free.Keys == others.Keys + {n};
      FreeBytesIsBytes(others);
      var mine := Cut(free[n], n);
      BytesOfEqualSlices(free[n], n);
      assert FreeSlices(free) == FreeSlices(others) + mine by {
        forall s | s in FreeSlices(free)
          ensures s in FreeSlices(others) + mine
        {
          if s.size != n {
            assert s.size in others;
          }
        }
      }
      BytesUnion(FreeSlices(others), mine);
    }
  }

  /** No byte below the bump pointer leaks: brk is exactly the live bytes plus the freed bytes. */
  lemma NoLeak(p: Pool, live: set<Slice>)
    requires PoolInv(p, live)
    ensures p.brk == p.used + FreeBytes(p.free)
  {
    FreeBytesIsBytes(p.free);
    BytesUnion(live, FreeSlices(p.free));
  }

  // ---- the buffer ------------------------------------------------------------

  function ReadSlice(mem: seq<Byte>, s: Slice): (b: Blob)
    requires s.off + s.size <= |mem|
    ensures |b| == s.size
  {
    mem[s.off..s.off + s.size]
  }

  function WriteSlice(mem: seq<Byte>, s: Slice, data: Blob): (m: seq<Byte>)
    requires s.off + s.size <= |mem| && |data| == s.size
    ensures |m| == |mem|
  {
    mem[..s.off] + data + mem[s.off + s.size..]
  }

  /** A write is seen through its own slice and through no slice apart from it. */
  lemma WriteThenRead(mem: seq<Byte>, s: Slice, data: Blob, t: Slice)
    requires s.off + s.size <= |mem| && |data| == s.size && t.off + t.size <= |mem|
    requires s == t || s.Apart(t)
    ensures ReadSlice(WriteSlice(mem, s, data), t) == if s == t then data else ReadSlice(mem, t)
  {
    var m := WriteSlice(mem, s, data);
    if s != t {
      assert forall j :: t.off <= j < t.off + t.size ==> m[j] == mem[j];
      assert ReadSlice(m, t) == ReadSlice(mem, t);
    } else {
      assert ReadSlice(m, t) == data;
    }
  }

  /** With `offs` collected so far and the pool at q, finishing the request from q finishes it from p. */
  ghost predicate Resumes(p: Pool, n: nat, count: nat, offs: seq<nat>, q: Pool) {
    && n in p.free && n in q.free && |offs| <= count
    && Continues(Collect(p, n, count), offs, Collect(q, n, count - |offs|))
  }

  ghost predicate Continues(all: (Pool, seq<nat>), offs: seq<nat>, rest: (Pool, seq<nat>)) {
    all.0 == rest.0 && all.1 == offs + rest.1
  }

  lemma ContinuesWith(all: (Pool, seq<nat>), offs: seq<nat>, x: nat, rest: (Pool, seq<nat>), later: (Pool, seq<nat>))
    requires Continues(all, offs, rest) && Continues(rest, [x], later)
    ensures Continues(all, offs + [x], later)
  {
    ConcatAssoc(offs, [x], later.1);
  }

  lemma CollectResumes(p: Pool, n: nat, count: nat, offs: seq<nat>, q: Pool)
    requires Resumes(p, n, count, offs, q)
    ensures n in p.free && n in q.free && |offs| <= count
    ensures var f := q.free[n];
            if |offs| < count && f != [] then
              Resumes(p, n, count, offs + [f[|f| - 1]], q.(free := q.free[n := f[..|f| - 1]]))
            else if |offs| < count && q.brk + n <= q.total then
              Resumes(p, n, count, offs + [q.brk], q.(brk := q.brk + n))
            else Collect(p, n, count) == (q, offs)
  {
    hide Collect, Continues;
    var f := q.free[n];
    var all, rest := Collect(p, n, count), Collect(q, n, count - |offs|);
    CollectOne(q, n, count - |offs|);
    if |offs| < count && f != [] {
      var x, r := f[|f| - 1], q.(free := q.free[n := f[..|f| - 1]]);
      ContinuesWith(all, offs, x, rest, Collect(r, n, count - |offs + [x]|));
    } else if |offs| < count && q.brk + n <= q.total {
      ContinuesWith(all, offs, q.brk, rest, Collect(q.(brk := q.brk + n), n, count - |offs + [q.brk]|));
    } else {
      ContinuesEnd(all, offs, q);
    }
  }

  lemma ContinuesEnd(all: (Pool, seq<nat>), offs: seq<nat>, q: Pool)
    requires Continues(all, offs, (q, []))
    ensures all == (q, offs)
  {
    assert offs + [] == offs;
  }

  /** The next offset collected, or the end. */
  lemma CollectOne(p: Pool, n: nat, need: nat)
    requires n in p.free
    ensures var f, all := p.free[n], Collect(p, n, need);
            if need > 0 && f != [] then
              Continues(all, [f[|f| - 1]], Collect(p.(free := p.free[n := f[..|f| - 1]]), n, need - 1))
            else if need > 0 && p.brk + n <= p.total then
              Continues(all, [p.brk], Collect(p.(brk := p.brk + n), n, need - 1))
            else all == (p, [])
  {
  }

  /** obj.byte_array[:] = data */
  method Fill(pool: array<Byte>, s: Slice, data: Blob)
    requires s.off + s.size <= pool.Length && |data| == s.size
    modifies pool
    ensures pool[..] == WriteSlice(old(pool[..]), s, data)
  {
    forall i | 0 <= i < s.size {
      pool[s.off + i] := data[i];
    }
    assert forall i :: 0 <= i < s.size ==> pool[s.off + i] == data[i];
    assert pool[s.off..s.off + s.size] == data;
  }

  // ---- the allocator object ------------------------------------------------

  class PoolAllocator {
    const pool: array<Byte>
    var brk: nat
    var freeSegments: map<nat, seq<nat>>
    var usedBytes: int

    ghost function View(): Pool
      reads this
    {
      Pool(pool.Length, brk, freeSegments, usedBytes)
    }

    constructor (capacity: nat)
      ensures View() == Pool(capacity, 0, map[], 0)
      ensures PoolInv(View(), {})
      ensures fresh(pool)
    {
      pool := new Byte[capacity];
      brk, freeSegments, usedBytes := 0, map[], 0;
      new;
      assert FreeSlices(freeSegments) == {};
    }

    method Allocate(count: nat, nbytes: nat) returns (objs: Option<seq<Slice>>)
      modifies this
      ensures (View(), objs) == AllocateFrom(old(View()), count, nbytes)
    {
      hide Collect;
      if nbytes !in freeSegments {
        freeSegments := freeSegments[nbytes := []];
      }
      ghost var p0 := old(View()).(free := old(freeSegments)[nbytes := FreeOf(old(View()), nbytes)]);
      assert View() == p0;
      assert [] + Collect(p0, nbytes, count).1 == Collect(p0, nbytes, count).1;
      var offsets: seq<nat> := [];
      while |offsets| < count && freeSegments[nbytes] != []
        invariant Resumes(p0, nbytes, count, offsets, View())
        decreases count - |offsets|
      {
        var f := freeSegments[nbytes];
        CollectResumes(p0, nbytes, count, offsets, View());
        offsets := offsets + [f[|f| - 1]];
        freeSegments := freeSegments[nbytes := f[..|f| - 1]];
      }
      while |offsets| < count && brk + nbytes <= pool.Length
        invariant Resumes(p0, nbytes, count, offsets, View())
        invariant |offsets| < count ==> freeSegments[nbytes] == []
        decreases count - |offsets|
      {
        CollectResumes(p0, nbytes, count, offsets, View());
        offsets := offsets + [brk];
        brk := brk + nbytes;
      }
      CollectResumes(p0, nbytes, count, offsets, View());
      if |offsets| < count {
        freeSegments := freeSegments[nbytes := freeSegments[nbytes] + offsets];
        return None;
      }
      usedBytes := usedBytes + count * nbytes;
      return Some(SlicesAt(offsets, nbytes));
    }

    method Free(objs: seq<Slice>)
      requires forall i :: 0 <= i < |objs| ==> objs[i].size in freeSegments
      modifies this
      ensures View() == ReleaseAll(old(View()), objs)
    {
      for i := 0 to |objs|
        invariant View() == ReleaseAll(old(View()), objs[..i])
      {
        assert objs[..i + 1][..i] == objs[..i];
        usedBytes := usedBytes - objs[i].size;
        freeSegments := freeSegments[objs[i].size := freeSegments[objs[i].size] + [objs[i].off]];
      }
      assert objs[..|objs|] == objs;
    }
  }
}
