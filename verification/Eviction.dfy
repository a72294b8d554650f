// Recency order of the L1 chunks and the choice of eviction victims.
module Eviction {
  import opened Types

  function MoveToEnd(order: seq<ChunkKey>, k: ChunkKey): seq<ChunkKey> {
    Remove(order, k) + [k]
  }

  /** A batch is moved to the recent end last key first, so its first key ends up most recent. */
  function Touch(order: seq<ChunkKey>, keys: seq<ChunkKey>): seq<ChunkKey> {
    if keys == [] then order else MoveToEnd(Touch(order, keys[1..]), keys[0])
  }

  function Forget(order: seq<ChunkKey>, keys: seq<ChunkKey>): (r: seq<ChunkKey>)
    ensures forall k :: k in r <==> k in order && k !in keys
    decreases keys
  {
    if keys == [] then order else Forget(Remove(order, keys[0]), keys[1..])
  }

  lemma {:induction false} TouchRanks(order: seq<ChunkKey>, keys: seq<ChunkKey>)
    requires NoDup(order)
    ensures NoDup(Touch(order, keys))
    ensures forall k :: k in Touch(order, keys) <==> k in order || k in keys
  {
    if keys != [] {
      var t := Touch(order, keys[1..]);
      TouchRanks(order, keys[1..]);
      RemoveNoDup(t, keys[0]);
      NoDupConcat(Remove(t, keys[0]), [keys[0]]);
    }
  }

  lemma {:induction false} ForgetNoDup(order: seq<ChunkKey>, keys: seq<ChunkKey>)
    requires NoDup(order)
    ensures NoDup(Forget(order, keys))
    decreases keys
  {
    if keys != [] {
      RemoveNoDup(order, keys[0]);
      ForgetNoDup(Remove(order, keys[0]), keys[1..]);
    }
  }

  // ---- victims ----------------------------------------------------------

  /** max(1, int(n * ratio)) */
  function Target(n: nat, ratio: real): nat {
    var t := (n as real * ratio).Floor;
    if t < 1 then 1 else t
  }

  /** The target is the largest whole number not above the ratio's share, and at least one. */
  lemma TargetIs(n: nat, ratio: real)
    requires ratio >= 0.0
    ensures Target(n, ratio) >= 1 && n as real * ratio < Target(n, ratio) as real + 1.0
    ensures Target(n, ratio) == 1 || Target(n, ratio) as real <= n as real * ratio
  {
  }

  /** The first `target` eligible keys, oldest first. */
  function Victims(order: seq<ChunkKey>, eligible: ChunkKey -> bool, target: nat): seq<ChunkKey> {
    if order == [] || target == 0 then []
    else if eligible(order[0]) then [order[0]] + Victims(order[1..], eligible, target - 1)
    else Victims(order[1..], eligible, target)
  }

  function EligibleCount(order: seq<ChunkKey>, eligible: ChunkKey -> bool): nat {
    if order == [] then 0
    else (if eligible(order[0]) then 1 else 0) + EligibleCount(order[1..], eligible)
  }

  /** x stands somewhere before y. */
  ghost predicate Before(order: seq<ChunkKey>, x: ChunkKey, y: ChunkKey) {
    exists p, q :: 0 <= p < q < |order| && order[p] == x && order[q] == y
  }

  lemma BeforeAt(order: seq<ChunkKey>, p: nat, q: nat)
    requires p < q < |order|
    ensures Before(order, order[p], order[q])
  {
  }

  lemma BeforeTail(order: seq<ChunkKey>, x: ChunkKey, y: ChunkKey)
    requires order != []
    ensures Before(order, x, y) <==> (order[0] == x && y in order[1..]) || Before(order[1..], x, y)
  {
    var t := order[1..];
    if Before(order, x, y) {
      var p, q :| 0 <= p < q < |order| && order[p] == x && order[q] == y;
      assert t[q - 1] == y;
      if p > 0 {
        assert t[p - 1] == x;
      }
    }
    if order[0] == x && y in t {
      var q :| 0 <= q < |t| && t[q] == y;
      assert order[q + 1] == y;
    }
    if Before(t, x, y) {
      var p, q :| 0 <= p < q < |t| && t[p] == x && t[q] == y;
      assert order[p + 1] == x && order[q + 1] == y;
    }
  }

  /**
   * Victims are exactly the least recent eligible keys: as many as asked for or
   * as there are, and whenever a key is chosen every older eligible key is too.
   */
  lemma {:induction false} VictimsExact(order: seq<ChunkKey>, eligible: ChunkKey -> bool, target: nat)
    requires NoDup(order)
    ensures var v := Victims(order, eligible, target);
            var n := EligibleCount(order, eligible);
            && |v| == (if n < target then n else target)
            && NoDup(v)
            && (forall k :: k in v ==> k in order && eligible(k))
            && (forall x, y :: y in v && Before(order, x, y) && eligible(x) ==> x in v)
            && (n <= target ==> forall k :: k in order && eligible(k) ==> k in v)
  {
    if order != [] && target > 0 {
      var t := order[1..];
      NoDupTail(order);
      var rest := if eligible(order[0]) then target - 1 else target;
      VictimsExact(t, eligible, rest);
      var v := Victims(order, eligible, target);
      forall x, y | y in v && Before(order, x, y) && eligible(x)
        ensures x in v
      {
        BeforeTail(order, x, y);
      }
    } else if order != [] {
      VictimsExact(order[1..], eligible, target) by {
        NoDupTail(order);
      }
    }
  }

  // ---- suffix-first eviction ---------------------------------------------

  /** Among the resident chunks of a prefix chain, deeper ones are older. */
  ghost predicate DeepFirst(order: seq<ChunkKey>, chain: seq<ChunkKey>) {
    forall i, j :: 0 <= i < j < |chain| && chain[i] in order && chain[j] in order
      ==> Before(order, chain[j], chain[i])
  }

  /** A resident chunk of the chain has all its predecessors resident. */
  ghost predicate PrefixClosed(order: seq<ChunkKey>, chain: seq<ChunkKey>) {
    forall i, j :: 0 <= i < j < |chain| && chain[j] in order ==> chain[i] in order
  }

  lemma {:induction false} RemoveBefore(order: seq<ChunkKey>, k: ChunkKey, x: ChunkKey, y: ChunkKey)
    requires x != k && y != k
    ensures Before(Remove(order, k), x, y) <==> Before(order, x, y)
  {
    if order != [] {
      RemoveBefore(order[1..], k, x, y);
      BeforeTail(order, x, y);
      var r := Remove(order[1..], k);
      if order[0] != k {
        assert ([order[0]] + r)[1..] == r;
        BeforeTail([order[0]] + r, x, y);
      }
    }
  }

  lemma {:induction false} ForgetBefore(order: seq<ChunkKey>, keys: seq<ChunkKey>, x: ChunkKey, y: ChunkKey)
    requires x !in keys && y !in keys
    ensures Before(Forget(order, keys), x, y) <==> Before(order, x, y)
    decreases keys
  {
    if keys != [] {
      RemoveBefore(order, keys[0], x, y);
      ForgetBefore(Remove(order, keys[0]), keys[1..], x, y);
    }
  }

  lemma {:induction false} RemoveCommutes(s: seq<ChunkKey>, x: ChunkKey, y: ChunkKey)
    ensures Remove(Remove(s, x), y) == Remove(Remove(s, y), x)
  {
    if s != [] {
      RemoveCommutes(s[1..], x, y);
    }
  }

  lemma {:induction false} ForgetRemove(order: seq<ChunkKey>, keys: seq<ChunkKey>, k: ChunkKey)
    ensures Remove(Forget(order, keys), k) == Forget(Remove(order, k), keys)
    decreases keys
  {
    if keys != [] {
      RemoveCommutes(order, keys[0], k);
      ForgetRemove(Remove(order, keys[0]), keys[1..], k);
    }
  }

  /** Touching moves the batch, reversed, behind everything else. */
  lemma {:induction false} TouchForm(order: seq<ChunkKey>, keys: seq<ChunkKey>)
    requires NoDup(keys)
    ensures Touch(order, keys) == Forget(order, keys) + Reverse(keys)
  {
    if keys == [] {
      assert order + [] == order;
    } else {
      var k, rest := keys[0], keys[1..];
      NoDupTail(keys);
      TouchForm(order, rest);
      RemoveConcat(Forget(order, rest), Reverse(rest), k);
      RemoveAbsent(Reverse(rest), k);
      ForgetRemove(order, rest, k);
    }
  }

  lemma BeforeConcat(s: seq<ChunkKey>, t: seq<ChunkKey>, x: ChunkKey, y: ChunkKey)
    ensures x in s && y in t ==> Before(s + t, x, y)
    ensures Before(s, x, y) ==> Before(s + t, x, y)
    ensures Before(t, x, y) ==> Before(s + t, x, y)
  {
    var c := s + t;
    if x in s && y in t {
      var p :| 0 <= p < |s| && s[p] == x;
      var q :| 0 <= q < |t| && t[q] == y;
      assert c[p] == x && c[|s| + q] == y;
    }
    if Before(s, x, y) {
      var p, q :| 0 <= p < q < |s| && s[p] == x && s[q] == y;
      assert c[p] == x && c[q] == y;
    }
    if Before(t, x, y) {
      var p, q :| 0 <= p < q < |t| && t[p] == x && t[q] == y;
      assert c[|s| + p] == x && c[|s| + q] == y;
    }
  }

  lemma NotBeforeConcat(s: seq<ChunkKey>, t: seq<ChunkKey>, x: ChunkKey, y: ChunkKey)
    requires NoDup(s + t) && x in t && y in s
    ensures !Before(s + t, x, y)
  {
    var c := s + t;
    var p' :| 0 <= p' < |t| && t[p'] == x;
    var q' :| 0 <= q' < |s| && s[q'] == y;
    assert c[|s| + p'] == x && c[q'] == y;
    assert forall p :: 0 <= p < |c| && c[p] == x ==> p == |s| + p';
  }

  /**
   * A batch has become the most recent: order' lists its keys behind all
   * others, the first key of the batch last, and the others as before.
   */
  ghost predicate Freshened(order: seq<ChunkKey>, order': seq<ChunkKey>, batch: seq<ChunkKey>) {
    && NoDup(order')
    && (forall x, y :: x in order' && y in order' && x !in batch && y in batch ==> Before(order', x, y))
    && (forall x, y :: x in order' && y in order' && x in batch && y in batch ==>
          (Before(order', x, y) <==> Before(batch, y, x)))
    && (forall x, y :: x in order' && y in order' && x !in batch && y !in batch ==>
          (Before(order', x, y) <==> Before(order, x, y)))
  }

  lemma ReverseBefore(batch: seq<ChunkKey>, x: ChunkKey, y: ChunkKey)
    ensures Before(Reverse(batch), x, y) <==> Before(batch, y, x)
  {
    hide Reverse;
    var r := Reverse(batch);
    var n := |batch|;
    if Before(r, x, y) {
      var p: nat, q: nat :| p < q < n && r[p] == x && r[q] == y;
      hide Before;
      BeforeAt(batch, n - 1 - q, n - 1 - p);
    }
    if Before(batch, y, x) {
      var p: nat, q: nat :| p < q < n && batch[p] == y && batch[q] == x;
      hide Before;
      BeforeAt(r, n - 1 - q, n - 1 - p);
    }
  }

  lemma BeforeConcatIff(s: seq<ChunkKey>, t: seq<ChunkKey>, x: ChunkKey, y: ChunkKey)
    requires NoDup(s + t)
    ensures x in s && y in s ==> (Before(s + t, x, y) <==> Before(s, x, y))
    ensures x in t && y in t ==> (Before(s + t, x, y) <==> Before(t, x, y))
  {
    BeforeConcat(s, t, x, y);
    var c := s + t;
    if Before(c, x, y) {
      var p, q :| 0 <= p < q < |c| && c[p] == x && c[q] == y;
      if x in s && y in s {
        var i, j :| 0 <= i < |s| && s[i] == x && 0 <= j < |s| && s[j] == y;
        assert c[i] == x && c[j] == y;
        BeforeAt(s, p, q);
      }
      if x in t && y in t {
        var i, j :| 0 <= i < |t| && t[i] == x && 0 <= j < |t| && t[j] == y;
        assert c[|s| + i] == x && c[|s| + j] == y;
        BeforeAt(t, p - |s|, q - |s|);
      }
    }
  }

  /** Touching a batch makes it the most recent, its first key most of all. */
  lemma TouchFreshens(order: seq<ChunkKey>, batch: seq<ChunkKey>)
    requires NoDup(order) && NoDup(batch)
    ensures Freshened(order, Touch(order, batch), batch)
    ensures batch != [] ==>
              Touch(order, batch) != [] && Touch(order, batch)[|Touch(order, batch)| - 1] == batch[0]
  {
    hide Before, Touch, Forget;
    var f, r := Forget(order, batch), Reverse(batch);
    TouchRanks(order, batch);
    TouchForm(order, batch);
    forall x, y | x in f + r && y in f + r
      ensures x !in batch && y in batch ==> Before(f + r, x, y)
      ensures x in batch && y in batch ==> (Before(f + r, x, y) <==> Before(batch, y, x))
      ensures x !in batch && y !in batch ==> (Before(f + r, x, y) <==> Before(order, x, y))
    {
      BeforeConcat(f, r, x, y);
      BeforeConcatIff(f, r, x, y);
      ReverseBefore(batch, x, y);
      if x !in batch && y !in batch {
        ForgetBefore(order, batch, x, y);
      }
    }
  }

  /** The first key of such a batch, when it is ranked, is the most recent of all. */
  lemma FirstIsLast(order: seq<ChunkKey>, order': seq<ChunkKey>, batch: seq<ChunkKey>)
    requires Freshened(order, order', batch) && NoDup(batch)
    ensures batch != [] && batch[0] in order' ==> order'[|order'| - 1] == batch[0]
  {
    if batch != [] && batch[0] in order' {
      var x, y := order'[|order'| - 1], batch[0];
      if x != y && x in batch {
        var q :| 0 <= q < |batch| && batch[q] == x;
        BeforeAt(batch, 0, q);
      }
      if x != y {
        BeforeOneWay(order', x, y);
      }
    }
  }

  /** Touching what survives of a batch and then forgetting the rest makes the batch the most recent as well. */
  lemma FreshenedThenForgotten(order: seq<ChunkKey>, keys: seq<ChunkKey>, touched: seq<ChunkKey>,
                               freed: seq<ChunkKey>)
    requires NoDup(order) && NoDup(touched)
    requires forall k :: k in keys <==> k in touched || k in freed
    requires forall k :: k in touched ==> k !in freed
    requires forall x, y :: x in touched && y in touched ==> (Before(touched, x, y) <==> Before(keys, x, y))
    ensures Freshened(order, Forget(Touch(order, touched), freed), keys)
  {
    hide Before, Touch, Forget;
    TouchFreshens(order, touched);
    var t := Touch(order, touched);
    ForgetNoDup(t, freed);
    var order' := Forget(t, freed);
    forall x, y | x in order' && y in order'
      ensures Before(order', x, y) <==> Before(t, x, y)
    {
      ForgetBefore(t, freed, x, y);
    }
  }

  lemma BeforeOneWay(order: seq<ChunkKey>, x: ChunkKey, y: ChunkKey)
    requires NoDup(order) && Before(order, x, y)
    ensures !Before(order, y, x) && x in order && y in order
  {
  }

  lemma ChainBefore(chain: seq<ChunkKey>, a: nat, b: nat, i: nat, j: nat)
    requires NoDup(chain) && a <= i < j < b <= |chain|
    ensures Before(chain[a..b], chain[i], chain[j])
  {
    BeforeAt(chain[a..b], i - a, j - a);
  }

  /**
   * After the slice [a, b) of a prefix chain became the most recent, deeper
   * chunks are older still if and only if not both a chunk of the slice and
   * one in front of it are resident.
   */
  lemma FreshenedKeepsDeepFirst(order: seq<ChunkKey>, order': seq<ChunkKey>, chain: seq<ChunkKey>, a: nat, b: nat)
    requires NoDup(order) && NoDup(chain) && a <= b <= |chain| && DeepFirst(order, chain)
    requires Freshened(order, order', chain[a..b])
    requires forall k :: k in order' && k !in chain[a..b] ==> k in order
    ensures DeepFirst(order', chain) <==>
              !exists i, j :: 0 <= i < a <= j < b && chain[i] in order' && chain[j] in order'
  {
    hide Before, NoDup;
    var batch := chain[a..b];
    if i, j :| 0 <= i < a <= j < b && chain[i] in order' && chain[j] in order' {
      SlicePlace(chain, a, b, i);
      SlicePlace(chain, a, b, j);
      BeforeOneWay(order', chain[i], chain[j]);
      assert !Before(order', chain[j], chain[i]);
    } else {
      forall i, j | 0 <= i < j < |chain| && chain[i] in order' && chain[j] in order'
        ensures Before(order', chain[j], chain[i])
      {
        SlicePlace(chain, a, b, i);
        SlicePlace(chain, a, b, j);
        if a <= i && j < b {
          ChainBefore(chain, a, b, i, j);
        }
      }
    }
  }

  /**
   * Touching the slice [a, b) of a chain keeps "deeper is older" exactly when
   * no resident chunk of the chain lies before the slice; batches that are
   * prefixes of the chain (a == 0) always keep it.
   */
  lemma TouchKeepsDeepFirst(order: seq<ChunkKey>, chain: seq<ChunkKey>, a: nat, b: nat)
    requires NoDup(order) && NoDup(chain) && a < b <= |chain|
    requires DeepFirst(order, chain)
    ensures DeepFirst(Touch(order, chain[a..b]), chain) <==> (forall i :: 0 <= i < a ==> chain[i] !in order)
  {
    if forall i :: 0 <= i < a ==> chain[i] !in order {
      TouchDeepOnly(order, chain, a, b);
    } else {
      var batch := chain[a..b];
      var i :| 0 <= i < a && chain[i] in order;
      SlicePlace(chain, a, b, i);
      SlicePlace(chain, a, b, a);
      TouchForm(order, batch);
      TouchRanks(order, batch);
      NotBeforeConcat(Forget(order, batch), Reverse(batch), chain[a], chain[i]);
    }
  }

  lemma TouchDeepOnly(order: seq<ChunkKey>, chain: seq<ChunkKey>, a: nat, b: nat)
    requires NoDup(order) && NoDup(chain) && a < b <= |chain|
    requires DeepFirst(order, chain) && forall i :: 0 <= i < a ==> chain[i] !in order
    ensures DeepFirst(Touch(order, chain[a..b]), chain)
  {
    hide Before, Touch, Forget, NoDup, Reverse;
    var batch := chain[a..b];
    var f, r := Forget(order, batch), Reverse(batch);
    BatchNoDup(chain, a, b);
    TouchForm(order, batch);
    forall i, j | 0 <= i < j < |chain| && chain[i] in f + r && chain[j] in f + r
      ensures Before(f + r, chain[j], chain[i])
    {
      SlicePlace(chain, a, b, i);
      SlicePlace(chain, a, b, j);
      if b <= i {
        ForgetBefore(order, batch, chain[j], chain[i]);
      }
      TouchPair(f, r, chain, a, b, i, j);
    }
  }

  /** Two chunks at or behind the slice: the deeper one stays before the shallower one. */
  lemma TouchPair(f: seq<ChunkKey>, r: seq<ChunkKey>, chain: seq<ChunkKey>, a: nat, b: nat, i: nat, j: nat)
    requires a <= i < j < |chain| && b <= |chain|
    requires a <= b && r == Reverse(chain[a..b])
    requires j < b || (i < b && chain[j] in f) || (b <= i && Before(f, chain[j], chain[i]))
    ensures Before(f + r, chain[j], chain[i])
  {
    hide Before, NoDup;
    if i < b {
      assert r[b - 1 - i] == chain[a..b][i - a] == chain[i];
    }
    if j < b {
      assert r[b - 1 - j] == chain[a..b][j - a] == chain[j];
      BeforeAt(f + r, |f| + b - 1 - j, |f| + b - 1 - i);
    } else if i < b {
      var q :| 0 <= q < |f| && f[q] == chain[j];
      BeforeAt(f + r, q, |f| + b - 1 - i);
    } else {
      BeforeConcat(f, r, chain[j], chain[i]);
    }
  }

  lemma BatchNoDup(chain: seq<ChunkKey>, a: nat, b: nat)
    requires NoDup(chain) && a <= b <= |chain|
    ensures NoDup(chain[a..b])
  {
  }

  lemma SlicePlace(chain: seq<ChunkKey>, a: nat, b: nat, i: nat)
    requires NoDup(chain) && a <= b <= |chain| && i < |chain|
    ensures chain[i] in chain[a..b] <==> a <= i < b
  {
    if a <= i < b {
      assert chain[a..b][i - a] == chain[i];
    }
  }

  /**
   * Evicting the victims of a deepest-first chain leaves no gap: if a chunk can
   * go, all deeper resident ones can, and they go first.
   */
  lemma EvictionIsSuffixFirst(order: seq<ChunkKey>, chain: seq<ChunkKey>, eligible: ChunkKey -> bool, target: nat)
    requires NoDup(order) && DeepFirst(order, chain) && PrefixClosed(order, chain)
    requires forall i, j :: 0 <= i < j < |chain| && eligible(chain[i]) && chain[j] in order ==> eligible(chain[j])
    ensures PrefixClosed(Forget(order, Victims(order, eligible, target)), chain)
  {
    var v := Victims(order, eligible, target);
    VictimsExact(order, eligible, target);
    forall i, j | 0 <= i < j < |chain| && chain[j] in order && chain[j] !in v
      ensures chain[i] in order && chain[i] !in v
    {
      assert chain[i] in order;
      assert Before(order, chain[j], chain[i]);
    }
  }

  // ---- the policy object ---------------------------------------------------

  class LRUPolicy {
    var order: seq<ChunkKey>

    constructor ()
      ensures order == []
    {
      order := [];
    }

    method OnCreated(keys: seq<ChunkKey>)
      modifies this
      ensures order == Touch(old(order), keys)
    {
      var i := |keys|;
      while i > 0
        invariant 0 <= i <= |keys|
        invariant order == Touch(old(order), keys[i..])
      {
        i := i - 1;
        assert keys[i..][1..] == keys[i + 1..];
        order := MoveToEnd(order, keys[i]);
      }
      assert keys[0..] == keys;
    }

    method OnTouched(keys: seq<ChunkKey>)
      modifies this
      ensures order == Touch(old(order), keys)
    {
      OnCreated(keys);
    }

    method OnRemoved(keys: seq<ChunkKey>)
      modifies this
      ensures order == Forget(old(order), keys)
    {
      for i := 0 to |keys|
        invariant Forget(old(order), keys) == Forget(order, keys[i..])
      {
        assert keys[i..][1..] == keys[i + 1..];
        order := Remove(order, keys[i]);
      }
    }

    method GetVictims(ratio: real, eligible: ChunkKey -> bool) returns (victims: seq<ChunkKey>)
      ensures victims == Victims(order, eligible, Target(|order|, ratio))
    {
      var target := Target(|order|, ratio);
      victims := [];
      var i := 0;
      while i < |order| && |victims| < target
        invariant 0 <= i <= |order| && |victims| <= target
        invariant Victims(order, eligible, target)
               == victims + Victims(order[i..], eligible, target - |victims|)
      {
        assert order[i..][1..] == order[i + 1..];
        if eligible(order[i]) {
          ghost var rest := Victims(order[i + 1..], eligible, target - |victims| - 1);
          assert victims + ([order[i]] + rest) == victims + [order[i]] + rest;
          victims := victims + [order[i]];
        }
        i := i + 1;
      }
    }
  }
}
