// One round of the evictor: below the watermark nothing happens, above it the
// coldest chunks nobody uses are thrown out.
module EvictionRound {
  import opened Types
  import opened Eviction
  import opened LockProtocol
  import opened Manager

  const WATERMARK := 0.8
  const EVICTION_RATIO := 0.2

  ghost predicate BelowWatermark(l: L1) {
    l.pool.total > 0 && l.pool.used as real / l.pool.total as real < WATERMARK
  }

  /** Who may be evicted, as the entries are now. */
  function EvictableIn(entries: Entries): ChunkKey -> bool {
    k => Deletable(entries, false, k)
  }

  function RoundVictims(l: L1): seq<ChunkKey> {
    Victims(l.order, EvictableIn(l.entries), Target(|l.order|, EVICTION_RATIO))
  }

  ghost function RoundOf(l: L1): L1
    requires Sized(l)
  {
    if BelowWatermark(l) then l else Delete(l, RoundVictims(l), false)
  }

  /** A ranked chunk that nobody uses. */
  ghost predicate Unused(l: L1, k: ChunkKey) {
    k in l.order && k in l.entries && !l.entries[k].writeLocked && l.entries[k].readCount == 0
  }

  ghost function AllUnused(l: L1): set<ChunkKey> {
    set k | k in l.order && Unused(l, k)
  }

  /** The oldest min(max(1, a fifth of the ranked chunks), unused ones) of the ranked chunks nobody uses. */
  ghost predicate Coldest(l: L1, v: seq<ChunkKey>) {
    var n, fifth := |AllUnused(l)|, |l.order| / 5;
    var target := if fifth < 1 then 1 else fifth;
    && NoDup(v) && |v| == (if n < target then n else target)
    && (forall k :: k in v ==> Unused(l, k))
    && (forall x, y :: y in v && Before(l.order, x, y) && Unused(l, x) ==> x in v)
  }

  lemma {:induction false} CountIsSize(order: seq<ChunkKey>, eligible: ChunkKey -> bool)
    requires NoDup(order)
    ensures EligibleCount(order, eligible) == |set k | k in order && eligible(k)|
  {
    if order != [] {
      NoDupTail(order);
      CountIsSize(order[1..], eligible);
      var rest := set k | k in order[1..] && eligible(k);
      var all := set k | k in order && eligible(k);
      hide NoDup;
      assert all == if eligible(order[0]) then rest + {order[0]} else rest;
    }
  }

  /** A fifth, rounded down, and at least one. */
  lemma TargetIsFifth(n: nat)
    ensures Target(n, EVICTION_RATIO) == if n / 5 < 1 then 1 else n / 5
  {
    TargetIs(n, EVICTION_RATIO);
    assert n as real * 0.2 == n as real / 5.0;
  }

  lemma BelowIs(l: L1)
    requires l.pool.total > 0
    ensures BelowWatermark(l) <==> 5 * l.pool.used < 4 * l.pool.total
  {
    var u, t := l.pool.used as real, l.pool.total as real;
    assert u == u / t * t;
    if u / t < 0.8 {
      assert u / t * t < 0.8 * t;
    } else {
      assert u / t * t >= 0.8 * t;
    }
  }

  lemma VictimsAreColdest(l: L1)
    requires NoDup(l.order)
    ensures Coldest(l, RoundVictims(l))
  {
    hide Before, NoDup, Target, Victims;
    VictimsExact(l.order, EvictableIn(l.entries), Target(|l.order|, EVICTION_RATIO));
    TargetIsFifth(|l.order|);
    CountIsSize(l.order, EvictableIn(l.entries));
    assert AllUnused(l) == set k | k in l.order && EvictableIn(l.entries)(k);
  }

  /** Entries after a delete of exactly the keys of v. */
  ghost predicate Gone(l: L1, m: L1, v: seq<ChunkKey>) {
    && (forall k :: k in m.entries <==> k in l.entries && k !in v)
    && (forall k :: k in m.entries ==> m.entries[k] == l.entries[k])
  }

  /**
   * With less than four fifths of the bytes in use a round changes nothing.
   * Otherwise it removes exactly the first min(max(1, a fifth of the ranked
   * chunks), evictable ones) evictable chunks in recency order, and touches no
   * other entry.
   */
  lemma RoundEvictsColdest(l: L1) returns (v: seq<ChunkKey>)
    requires L1Inv(l) && l.pool.total > 0
    ensures Sized(l) && L1Inv(RoundOf(l))
    ensures 5 * l.pool.used < 4 * l.pool.total ==> RoundOf(l) == l
    ensures 5 * l.pool.used >= 4 * l.pool.total ==> Coldest(l, v) && Gone(l, RoundOf(l), v)
  {
    hide Owned, Locks, Before, Delete, NoDup, Target, Victims, BelowWatermark;
    BelowIs(l);
    v := RoundVictims(l);
    InvIsSized(l);
    VictimsAreColdest(l);
    DeleteEffect(l, RoundVictims(l), false);
  }

  /** What a round does to the manager: nothing with less than four fifths in use, else the coldest chunks go. */
  ghost predicate RoundDone(l: L1, m: L1) {
    if 5 * l.pool.used < 4 * l.pool.total then m == l else exists v :: Coldest(l, v) && Gone(l, m, v)
  }

  /** The body of the evictor's loop; a pool of no bytes is not served. */
  method EvictOnce(l1: L1Manager)
    requires Sized(l1.View()) && l1.View().pool.total > 0
    modifies l1, l1.allocator, l1.policy
    ensures l1.View() == RoundOf(old(l1.View()))
    ensures L1Inv(old(l1.View())) ==> L1Inv(l1.View()) && RoundDone(old(l1.View()), l1.View())
  {
    hide L1Inv, Coldest, Gone;
    ghost var l := l1.View();
    if L1Inv(l) {
      var v := RoundEvictsColdest(l);
    }
    var used, total := l1.Usage();
    if used as real / total as real < WATERMARK {
      return;
    }
    var victims := l1.policy.GetVictims(EVICTION_RATIO, EvictableIn(l1.entries));
    var _ := l1.Delete(victims, false);
  }
}
