// How FREE_LOOKUP_LOCKS and the RETRIEVEs of all ranks divide one session's
// held keys, in whatever order the server handles them.
module Partition {
  import opened Types
  import opened Sessions
  import opened Hasher
  import opened Server

  /** One handler's section on the session: FREE is a snapshot of the first keys and then their release. */
  datatype Act = Snapshot | FreeTaken | RankTaken(rank: nat)

  /** all: the keys held when the lookup resolved; f, m: chunks freed at once and chunks in all; ws ranks. */
  datatype Plan = Plan(all: seq<ChunkKey>, ws: nat, f: nat, m: nat) {
    ghost predicate Valid() {
      NoDup(all) && f <= m && ws > 0 && f * ws <= m * ws <= |all|
    }
  }

  /** Where FREE's keys end. */
  function Lo(p: Plan): nat {
    p.f * p.ws
  }

  /** Where the keys of whole chunks end. */
  function Hi(p: Plan): nat {
    p.m * p.ws
  }

  /** Progress of the session: what is held, the pending snapshot, what each act released. */
  datatype Progress = Progress(ses: Sessions, snapshot: Option<seq<ChunkKey>>, freed: bool, done: set<nat>)

  ghost function PartOf(p: Plan, a: Act): seq<ChunkKey>
    requires p.Valid()
  {
    match a
    case Snapshot => []
    case FreeTaken => p.all[..Lo(p)]
    case RankTaken(r) => if r < p.ws then RankSlice(p.all, p.ws, r, p.f, p.m) else []
  }

  ghost predicate Legal(p: Plan, g: Progress, a: Act) {
    match a
    case Snapshot => g.snapshot == None
    case FreeTaken => g.snapshot.Some? && !g.freed
    case RankTaken(r) => r < p.ws && r !in g.done
  }

  /** The keys the act releases, by the controller's own sections. */
  ghost function Released(p: Plan, rid: string, g: Progress, a: Act): seq<ChunkKey>
    requires p.Valid() && Legal(p, g, a)
  {
    match a
    case Snapshot => []
    case FreeTaken => TakeReleasedOf(g.ses, rid, g.snapshot.value).1
    case RankTaken(r) => TakeReleasedOf(g.ses, rid, PartOf(p, a)).1
  }

  ghost function After(p: Plan, rid: string, g: Progress, a: Act): Progress
    requires p.Valid() && Legal(p, g, a)
  {
    match a
    case Snapshot => g.(snapshot := Some(FirstHeldOf(g.ses, rid, Lo(p))))
    case FreeTaken => g.(ses := TakeReleasedOf(g.ses, rid, g.snapshot.value).0, freed := true)
    case RankTaken(r) => g.(ses := TakeReleasedOf(g.ses, rid, PartOf(p, a)).0, done := g.done + {r})
  }

  // ---- what is left ------------------------------------------------------------------

  ghost predicate Kept(p: Plan, freed: bool, done: set<nat>, i: nat)
    requires p.ws > 0
  {
    if i < Lo(p) then !freed else i >= Hi(p) || i % p.ws !in done
  }

  /** The first n keys of the plan that are still held. */
  ghost function Left(p: Plan, freed: bool, done: set<nat>, n: nat): seq<ChunkKey>
    requires p.ws > 0 && n <= |p.all|
  {
    if n == 0 then []
    else Left(p, freed, done, n - 1) + if Kept(p, freed, done, n - 1) then [p.all[n - 1]] else []
  }

  lemma {:induction false} LeftHas(p: Plan, freed: bool, done: set<nat>, n: nat, i: nat)
    requires p.ws > 0 && i < n <= |p.all| && Kept(p, freed, done, i)
    ensures p.all[i] in Left(p, freed, done, n)
  {
    hide Kept;
    if i < n - 1 {
      LeftHas(p, freed, done, n - 1, i);
    }
  }

  /** Removing keys leaves exactly the indexes that are not theirs. */
  lemma {:induction false} WithoutLeft(p: Plan, freed: bool, done: set<nat>, freed': bool, done': set<nat>, n: nat,
                                       keys: seq<ChunkKey>)
    requires p.ws > 0 && n <= |p.all|
    requires forall i: nat :: i < n ==> (Kept(p, freed', done', i) <==> Kept(p, freed, done, i) && p.all[i] !in keys)
    ensures Without(Left(p, freed, done, n), keys) == Left(p, freed', done', n)
  {
    hide Kept, Without;
    if n == 0 {
      WithoutEmpty(keys);
    } else {
      WithoutLeft(p, freed, done, freed', done', n - 1, keys);
      WithoutLast(Left(p, freed, done, n - 1), p.all[n - 1], keys);
      assert Left(p, freed, done, n - 1) + [] == Left(p, freed, done, n - 1);
      assert Left(p, freed', done', n - 1) + [] == Left(p, freed', done', n - 1);
      assert Kept(p, freed', done', n - 1) <==> Kept(p, freed, done, n - 1) && p.all[n - 1] !in keys;
    }
  }

  lemma WithoutEmpty(t: seq<ChunkKey>)
    ensures Without([], t) == []
  {
  }

  lemma WithoutLast(s: seq<ChunkKey>, x: ChunkKey, t: seq<ChunkKey>)
    ensures Without(s + [x], t) == Without(s, t) + if x in t then [] else [x]
  {
    assert (s + [x])[..|s|] == s;
  }

  lemma {:induction false} WithinAll(s: seq<ChunkKey>, t: seq<ChunkKey>)
    requires forall k :: k in s ==> k in t
    ensures Within(s, t) == s
  {
    if s != [] {
      assert s == s[..|s| - 1] + [s[|s| - 1]];
      WithinAll(s[..|s| - 1], t);
    }
  }

  /** Until FREE's keys are released they stand first, whatever the ranks have done. */
  lemma {:induction false} FirstLeft(p: Plan, done: set<nat>, n: nat)
    requires p.Valid() && Lo(p) <= n <= |p.all|
    ensures |Left(p, false, done, n)| >= Lo(p) && Left(p, false, done, n)[..Lo(p)] == p.all[..Lo(p)]
    decreases n
  {
    if n == Lo(p) {
      AllKept(p, done, n);
    } else {
      FirstLeft(p, done, n - 1);
    }
  }

  lemma {:induction false} AllKept(p: Plan, done: set<nat>, n: nat)
    requires p.ws > 0 && n <= Lo(p) && n <= |p.all|
    ensures Left(p, false, done, n) == p.all[..n]
  {
    if n > 0 {
      AllKept(p, done, n - 1);
      assert p.all[..n] == p.all[..n - 1] + [p.all[n - 1]];
    }
  }

  lemma RankPartIn(p: Plan, r: nat, i: nat, j: nat)
    requires p.Valid() && r < p.ws && i < |p.all| && j < p.m - p.f && RankSlice(p.all, p.ws, r, p.f, p.m)[j] == p.all[i]
    ensures Lo(p) <= i < Hi(p) && i % p.ws == r
  {
    hide Lo, Hi;
    SliceInRange(p.ws, r, p.f, p.m, j);
    assert i == (p.f + j) * p.ws + r;
    RankIndex(p, r, i, j);
  }

  lemma RankIndex(p: Plan, r: nat, i: nat, j: nat)
    requires r < p.ws && p.f <= p.m && j < p.m - p.f && i == (p.f + j) * p.ws + r
    ensures Lo(p) <= i < Hi(p) && i % p.ws == r
  {
    SliceInRange(p.ws, r, p.f, p.m, j);
    Interleaved(i, p.ws);
    IndexUnique(p.f + j, r, i / p.ws, i % p.ws, p.ws);
    MulMono(p.f, p.f + j, p.ws);
  }

  lemma RankPartHas(p: Plan, r: nat, i: nat)
    requires p.Valid() && r < p.ws && Lo(p) <= i < Hi(p) && i % p.ws == r
    ensures p.all[i] in RankSlice(p.all, p.ws, r, p.f, p.m)
  {
    Interleaved(i, p.ws);
    var c := i / p.ws;
    ChunkBetween(p.f, c, p.m, r, p.ws);
    SliceInRange(p.ws, r, p.f, p.m, c - p.f);
    assert RankSlice(p.all, p.ws, r, p.f, p.m)[c - p.f] == p.all[i];
  }

  /** Index i belongs to rank r's part exactly when it is one of the chunks [f, m) and its remainder is r. */
  lemma RankOwns(p: Plan, r: nat, i: nat)
    requires p.Valid() && r < p.ws && i < |p.all|
    ensures p.all[i] in RankSlice(p.all, p.ws, r, p.f, p.m) <==> Lo(p) <= i < Hi(p) && i % p.ws == r
  {
    hide Lo, Hi;
    var part := RankSlice(p.all, p.ws, r, p.f, p.m);
    if p.all[i] in part {
      var j :| 0 <= j < p.m - p.f && part[j] == p.all[i];
      RankPartIn(p, r, i, j);
    }
    if Lo(p) <= i < Hi(p) && i % p.ws == r {
      RankPartHas(p, r, i);
    }
  }

  lemma ChunkBetween(f: nat, c: nat, m: nat, r: nat, ws: nat)
    requires r < ws && f * ws <= c * ws + r < m * ws
    ensures f <= c < m
  {
    assert (c + 1) * ws == c * ws + ws;
    if c < f {
      MulMono(c + 1, f, ws);
    } else if c >= m {
      MulMono(m, c, ws);
    }
  }

  lemma FreeOwns(p: Plan, i: nat)
    requires p.Valid() && i < |p.all|
    ensures p.all[i] in p.all[..Lo(p)] <==> i < Lo(p)
  {
    if i < Lo(p) {
      assert p.all[..Lo(p)][i] == p.all[i];
    }
  }

  // ---- every order -------------------------------------------------------------------------

  ghost predicate Follows(p: Plan, rid: string, g: Progress) {
    && p.Valid() && rid in g.ses.held
    && HeldKeys(g.ses, rid) == Left(p, g.freed, g.done, |p.all|)
    && (g.freed ==> g.snapshot.Some?)
    && (g.snapshot.Some? ==> g.snapshot.value == PartOf(p, FreeTaken))
  }

  lemma PartIsHeld(p: Plan, rid: string, g: Progress, a: Act)
    requires Follows(p, rid, g) && Legal(p, g, a)
    ensures forall k :: k in PartOf(p, a) ==> k in HeldKeys(g.ses, rid)
  {
    var part := PartOf(p, a);
    forall k | k in part
      ensures k in HeldKeys(g.ses, rid)
    {
      var j :| 0 <= j < |part| && part[j] == k;
      var i := if a.FreeTaken? then j else (SliceInRange(p.ws, a.rank, p.f, p.m, j); (p.f + j) * p.ws + a.rank);
      assert p.all[i] == k;
      if a.FreeTaken? {
        FreeOwns(p, i);
      } else {
        RankOwns(p, a.rank, i);
      }
      LeftHas(p, g.freed, g.done, |p.all|, i);
    }
  }

  /** Each act releases exactly its own part, in full, whatever came before it. */
  lemma ActReleasesItsPart(p: Plan, rid: string, g: Progress, a: Act)
    requires Follows(p, rid, g) && Legal(p, g, a)
    ensures Released(p, rid, g, a) == PartOf(p, a) && Follows(p, rid, After(p, rid, g, a))
  {
    var g' := After(p, rid, g, a);
    var part := PartOf(p, a);
    if a.Snapshot? {
      FirstLeft(p, g.done, |p.all|);
    } else {
      PartIsHeld(p, rid, g, a);
      WithinAll(part, HeldKeys(g.ses, rid));
      KeptAfter(p, g, a, g'.freed, g'.done);
      WithoutLeft(p, g.freed, g.done, g'.freed, g'.done, |p.all|, part);
    }
  }

  lemma KeptAfter(p: Plan, g: Progress, a: Act, freed': bool, done': set<nat>)
    requires p.Valid() && Legal(p, g, a) && !a.Snapshot?
    requires freed' == (g.freed || a.FreeTaken?) && done' == if a.RankTaken? then g.done + {a.rank} else g.done
    ensures forall i: nat :: i < |p.all| ==>
              (Kept(p, freed', done', i) <==> Kept(p, g.freed, g.done, i) && p.all[i] !in PartOf(p, a))
  {
    forall i: nat | i < |p.all|
      ensures Kept(p, freed', done', i) <==> Kept(p, g.freed, g.done, i) && p.all[i] !in PartOf(p, a)
    {
      if a.FreeTaken? {
        FreeOwns(p, i);
      } else {
        RankOwns(p, a.rank, i);
      }
    }
  }

  /** States of a session while acts are handled in the order given. */
  ghost predicate Handled(p: Plan, rid: string, acts: seq<Act>, gs: seq<Progress>) {
    && p.Valid() && |gs| == |acts| + 1
    && rid in gs[0].ses.held && gs[0] == Progress(gs[0].ses, None, false, {}) && HeldKeys(gs[0].ses, rid) == p.all
    && forall i :: 0 <= i < |acts| ==> Legal(p, gs[i], acts[i]) && gs[i + 1] == After(p, rid, gs[i], acts[i])
  }

  lemma {:induction false} AllLeft(p: Plan, n: nat)
    requires p.ws > 0 && n <= |p.all|
    ensures Left(p, false, {}, n) == p.all[..n]
  {
    if n > 0 {
      AllLeft(p, n - 1);
      assert p.all[..n] == p.all[..n - 1] + [p.all[n - 1]];
    }
  }

  lemma {:induction false} HandledFollows(p: Plan, rid: string, acts: seq<Act>, gs: seq<Progress>, i: nat)
    requires Handled(p, rid, acts, gs) && i <= |acts|
    ensures Follows(p, rid, gs[i])
  {
    if i == 0 {
      AllLeft(p, |p.all|);
      assert p.all[..|p.all|] == p.all;
    } else {
      HandledFollows(p, rid, acts, gs, i - 1);
      ActReleasesItsPart(p, rid, gs[i - 1], acts[i - 1]);
    }
  }

  /**
   * All messages that are sent at all have been handled: no FREE is sent when
   * it has nothing to free, no RETRIEVE when there is nothing to load.
   */
  ghost predicate AllDone(p: Plan, freed: bool, done: set<nat>) {
    (freed || p.f == 0) && (p.f == p.m || forall r: nat :: r < p.ws ==> r in done)
  }

  lemma NoneKept(p: Plan, freed: bool, done: set<nat>, i: nat)
    requires p.ws > 0 && AllDone(p, freed, done)
    ensures Kept(p, freed, done, i) <==> i >= Lo(p) && i >= Hi(p)
  {
    Interleaved(i, p.ws);
    assert p.f == 0 ==> Lo(p) == 0;
  }

  lemma {:induction false} OnlyTail(p: Plan, freed: bool, done: set<nat>, n: nat)
    requires p.ws > 0 && Lo(p) <= Hi(p) && n <= |p.all| && AllDone(p, freed, done)
    ensures Left(p, freed, done, n) == if n <= Hi(p) then [] else p.all[Hi(p)..n]
  {
    hide Kept, Lo, Hi, AllDone;
    if n > 0 {
      OnlyTail(p, freed, done, n - 1);
      NoneKept(p, freed, done, n - 1);
      if n - 1 >= Hi(p) {
        assert p.all[Hi(p)..n] == p.all[Hi(p)..n - 1] + [p.all[n - 1]];
      }
    }
  }

  /**
   * FREE and the RETRIEVEs of all ranks, in any order and with FREE's two
   * sections apart, each drop exactly their own part of the held keys; when
   * all that are sent are done exactly the keys after the last whole chunk
   * are still held.
   */
  lemma LocksPartition(p: Plan, rid: string, acts: seq<Act>, gs: seq<Progress>, i: nat)
    requires Handled(p, rid, acts, gs) && i <= |acts|
    ensures forall j :: 0 <= j < i ==> Released(p, rid, gs[j], acts[j]) == PartOf(p, acts[j])
    ensures AllDone(p, gs[i].freed, gs[i].done) ==> HeldKeys(gs[i].ses, rid) == p.all[Hi(p)..]
  {
    hide Legal, After, Lo, Hi, PartOf, Released;
    forall j | 0 <= j < i
      ensures Released(p, rid, gs[j], acts[j]) == PartOf(p, acts[j])
    {
      HandledFollows(p, rid, acts, gs, j);
      ActReleasesItsPart(p, rid, gs[j], acts[j]);
    }
    HandledFollows(p, rid, acts, gs, i);
    if AllDone(p, gs[i].freed, gs[i].done) {
      TailHeld(p, rid, gs[i]);
    }
  }

  lemma TailHeld(p: Plan, rid: string, g: Progress)
    requires Follows(p, rid, g) && AllDone(p, g.freed, g.done)
    ensures HeldKeys(g.ses, rid) == p.all[Hi(p)..]
  {
    OnlyTail(p, g.freed, g.done, |p.all|);
    assert p.all[Hi(p)..|p.all|] == p.all[Hi(p)..];
  }

  /** The parts are pairwise disjoint, so no key is dropped twice and no release disturbs another rank's RETRIEVE. */
  lemma PartsApart(p: Plan, a: Act, b: Act, k: ChunkKey)
    requires p.Valid() && a != b && k in PartOf(p, a)
    ensures k !in PartOf(p, b) && k !in p.all[Hi(p)..]
  {
    hide Lo, Hi, PartOf;
    LoHi(p);
    var i := PartIndex(p, a, k);
    OwnedBy(p, a, i);
    OwnedBy(p, b, i);
    NotInTail(p, i);
  }

  lemma NotInTail(p: Plan, i: nat)
    requires NoDup(p.all) && i < Hi(p) <= |p.all|
    ensures p.all[i] !in p.all[Hi(p)..]
  {
  }

  lemma LoHi(p: Plan)
    requires p.Valid()
    ensures Lo(p) <= Hi(p) <= |p.all|
  {
  }

  lemma PartIndex(p: Plan, a: Act, k: ChunkKey) returns (i: nat)
    requires p.Valid() && k in PartOf(p, a)
    ensures i < |p.all| && p.all[i] == k
  {
    hide Lo, Hi;
    LoHi(p);
    var part := PartOf(p, a);
    var j: nat :| j < |part| && part[j] == k;
    if a.FreeTaken? {
      i := j;
    } else {
      SliceInRange(p.ws, a.rank, p.f, p.m, j);
      i := (p.f + j) * p.ws + a.rank;
    }
  }

  lemma OwnedBy(p: Plan, a: Act, i: nat)
    requires p.Valid() && i < |p.all|
    ensures p.all[i] in PartOf(p, a) <==>
              match a
              case Snapshot => false
              case FreeTaken => i < Lo(p)
              case RankTaken(r) => r < p.ws && Lo(p) <= i < Hi(p) && i % p.ws == r
  {
    match a
    case Snapshot =>
    case FreeTaken => FreeOwns(p, i);
    case RankTaken(r) => if r < p.ws { RankOwns(p, r, i); }
  }

  /** With hits keys held and m = hits / ws whole chunks, the keys left over number hits mod ws. */
  lemma LeftoverCount(p: Plan)
    requires p.Valid() && p.m == |p.all| / p.ws
    ensures |p.all[Hi(p)..]| == |p.all| % p.ws
  {
    Interleaved(|p.all|, p.ws);
  }
}
