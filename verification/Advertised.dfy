// What QUERY advertises is there to be retrieved: the server's indexing and
// the cache's session holds put together.
module Advertised {
  import opened Types
  import opened LockProtocol
  import opened Sessions
  import opened Hasher
  import opened Server
  import opened Partition
  import opened Cache
  import opened CacheInv
  import opened CacheSafety
  import opened CacheLive
  import opened CacheSessions
  import opened CacheReads
  import opened RankReads
  import C = Connector
  import L = Loading

  /** Tokens agree with the looked-up ones up to the advertised boundary. */
  ghost predicate Agrees(tokens: seq<Token>, all: seq<Token>, e: nat) {
    e <= |tokens| && e <= |all| && tokens[..e] == all[..e]
  }

  lemma HitsFit(states: seq<State>, steps: seq<Step>, n: nat, rid: string, hits: (nat, nat))
    requires Run(states, steps) && n < |states| && Advertises(states[n], rid, hits) && rid in states[n].asked
    ensures hits.0 + hits.1 <= |states[n].asked[rid]|
  {
    hide Run, Advertises, TakenBefore;
    if hits.0 + hits.1 > 0 {
      AdvertisedIsHeld(states, steps, n, rid, hits, 0);
    }
  }

  /** One of the first hits.0 + hits.1 keys a session asked for. */
  lemma PrefixKeyIsHeld(states: seq<State>, steps: seq<Step>, n: nat, rid: string, hits: (nat, nat), k: ChunkKey)
    requires Run(states, steps) && n < |states| && Advertises(states[n], rid, hits) && rid in states[n].asked
    requires hits.0 + hits.1 <= |states[n].asked[rid]| && k in states[n].asked[rid][..hits.0 + hits.1]
    ensures (k in HeldKeys(states[n].ses, rid) && CanRead(states[n].l1.entries, k))
              || TakenBefore(states, steps, n, rid, k)
  {
    hide Advertises, TakenBefore, Enabled, Apply, Init;
    var i :| 0 <= i < hits.0 + hits.1 && states[n].asked[rid][..hits.0 + hits.1][i] == k;
    AdvertisedIsHeld(states, steps, n, rid, hits, i);
  }

  /**
   * In any reachable state in which a session's lookup over `tokens` is
   * resolved, the boundary QUERY answers does not exceed the looked-up tokens,
   * and for every rank each key of an op over a chunk-aligned range ending
   * there is held and readable, unless a release of that session took it.
   */
  lemma AdvertisedIsRetrievable(states: seq<State>, steps: seq<Step>, n: nat, rid: string, hits: (nat, nat),
                                h: Hash, tokens: seq<Token>, all: seq<Token>, cs: nat, model: string, ws: nat,
                                    rank: nat, start: nat)
    requires Run(states, steps) && n < |states| && Advertises(states[n], rid, hits) && rid in states[n].asked
    requires cs > 0 && rank < ws && states[n].asked[rid] == LookupKeys(h, tokens, cs, model, ws)
    requires start % cs == 0 && start <= Answer(hits.0 + hits.1, ws, cs)
    requires Agrees(tokens, all, Answer(hits.0 + hits.1, ws, cs))
    ensures forall k :: k in OpKeys(h, all, start, Answer(hits.0 + hits.1, ws, cs), cs, model, rank) ==>
              (k in HeldKeys(states[n].ses, rid) && CanRead(states[n].l1.entries, k))
                  || TakenBefore(states, steps, n, rid, k)
  {
    hide Init, Enabled, Apply, Advertises, TakenBefore, OpKeys, LookupKeys, CanRead;
    HitsFit(states, steps, n, rid, hits);
    OpWithinHits(h, tokens, all, start, cs, model, ws, rank, hits.0 + hits.1);
    forall k | k in OpKeys(h, all, start, Answer(hits.0 + hits.1, ws, cs), cs, model, rank)
      ensures (k in HeldKeys(states[n].ses, rid) && CanRead(states[n].l1.entries, k))
                || TakenBefore(states, steps, n, rid, k)
    {
      PrefixKeyIsHeld(states, steps, n, rid, hits, k);
    }
  }

  /** QUERY never promises more tokens than were looked up. */
  lemma AnswerWithinLookup(states: seq<State>, steps: seq<Step>, n: nat, rid: string, hits: (nat, nat),
                           h: Hash, tokens: seq<Token>, cs: nat, model: string, ws: nat)
    requires Run(states, steps) && n < |states| && Advertises(states[n], rid, hits) && rid in states[n].asked
    requires cs > 0 && ws > 0 && states[n].asked[rid] == LookupKeys(h, tokens, cs, model, ws)
    ensures Answer(hits.0 + hits.1, ws, cs) <= |tokens|
  {
    hide Run, Advertises;
    HitsFit(states, steps, n, rid, hits);
    AnswerFits(h, tokens, cs, model, ws, hits.0 + hits.1);
  }

  lemma HeldListsOnce(s: State, rid: string, k: ChunkKey)
    requires Inv(s) && k in HeldKeys(s.ses, rid) && rid in s.asked
    ensures NoDup(s.asked[rid])
  {
    assert SessionOk(s, rid);
  }

  /** So, as long as nothing of it was released, the RETRIEVE of every rank can start and will find its chunks. */
  lemma RetrieveCanStart(states: seq<State>, steps: seq<Step>, n: nat, rid: string, hits: (nat, nat), id: nat,
                         h: Hash, tokens: seq<Token>, all: seq<Token>, cs: nat, model: string, ws: nat, rank: nat,
                             start: nat)
    requires Run(states, steps) && n < |states| && Advertises(states[n], rid, hits) && rid in states[n].asked
    requires cs > 0 && rank < ws && states[n].asked[rid] == LookupKeys(h, tokens, cs, model, ws)
    requires start % cs == 0 && start <= Answer(hits.0 + hits.1, ws, cs)
    requires Agrees(tokens, all, Answer(hits.0 + hits.1, ws, cs)) && id !in states[n].handlers
    requires forall k :: k in OpKeys(h, all, start, Answer(hits.0 + hits.1, ws, cs), cs, model, rank) ==>
               !TakenBefore(states, steps, n, rid, k)
    ensures CanRetrieve(states[n], id, rid, OpKeys(h, all, start, Answer(hits.0 + hits.1, ws, cs), cs, model, rank))
  {
    hide Run, Inv, Advertises, TakenBefore, OpKeys, LookupKeys, CanRead, CanRetrieve, Answer;
    var s := states[n];
    var e := Answer(hits.0 + hits.1, ws, cs);
    var keys := OpKeys(h, all, start, e, cs, model, rank);
    AdvertisedIsRetrievable(states, steps, n, rid, hits, h, tokens, all, cs, model, ws, rank, start);
    RunKeepsInv(states, steps, n);
    if keys != [] {
      assert keys[0] in keys;
      HeldListsOnce(s, rid, keys[0]);
      AnswerChunks(hits.0 + hits.1, ws, cs);
      OpKeysAreSlice(h, tokens, all, start, e, cs, model, ws, rank);
      SliceNoDup(s.asked[rid], ws, rank, start / cs, e / cs);
    }
    HeldCanBeRetrieved(s, id, rid, keys);
  }

  // ---- the server's ops are the parts of the plan ------------------------------------------

  lemma CutSlice(keys: seq<ChunkKey>, cut: nat, ws: nat, rank: nat, a: nat, b: nat)
    requires a <= b && rank < ws && b * ws <= cut <= |keys|
    ensures RankSlice(keys[..cut], ws, rank, a, b) == RankSlice(keys, ws, rank, a, b)
  {
    forall i | 0 <= i < b - a
      ensures RankSlice(keys[..cut], ws, rank, a, b)[i] == RankSlice(keys, ws, rank, a, b)[i]
    {
      SliceInRange(ws, rank, a, b, i);
    }
  }

  /** How a lookup with `hits` hits and a FREE of f chunks divides the keys held for it. */
  function PlanOf(h: Hash, tokens: seq<Token>, cs: nat, model: string, ws: nat, hits: nat, f: nat): Plan
    requires cs > 0 && ws > 0 && hits <= |LookupKeys(h, tokens, cs, model, ws)|
  {
    Plan(LookupKeys(h, tokens, cs, model, ws)[..hits], ws, f, hits / ws)
  }

  lemma PlanIsValid(p: Plan)
    requires NoDup(p.all) && p.ws > 0 && p.f <= p.m == |p.all| / p.ws
    ensures p.Valid() && |p.all[Hi(p)..]| == |p.all| % p.ws
  {
    Interleaved(|p.all|, p.ws);
    MulMono(p.f, p.m, p.ws);
    LeftoverCount(p);
  }

  /**
   * For a lookup with `hits` hits and a FREE of f chunks, a rank's RETRIEVE
   * over the remaining chunks [f * cs, answer) covers exactly that rank's
   * part, so the partition of the held keys is the one the messages make.
   */
  lemma RetrieveTakesItsPart(h: Hash, tokens: seq<Token>, all: seq<Token>, cs: nat, model: string, ws: nat, rank: nat,
                             hits: nat, f: nat)
    requires cs > 0 && rank < ws && hits <= |LookupKeys(h, tokens, cs, model, ws)|
    requires NoDup(LookupKeys(h, tokens, cs, model, ws)[..hits])
    requires f * cs <= Answer(hits, ws, cs) && Agrees(tokens, all, Answer(hits, ws, cs))
    ensures var p := PlanOf(h, tokens, cs, model, ws, hits, f);
            && p.Valid()
            && OpKeys(h, all, f * cs, Answer(hits, ws, cs), cs, model, rank) == PartOf(p, RankTaken(rank))
            && |p.all[Hi(p)..]| == hits % ws
  {
    hide LookupKeys, OpKeys, Answer, RankSlice, Hi;
    var keys := LookupKeys(h, tokens, cs, model, ws);
    var e := Answer(hits, ws, cs);
    AnswerChunks(hits, ws, cs);
    DivMul(f, cs);
    DivMono(f * cs, e, cs);
    PlanIsValid(PlanOf(h, tokens, cs, model, ws, hits, f));
    OpKeysAreSlice(h, tokens, all, f * cs, e, cs, model, ws, rank);
    CutSlice(keys, hits, ws, rank, f, hits / ws);
  }

  lemma AllHeldOnce(s: State, rid: string, hits: (nat, nat))
    requires Inv(s) && AllHeld(s, rid, hits)
    ensures rid in s.asked && hits.0 + hits.1 <= |s.asked[rid]| && NoDup(s.asked[rid][..hits.0 + hits.1])
  {
    assert rid in s.ses.held ==> SessionOk(s, rid);
  }

  /** The same of any token list that agrees with the looked-up one as far as it is loaded. */
  lemma RankLoadsItsPart(states: seq<State>, steps: seq<Step>, m: nat, n: nat, rid: string, hits: (nat, nat),
                             id: nat,
                             h: Hash, tokens: seq<Token>, all: seq<Token>, cs: nat, model: string, ws: nat, rank: nat,
                                 f: nat)
    returns (j: nat, sent: seq<nat>)
    requires Run(states, steps) && m <= n <= |steps| && AllHeld(states[m], rid, hits)
    requires cs > 0 && rank < ws && states[m].asked[rid] == LookupKeys(h, tokens, cs, model, ws)
    requires f * cs <= Answer(hits.0 + hits.1, ws, cs) && Agrees(tokens, all, Answer(hits.0 + hits.1, ws, cs))
    requires Conducted(PlanOf(h, tokens, cs, model, ws, hits.0 + hits.1, f), rid, states, steps, m, n)
    requires id in states[n].handlers && states[n].handlers[id].Reading? && states[n].handlers[id].rid == rid
    requires states[n].handlers[id].keys == OpKeys(h, all, f * cs, Answer(hits.0 + hits.1, ws, cs), cs, model, rank)
    ensures History(states, steps, n, id, j, sent) && m <= j
    ensures var r := states[n].handlers[id];
            forall i: nat :: i < |r.out| ==>
              Shows(states, j, n, r.keys[i], r.out[i]) && Origin(states, steps, j, r.keys[i], r.out[i])
  {
    hide Enabled, Apply, Init, Inv, AllHeld, Conducted, History, Shows, Origin, LookupKeys, OpKeys, Answer, PartOf;
    RunKeepsInv(states, steps, m);
    AllHeldOnce(states[m], rid, hits);
    RetrieveTakesItsPart(h, tokens, all, cs, model, ws, rank, hits.0 + hits.1, f);
    j, sent := RankRetrievesStored(PlanOf(h, tokens, cs, model, ws, hits.0 + hits.1, f), rid, states, steps, m, n, id,
        rank);
  }

  /**
   * From the lookup's resolve (state m) on, with a FREE of the chunks in
   * front of the load, one RETRIEVE per rank with the op of the request's
   * tracker and no END_SESSION yet: whatever the rest of the server does, a
   * rank's RETRIEVE asks for one key per chunk of the load, the rank's own in
   * order, and every chunk it sends is the blob stored under that key.
   */
  lemma RanksLoadTheirChunks(states: seq<State>, steps: seq<Step>, m: nat, n: nat, rid: string, hits: (nat, nat),
                             id: nat, h: Hash, tokens: seq<Token>, model: string, ws: nat, rank: nat,
                             t: C.Tracker, g: C.Geometry)
    returns (j: nat, sent: seq<nat>)
    requires Run(states, steps) && m <= n <= |steps| && AllHeld(states[m], rid, hits)
    requires C.CanLoad(t, g) && rank < ws && states[m].asked[rid] == LookupKeys(h, tokens, g.chunkSize, model, ws)
    requires t.lmcacheHits == Answer(hits.0 + hits.1, ws, g.chunkSize) && Agrees(tokens, t.tokenIds, t.lmcacheHits)
    requires Conducted(PlanOf(h, tokens, g.chunkSize, model, ws, hits.0 + hits.1, L.FirstChunk(t, g)), rid, states,
                       steps, m, n)
    requires id in states[n].handlers && states[n].handlers[id].Reading? && states[n].handlers[id].rid == rid
    requires var op := L.LoadOp(t, g);
             states[n].handlers[id].keys == OpKeys(h, op.tokenIds, op.start, op.end, g.chunkSize, model, rank)
    ensures History(states, steps, n, id, j, sent) && m <= j
    ensures var (a, b) := (L.FirstChunk(t, g), L.FirstChunk(t, g) + L.ChunkTotal(t, g));
            && b * ws <= |states[m].asked[rid]|
            && states[n].handlers[id].keys == RankSlice(states[m].asked[rid], ws, rank, a, b)
    ensures var r := states[n].handlers[id];
            forall i: nat :: i < |r.out| ==>
              Shows(states, j, n, r.keys[i], r.out[i]) && Origin(states, steps, j, r.keys[i], r.out[i])
  {
    hide Enabled, Apply, Init, AllHeld, Conducted, History, Shows, Origin, LookupKeys, OpKeys, Answer, L.LoadOp,
         C.CanLoad, RankSlice;
    var op, cs := L.LoadOp(t, g), g.chunkSize;
    L.LoadOpNames(t, g);
    L.LoadNamesItsChunks(t, g, h, tokens, model, ws, rank);
    WholeStart(op.start, cs);
    assert op.tokenIds[..op.end] == t.tokenIds[..op.end];
    j, sent := RankLoadsItsPart(states, steps, m, n, rid, hits, id, h, tokens, op.tokenIds, cs, model, ws, rank,
                                op.start / cs);
  }

  lemma WholeStart(start: nat, n: nat)
    requires n > 0 && start % n == 0
    ensures start / n * n == start
  {
  }
}
