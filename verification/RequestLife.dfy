// The messages of one request told from the events of its life alone: what
// the scheduler is told, what is freed, what is loaded, where stores begin.
module RequestLife {
  import opened Types
  import opened Hasher
  import opened Connector

  // ---- the answer -------------------------------------------------------------------

  /** The cache is asked and the reply is final. */
  ghost predicate Answers(e: Event) {
    e.Ask? && !e.reply.Pending?
  }

  /** The lookup is answered, for the first time, at event b. */
  ghost predicate FirstAnswer(es: seq<Event>, b: nat, n: nat) {
    b < n <= |es| && Answers(es[b]) && forall c: nat :: c < b ==> !Answers(es[c])
  }

  ghost predicate NoAnswer(es: seq<Event>, n: nat)
    requires n <= |es|
  {
    forall c: nat :: c < n ==> !Answers(es[c])
  }

  /** Cached tokens by that answer; none if the cache could not be reached. */
  ghost function HitsAt(e: Event): nat
    requires Answers(e)
  {
    if e.reply.Hits? then e.reply.tokens else 0
  }

  /** The cache has more than is computed locally. */
  ghost predicate Gains(e: Event)
    requires Answers(e)
  {
    HitsAt(e) > e.computed
  }

  lemma NextAnswer(w: World, g: Geometry, e: Event)
    requires g.Valid()
    ensures var v := Next(w, g, e).0;
            if Answers(e) && !w.t.lookupResolved then
              && v.t.lookupResolved
              && (e.reply.Hits? ==> v.t.lmcacheHits == HitsAt(e) && v.t.vllmHits == e.computed
                                    && v.t.numStoredTokens == HitsAt(e))
              && (e.reply.Failed? ==> v.t.lmcacheHits == w.t.lmcacheHits && v.t.vllmHits == w.t.vllmHits)
            else
              && v.t.lookupResolved == w.t.lookupResolved
              && v.t.lmcacheHits == w.t.lmcacheHits && v.t.vllmHits == w.t.vllmHits
  {
  }

  /** Hits never come without an answer, and are those of the first one for good. */
  lemma {:induction false} AnswerKept(g: Geometry, ws: seq<World>, es: seq<Event>, sent: seq<Sent>, n: nat)
    requires Trace(g, ws, es, sent) && Fresh(ws[0]) && n <= |es|
    ensures NoAnswer(es, n) ==> !ws[n].t.lookupResolved && ws[n].t.lmcacheHits == 0 && ws[n].t.vllmHits == 0
    ensures forall b: nat :: FirstAnswer(es, b, n) ==>
              && ws[n].t.lookupResolved && ws[n].t.lmcacheHits == HitsAt(es[b])
              && ws[n].t.vllmHits == if es[b].reply.Hits? then es[b].computed else 0
  {
    hide Next;
    if n > 0 {
      AnswerKept(g, ws, es, sent, n - 1);
      assert (ws[n - 1 + 1], sent[n - 1]) == Next(ws[n - 1], g, es[n - 1]);
      NextAnswer(ws[n - 1], g, es[n - 1]);
      forall b: nat | FirstAnswer(es, b, n)
        ensures && ws[n].t.lookupResolved && ws[n].t.lmcacheHits == HitsAt(es[b])
                && ws[n].t.vllmHits == if es[b].reply.Hits? then es[b].computed else 0
      {
        if b == n - 1 {
          assert NoAnswer(es, n - 1);
        } else {
          assert FirstAnswer(es, b, n - 1);
        }
      }
    }
  }

  lemma AnsweredOrNot(es: seq<Event>, n: nat)
    requires n <= |es|
    ensures NoAnswer(es, n) || exists b: nat :: FirstAnswer(es, b, n)
  {
    if n > 0 {
      var m := n - 1;
      AnsweredOrNot(es, m);
      if b: nat :| FirstAnswer(es, b, m) {
        assert FirstAnswer(es, b, n);
      } else if Answers(es[n - 1]) {
        assert FirstAnswer(es, n - 1, n);
      }
    }
  }

  /** What the scheduler is told by an ask: a count or None, and whether the load is asynchronous. */
  ghost function Told(w: World, e: Event): (Option<nat>, bool)
    requires e.Ask?
  {
    (MatchOf(w.t, e.reply, e.computed).1, MatchOf(w.t, e.reply, e.computed).2)
  }

  /**
   * Until the first final reply the scheduler is told to wait; that reply
   * tells it exactly the cached tokens it has not computed, to be loaded
   * asynchronously if there are any; from then on it is told zero.
   */
  lemma AskTells(g: Geometry, ws: seq<World>, es: seq<Event>, sent: seq<Sent>, b: nat)
    requires Trace(g, ws, es, sent) && Fresh(ws[0]) && b < |es| && es[b].Ask?
    ensures es[b].reply.Pending? && NoAnswer(es, b) ==> Told(ws[b], es[b]) == (None, true)
    ensures FirstAnswer(es, b, b + 1) ==>
              Told(ws[b], es[b]) ==
              if Gains(es[b]) then (Some(HitsAt(es[b]) - es[b].computed), true) else (Some(0), false)
    ensures !NoAnswer(es, b) ==> Told(ws[b], es[b]) == (Some(0), false)
  {
    AnswerKept(g, ws, es, sent, b);
    AnsweredOrNot(es, b);
    hide Next;
  }

  // ---- the allocation that follows it -----------------------------------------------------

  /** Nothing was asked or allocated after event b and before n. */
  ghost predicate Quiet(es: seq<Event>, b: nat, n: nat)
    requires n <= |es|
  {
    forall c: nat :: b < c < n ==> !es[c].Ask? && !es[c].Allocate?
  }

  lemma NextPromise(w: World, g: Geometry, e: Event)
    requires g.Valid()
    ensures var v := Next(w, g, e).0;
            if e.Ask? then v.promised == match Told(w, e).0 case Some(c) => c case None => w.promised
            else v.promised == if e.Allocate? then 0 else w.promised
  {
  }

  /** A promise stands from the answer to the next ask or allocation. */
  lemma {:induction false} PromiseStands(g: Geometry, ws: seq<World>, es: seq<Event>, sent: seq<Sent>, n: nat)
    requires Trace(g, ws, es, sent) && Fresh(ws[0]) && n <= |es|
    ensures NoAnswer(es, n) ==> ws[n].promised == 0
    ensures forall b: nat :: FirstAnswer(es, b, n) ==>
              ws[n].promised == if Gains(es[b]) && Quiet(es, b, n) then HitsAt(es[b]) - es[b].computed else 0
  {
    hide Next, Told;
    if n > 0 {
      PromiseStands(g, ws, es, sent, n - 1);
      assert (ws[n - 1 + 1], sent[n - 1]) == Next(ws[n - 1], g, es[n - 1]);
      NextPromise(ws[n - 1], g, es[n - 1]);
      if es[n - 1].Ask? {
        AskTells(g, ws, es, sent, n - 1);
      }
      forall b: nat | FirstAnswer(es, b, n)
        ensures ws[n].promised == if Gains(es[b]) && Quiet(es, b, n) then HitsAt(es[b]) - es[b].computed else 0
      {
        if b < n - 1 {
          assert FirstAnswer(es, b, n - 1);
        } else {
          assert NoAnswer(es, n - 1);
        }
      }
    }
  }

  /** The load of answer b was granted by the allocation at a, and nothing was built from there to n. */
  ghost predicate LoadGranted(es: seq<Event>, b: nat, a: nat, n: nat)
    requires n <= |es|
  {
    && FirstAnswer(es, b, a) && a < n && Gains(es[b]) && Quiet(es, b, a) && es[a].Allocate?
    && forall c: nat :: a < c < n ==> !es[c].BuildLoads?
  }

  lemma NextPending(w: World, g: Geometry, e: Event)
    requires g.Valid()
    ensures var v := Next(w, g, e).0;
            v.t.loadPending <==> (w.t.loadPending && !e.BuildLoads?) || (e.Allocate? && w.promised > 0)
  {
  }

  lemma {:induction false} PendingIff(g: Geometry, ws: seq<World>, es: seq<Event>, sent: seq<Sent>, n: nat)
    requires Trace(g, ws, es, sent) && Fresh(ws[0]) && n <= |es|
    ensures ws[n].t.loadPending <==> exists b: nat, a: nat :: LoadGranted(es, b, a, n)
  {
    hide Next;
    if n > 0 {
      PendingIff(g, ws, es, sent, n - 1);
      assert (ws[n - 1 + 1], sent[n - 1]) == Next(ws[n - 1], g, es[n - 1]);
      NextPending(ws[n - 1], g, es[n - 1]);
      PromiseStands(g, ws, es, sent, n - 1);
      var m := n - 1;
      AnsweredOrNot(es, m);
      if ws[n].t.loadPending {
        if b: nat, a: nat :| LoadGranted(es, b, a, m) {
          assert LoadGranted(es, b, a, n);
        } else {
          var b: nat :| FirstAnswer(es, b, m);
          assert LoadGranted(es, b, n - 1, n);
        }
      }
      if b: nat, a: nat :| LoadGranted(es, b, a, n) {
        if a < n - 1 {
          assert LoadGranted(es, b, a, n - 1);
        }
      }
    }
  }

  /**
   * A RETRIEVE is sent exactly by the first build after an allocation that
   * follows the answer with no other ask in between, when the cache had more
   * than was computed; and it covers exactly what the scheduler was told.
   */
  lemma LoadSentIff(g: Geometry, ws: seq<World>, es: seq<Event>, sent: seq<Sent>, i: nat)
    requires Trace(g, ws, es, sent) && Fresh(ws[0]) && i < |es|
    ensures sent[i].Loaded? <==> es[i].BuildLoads? && exists b: nat, a: nat :: LoadGranted(es, b, a, i)
    ensures sent[i].Loaded? ==> forall b: nat :: FirstAnswer(es, b, i) ==>
              && Answers(es[b]) && Told(ws[b], es[b]) == (Some(HitsAt(es[b]) - es[b].computed), true)
              && sent[i].op.end == HitsAt(es[b]) && sent[i].op.start == es[b].computed / g.chunkSize * g.chunkSize
              && sent[i].op.start + sent[i].op.skipFirstNTokens == es[b].computed
  {
    assert (ws[i + 1], sent[i]) == Next(ws[i], g, es[i]);
    PendingIff(g, ws, es, sent, i);
    AnswerKept(g, ws, es, sent, i);
    hide Told;
    forall b: nat | sent[i].Loaded? && FirstAnswer(es, b, i)
      ensures Gains(es[b]) && FirstAnswer(es, b, b + 1)
    {
      var b': nat, a: nat :| LoadGranted(es, b', a, i);
      assert b == b';
    }
    forall b: nat | sent[i].Loaded? && FirstAnswer(es, b, i)
      ensures Answers(es[b]) && Told(ws[b], es[b]) == (Some(HitsAt(es[b]) - es[b].computed), true)
    {
      AskTells(g, ws, es, sent, b);
    }
  }

  // ---- the locks that are freed -----------------------------------------------------------

  ghost predicate NoAllocation(es: seq<Event>, n: nat)
    requires n <= |es|
  {
    forall c: nat :: c < n ==> !es[c].Allocate?
  }

  lemma NextSeen(w: World, g: Geometry, e: Event)
    requires g.Valid()
    ensures Next(w, g, e).0.t.allocSeen <==> w.t.allocSeen || e.Allocate?
  {
  }

  lemma {:induction false} SeenIff(g: Geometry, ws: seq<World>, es: seq<Event>, sent: seq<Sent>, n: nat)
    requires Trace(g, ws, es, sent) && Fresh(ws[0]) && n <= |es|
    ensures !ws[n].t.allocSeen <==> NoAllocation(es, n)
  {
    hide Next;
    if n > 0 {
      SeenIff(g, ws, es, sent, n - 1);
      assert (ws[n - 1 + 1], sent[n - 1]) == Next(ws[n - 1], g, es[n - 1]);
      NextSeen(ws[n - 1], g, es[n - 1]);
    }
  }

  /**
   * How many chunks the first allocation, at i, no longer needs: those in
   * front of the load it grants, or all the cache has when it grants none.
   */
  ghost function Unneeded(es: seq<Event>, b: nat, i: nat, chunkSize: nat): nat
    requires chunkSize > 0 && FirstAnswer(es, b, i)
  {
    (if Gains(es[b]) && Quiet(es, b, i) then es[b].computed else HitsAt(es[b])) / chunkSize
  }

  /** What an allocation sends, given what is cached, computed and promised. */
  lemma NextFrees(w: World, g: Geometry, e: Event)
    requires g.Valid() && !w.t.loadPending
    requires w.promised > 0 ==> w.t.vllmHits < w.t.lmcacheHits
    ensures var sent := Next(w, g, e).1;
            if e.Allocate? && !w.t.allocSeen then
              var count := (if w.promised > 0 then w.t.vllmHits else w.t.lmcacheHits) / g.chunkSize;
              sent == if count > 0 then Freed(count) else Nothing
            else !sent.Freed?
  {
    if w.promised > 0 {
      DivMono(w.t.vllmHits, w.t.lmcacheHits, g.chunkSize);
    }
  }

  lemma NotFirstAllocation(w: World, g: Geometry, e: Event)
    requires g.Valid() && (w.t.allocSeen || !e.Allocate?)
    ensures !Next(w, g, e).1.Freed?
  {
  }

  /**
   * Locks are freed exactly by the first allocation, if it comes after the
   * answer and leaves whole chunks unneeded, and then of exactly those chunks.
   */
  lemma FreeSentIff(g: Geometry, ws: seq<World>, es: seq<Event>, sent: seq<Sent>, i: nat)
    requires Trace(g, ws, es, sent) && Fresh(ws[0]) && i < |es|
    ensures sent[i].Freed? ==> es[i].Allocate? && NoAllocation(es, i) && !NoAnswer(es, i)
    ensures es[i].Allocate? && NoAllocation(es, i) ==> forall b: nat :: FirstAnswer(es, b, i) ==>
              && g.chunkSize > 0
              && var count := Unneeded(es, b, i, g.chunkSize);
                 sent[i] == if count > 0 then Freed(count) else Nothing
  {
    hide Next;
    PositiveChunk(g);
    assert (ws[i + 1], sent[i]) == Next(ws[i], g, es[i]);
    SeenIff(g, ws, es, sent, i);
    if es[i].Allocate? && NoAllocation(es, i) {
      AnswerKept(g, ws, es, sent, i);
      PromiseStands(g, ws, es, sent, i);
      PendingIff(g, ws, es, sent, i);
      AnsweredOrNot(es, i);
      NextFrees(ws[i], g, es[i]);
      NothingToFree(g);
    } else {
      NotFirstAllocation(ws[i], g, es[i]);
    }
  }

  // ---- the tracker's view of the scheduler ---------------------------------------------------

  /** What the scheduler knows of the request: its tokens, its block table and how many tokens are computed. */
  datatype Truth = Truth(tokens: seq<Token>, table: seq<nat>, computed: nat)

  /**
   * An event that tells the truth: an allocation shows the whole table, grown
   * at the end; a resumed request has a new table; a running one gets its new
   * blocks added; a scheduled step computes that many tokens more.
   */
  ghost predicate Truthful(e: Event, v: Truth, v': Truth) {
    match e
    case Allocate(groupBlocks) => v.table <= groupBlocks && v' == v.(table := groupBlocks)
    case Admitted(blocks, computed) => v' == Truth(v.tokens, blocks, computed)
    case Continued(newBlocks, resumed, computed) =>
      && v'.tokens == v.tokens && v'.computed == computed
      && (if newBlocks == None then v'.table == v.table
          else if resumed then v'.table == newBlocks.value
          else v.table <= v'.table && v'.table[|v.table|..] == newBlocks.value)
    case Scheduled(tokens) => v' == v.(computed := v.computed + tokens)
    case Generated(token) => |v'.tokens| == |v.tokens| + 1 && v'.tokens[..|v.tokens|] == v.tokens
                             && v'.tokens[|v.tokens|] == token && v' == v.(tokens := v'.tokens)
    case _ => v' == v
  }

  ghost predicate Knows(w: World, v: Truth) {
    w.t.tokenIds == v.tokens && w.t.blockIds == v.table && w.t.numComputedTokens == v.computed
  }

  lemma NextKnows(w: World, g: Geometry, e: Event, v: Truth, v': Truth)
    requires g.Valid() && Knows(w, v) && Truthful(e, v, v')
    ensures Knows(Next(w, g, e).0, v')
  {
    if e.Allocate? {
      AllocAdoptsTable(w.t, g, e.groupBlocks, w.promised);
    }
  }

  /** With a scheduler that tells the truth the tracker always has the scheduler's tokens, blocks and count. */
  lemma {:induction false} TrackerKnows(g: Geometry, ws: seq<World>, es: seq<Event>, sent: seq<Sent>,
                                        truths: seq<Truth>, n: nat)
    requires Trace(g, ws, es, sent) && n <= |es| && |truths| == |ws| && Knows(ws[0], truths[0])
    requires forall i: nat :: i < |es| ==> Truthful(es[i], truths[i], truths[i + 1])
    ensures Knows(ws[n], truths[n])
  {
    hide Next, Truthful, Knows;
    if n > 0 {
      TrackerKnows(g, ws, es, sent, truths, n - 1);
      assert (ws[n - 1 + 1], sent[n - 1]) == Next(ws[n - 1], g, es[n - 1]);
      assert Truthful(es[n - 1], truths[n - 1], truths[n - 1 + 1]);
      NextKnows(ws[n - 1], g, es[n - 1], truths[n - 1], truths[n]);
    }
  }

  // ---- where stores begin -----------------------------------------------------------------------

  lemma {:induction false} TilesAhead(ranges: seq<(nat, nat)>, a: nat, b: nat, n: nat, i: nat)
    requires n > 0 && Tiles(ranges, a, b, n)
    ensures a <= b
    ensures i < |ranges| ==> a <= ranges[i].0 < ranges[i].1 <= b
  {
    if ranges != [] {
      var last := ranges[|ranges| - 1];
      TilesAhead(ranges[..|ranges| - 1], a, last.0, n, i);
    }
  }

  lemma AnswerSetsWaterline(g: Geometry, ws: seq<World>, es: seq<Event>, sent: seq<Sent>, b: nat)
    requires Trace(g, ws, es, sent) && Fresh(ws[0]) && b < |es| && FirstAnswer(es, b, b + 1) && es[b].reply.Hits?
    ensures ws[b + 1].t.lookupResolved && ws[b + 1].t.numStoredTokens == HitsAt(es[b])
  {
    AnswerKept(g, ws, es, sent, b);
    assert NoAnswer(es, b);
    assert (ws[b + 1], sent[b]) == Next(ws[b], g, es[b]);
    NextAnswer(ws[b], g, es[b]);
  }

  /**
   * After an answer of whole chunks nothing the cache has is stored again,
   * and nothing behind it is left out: the STORE ranges tile what lies
   * between the answered hits and the waterline.
   */
  lemma StoresFollowHits(g: Geometry, ws: seq<World>, es: seq<Event>, sent: seq<Sent>, b: nat, n: nat)
    requires Trace(g, ws, es, sent) && Fresh(ws[0]) && b < n <= |es|
    requires FirstAnswer(es, b, b + 1) && es[b].reply.Hits? && Aligned(HitsAt(es[b]), g.chunkSize)
    ensures Tiles(StoredRanges(sent[b + 1..n]), HitsAt(es[b]), ws[n].t.numStoredTokens, g.chunkSize)
    ensures HitsAt(es[b]) <= ws[n].t.numStoredTokens
  {
    hide Next, Tiles, StoredRanges, StoreFits;
    AnswerSetsWaterline(g, ws, es, sent, b);
    var ws', es', sent' := ws[b + 1..], es[b + 1..], sent[b + 1..];
    forall i | 0 <= i < |es'|
      ensures (ws'[i + 1], sent'[i]) == Next(ws'[i], g, es'[i])
    {
      assert (ws[b + 1 + i + 1], sent[b + 1 + i]) == Next(ws[b + 1 + i], g, es[b + 1 + i]);
    }
    StoresTile(g, ws', es', sent', n - b - 1);
    assert sent'[..n - b - 1] == sent[b + 1..n];
    TilesAhead(StoredRanges(sent[b + 1..n]), HitsAt(es[b]), ws[n].t.numStoredTokens, g.chunkSize, 0);
  }

  lemma NextStoresAll(w: World, g: Geometry, e: Event, end: nat)
    requires g.Valid() && e.Scheduled?
    requires end <= |w.t.tokenIds| && end <= |w.t.blockIds| * g.blockSize && end <= w.t.numComputedTokens + e.tokens
    ensures end < Next(w, g, e).0.t.numStoredTokens + g.chunkSize
  {
    var t := Ready(w, e);
    assert Available(t, g) >= end;
    assert Available(t, g) - t.numStoredTokens < NewChunks(t, g) * g.chunkSize + g.chunkSize;
    if NewChunks(t, g) <= 0 {
      NotPositive(NewChunks(t, g), g.chunkSize);
    }
  }

  lemma NotPositive(k: int, n: nat)
    requires k <= 0
    ensures k * n <= 0
  {
  }

  /** Every scheduled step leaves no whole chunk unstored that is computed, in tokens and in blocks. */
  lemma StoresAll(g: Geometry, ws: seq<World>, es: seq<Event>, sent: seq<Sent>, truths: seq<Truth>, i: nat, end: nat)
    requires Trace(g, ws, es, sent) && i < |es| && |truths| == |ws| && Knows(ws[0], truths[0])
    requires forall i: nat :: i < |es| ==> Truthful(es[i], truths[i], truths[i + 1])
    requires es[i].Scheduled? && end <= |truths[i + 1].tokens| && end <= truths[i + 1].computed
    requires end <= |truths[i + 1].table| * g.blockSize
    ensures end < ws[i + 1].t.numStoredTokens + g.chunkSize
  {
    hide Next;
    TrackerKnows(g, ws, es, sent, truths, i);
    assert Truthful(es[i], truths[i], truths[i + 1]);
    assert (ws[i + 1], sent[i]) == Next(ws[i], g, es[i]);
    NextStoresAll(ws[i], g, es[i], end);
  }
}
