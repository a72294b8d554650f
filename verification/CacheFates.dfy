// How a STORE ends: published as a whole, or with keys locked for ever, and
// what in its message decides that.
module CacheFates {
  import opened Types
  import opened Memory
  import opened Sessions
  import opened LockProtocol
  import opened Cache
  import opened CacheInv
  import opened CacheFrames
  import opened CacheBooks
  import opened CacheStore
  import opened CacheSafety
  import opened CacheHolds
  import opened CacheWitness

  // ---- the work of one STORE --------------------------------------------------------

  /** The handler is still at the work it took on; what it has copied had the right size. */
  ghost predicate AtWork(h: Handler, items: seq<Item>, extra: seq<ChunkKey>) {
    && h.Storing? && h.extra == extra && |h.items| == |items|
    && forall j: nat :: j < |items| ==>
         h.items[j] == items[j].(done := h.items[j].done) && (h.items[j].done ==> |items[j].blob| == items[j].obj.size)
  }

  ghost predicate SomeWrong(items: seq<Item>) {
    exists j: nat :: j < |items| && |items[j].blob| != items[j].obj.size
  }

  /** The chunk is there for everyone to read, with exactly these bytes. */
  ghost predicate Published(s: State, k: ChunkKey, b: Blob) {
    CanRead(s.l1.entries, k) && BytesAt(s, s.l1.entries[k].obj) == b
  }

  /** Where a step leaves the handler: at work, stopped with all it took, or through with it. */
  ghost predicate Moved(t: State, id: nat, items: seq<Item>, extra: seq<ChunkKey>) {
    || (id in t.handlers && AtWork(t.handlers[id], items, extra))
    || (SomeWrong(items) && id in t.handlers && t.handlers[id] == Dead(ItemKeys(items) + extra))
    || (!SomeWrong(items) && (forall j: nat :: j < |items| ==> Published(t, items[j].key, items[j].blob))
        && if extra == [] then id !in t.handlers else id in t.handlers && t.handlers[id] == Dead(extra))
  }

  lemma WorkKeys(h: Handler, items: seq<Item>, extra: seq<ChunkKey>)
    requires AtWork(h, items, extra)
    ensures ItemKeys(h.items) == ItemKeys(items)
  {
  }

  lemma CopyMoves(h: Handler, items: seq<Item>, extra: seq<ChunkKey>, j: nat, data: Blob)
    requires AtWork(h, items, extra) && j < |items| && |items[j].blob| == items[j].obj.size
    ensures AtWork(h.(items := h.items[j := h.items[j].(done := data == h.items[j].blob)]), items, extra)
  {
  }

  lemma ItemIsOk(s: State, id: nat, j: nat)
    requires Inv(s) && IsStoring(s, id) && j < |s.handlers[id].items|
    ensures ItemOk(s, s.handlers[id].items[j])
  {
    assert HandlerOk(s, s.handlers[id]);
  }

  lemma FinishMoves(s: State, id: nat, items: seq<Item>, extra: seq<ChunkKey>)
    requires Inv(s) && CanStoreFinish(s, id) && AtWork(s.handlers[id], items, extra)
    ensures Moved(DoStoreFinish(s, id), id, items, extra)
  {
    hide Inv, FinishWrite;
    var h := s.handlers[id];
    var t := DoStoreFinish(s, id);
    WorkKeys(h, items, extra);
    WrittenAreLockedIn(s, id);
    FinishWriteKeepsInv(s.l1, ItemKeys(h.items));
    FinishKeepsSlices(s.l1, ItemKeys(h.items));
    forall j: nat | j < |items|
      ensures Published(t, items[j].key, items[j].blob) && |items[j].blob| == items[j].obj.size
    {
      assert h.items[j] in h.items && ItemKeys(items)[j] == items[j].key;
      ItemIsOk(s, id, j);
    }
  }

  lemma WrittenAreLockedIn(s: State, id: nat)
    requires Inv(s) && IsStoring(s, id)
    ensures L1Inv(s.l1)
    ensures forall k :: k in ItemKeys(s.handlers[id].items) ==> k in s.l1.entries && !s.l1.entries[k].isTemporary
  {
    WrittenAreLocked(s, id);
  }

  lemma FinishKeepsSlices(l: L1, keys: seq<ChunkKey>)
    ensures forall k :: k in l.entries ==>
              k in FinishWrite(l, keys).entries && FinishWrite(l, keys).entries[k].obj == l.entries[k].obj
  {
  }

  lemma StoreMoves(s: State, a: StoreStep, id: nat, items: seq<Item>, extra: seq<ChunkKey>)
    requires Inv(s) && StoreEnabled(s, a) && id in s.handlers && AtWork(s.handlers[id], items, extra)
    ensures Moved(StoreApply(s, a), id, items, extra)
  {
    hide Inv, ReserveWrite, ItemsOf, TakenKeys, FinishWrite, AtWork;
    var h := s.handlers[id];
    WorkKeys(h, items, extra);
    WorkMeans(h, items, extra);
    match a
    case StoreReserve(b, keys, chunks, n) =>
    case StoreCopy(b, j, data) => if b == id { CopyMoves(h, items, extra, j, data); }
    case StoreRaise(b, j) =>
    case StoreFinish(b) => if b == id { FinishMoves(s, id, items, extra); }
  }

  lemma WorkMeans(h: Handler, items: seq<Item>, extra: seq<ChunkKey>)
    requires AtWork(h, items, extra)
    ensures h.Storing? && h.extra == extra && |h.items| == |items|
    ensures forall j: nat :: j < |items| ==> h.items[j].blob == items[j].blob && h.items[j].obj == items[j].obj
  {
  }

  lemma CallLeavesStores(s: State, a: CallStep, id: nat)
    requires CallEnabled(s, a) && IsStoring(s, id)
    ensures id in CallApply(s, a).handlers && CallApply(s, a).handlers[id] == s.handlers[id]
  {
    hide FinishRead, Finds, Sized, TakeReleasedOf, Promote, Close;
  }

  /** Only its own steps move a STORE. */
  lemma StepMoves(s: State, step: Step, id: nat, items: seq<Item>, extra: seq<ChunkKey>)
    requires Inv(s) && Enabled(s, step) && id in s.handlers && AtWork(s.handlers[id], items, extra)
    ensures Moved(Apply(s, step), id, items, extra)
  {
    hide Inv, StoreEnabled, LookupEnabled, KeeperEnabled, CallEnabled, StoreApply, LookupApply, KeeperApply, CallApply,
         AtWork;
    WorkMeans(s.handlers[id], items, extra);
    match step
    case ByStore(a) => StoreMoves(s, a, id, items, extra);
    case ByLookup(a) => LookupFrame(s, a);
    case ByKeeper(a) => KeeperFrame(s, a);
    case ByCall(a) => CallLeavesStores(s, a, id);
  }

  // ---- the message ------------------------------------------------------------------------

  /** What the reservation between s and t took. */
  ghost function TakenBy(s: State, t: State): set<ChunkKey> {
    t.l1.entries.Keys - s.l1.entries.Keys
  }

  /** The message has no blob for the i-th key, or one of the wrong size. */
  ghost predicate BadBlob(chunks: seq<Blob>, n: nat, i: nat) {
    i >= |chunks| || |chunks[i]| != n
  }

  ghost predicate TookBad(taken: set<ChunkKey>, keys: seq<ChunkKey>, chunks: seq<Blob>, n: nat) {
    exists i: nat :: i < |keys| && keys[i] in taken && BadBlob(chunks, n, i)
  }

  /** A key was taken whose blob is there and has the wrong size. */
  ghost predicate TookWrong(taken: set<ChunkKey>, keys: seq<ChunkKey>, chunks: seq<Blob>, n: nat) {
    exists i: nat :: i < |keys| && keys[i] in taken && i < |chunks| && |chunks[i]| != n
  }

  /** Key k was taken and the message has no blob for it. */
  ghost predicate LeftOver(taken: set<ChunkKey>, keys: seq<ChunkKey>, chunks: seq<Blob>, k: ChunkKey) {
    exists i: nat :: |chunks| <= i < |keys| && keys[i] == k && k in taken
  }

  ghost predicate ItemFor(taken: set<ChunkKey>, keys: seq<ChunkKey>, chunks: seq<Blob>, it: Item, i: nat) {
    i < |keys| && i < |chunks| && keys[i] in taken && it.key == keys[i] && it.blob == chunks[i]
  }

  ghost predicate FromMessage(taken: set<ChunkKey>, keys: seq<ChunkKey>, chunks: seq<Blob>, it: Item) {
    exists i: nat :: ItemFor(taken, keys, chunks, it, i)
  }

  /** Items and left-over keys of a handler, read off the message and what was taken. */
  ghost predicate WorkOf(taken: set<ChunkKey>, keys: seq<ChunkKey>, chunks: seq<Blob>, n: nat, items: seq<Item>,
                         extra: seq<ChunkKey>) {
    && (forall i: nat :: i < |keys| && i < |chunks| && keys[i] in taken ==> keys[i] in ItemKeys(items))
    && (forall j: nat :: j < |items| ==> items[j].obj.size == n && FromMessage(taken, keys, chunks, items[j]))
    && (forall k :: k in extra <==> LeftOver(taken, keys, chunks, k))
  }

  lemma InvCore(s: State)
    requires Inv(s)
    ensures L1Inv(s.l1)
  {
  }

  /** The keys answered with a slice are those that were taken, each with a slice of the chunk size. */
  lemma TookGot(s: State, keys: seq<ChunkKey>, n: nat)
    requires Inv(s) && NoDup(keys) && n > 0
    ensures var (m, got) := ReserveWrite(s.l1, keys, n, false);
            && (forall k :: k in keys ==> (k in m.entries.Keys - s.l1.entries.Keys <==> k in got && got[k].Some?))
            && (forall k :: k in keys && k in got && got[k].Some? ==> got[k].value.size == n)
  {
    hide Inv, ReserveWrite, L1Inv;
    InvCore(s);
    ReserveWriteReserves(s.l1, keys, n, false);
  }

  lemma ItemsMatch(got: map<ChunkKey, Option<Slice>>, taken: set<ChunkKey>, keys: seq<ChunkKey>, chunks: seq<Blob>,
                   n: nat)
    requires NoDup(keys) && forall k :: k in keys ==> (k in taken <==> k in got && got[k].Some?)
    requires forall k :: k in keys && k in got && got[k].Some? ==> got[k].value.size == n
    ensures var items := ItemsOf(got, keys[..Sent(keys, chunks)], chunks);
            && (forall i: nat :: i < |keys| && i < |chunks| && keys[i] in taken ==> keys[i] in ItemKeys(items))
            && (forall j: nat :: j < |items| ==>
                  items[j].obj.size == n && !items[j].done && FromMessage(taken, keys, chunks, items[j]))
  {
    hide ItemsOf;
    var sent := Sent(keys, chunks);
    var items := ItemsOf(got, keys[..sent], chunks);
    ItemsOfEffect(got, keys[..sent], chunks);
    forall i: nat | i < |keys| && i < |chunks| && keys[i] in taken
      ensures keys[i] in ItemKeys(items)
    {
      assert keys[..sent][i] == keys[i];
    }
    forall j: nat | j < |items|
      ensures items[j].obj.size == n && !items[j].done && FromMessage(taken, keys, chunks, items[j])
    {
      assert ItemFrom(got, keys[..sent], chunks, items[j]);
      var i: nat :| i < sent && items[j].key == keys[..sent][i] && items[j].blob == chunks[i];
      assert items[j].key == keys[i] && keys[i] in keys;
      assert ItemFor(taken, keys, chunks, items[j], i);
    }
  }

  lemma ExtraMatches(got: map<ChunkKey, Option<Slice>>, taken: set<ChunkKey>, keys: seq<ChunkKey>, chunks: seq<Blob>)
    requires forall k :: k in keys ==> (k in taken <==> k in got && got[k].Some?)
    ensures forall k :: k in TakenKeys(got, keys[Sent(keys, chunks)..]) <==> LeftOver(taken, keys, chunks, k)
  {
    hide TakenKeys;
    var sent := Sent(keys, chunks);
    forall k
      ensures k in TakenKeys(got, keys[sent..]) <==> LeftOver(taken, keys, chunks, k)
    {
      if k in TakenKeys(got, keys[sent..]) {
        var j: nat :| j < |keys[sent..]| && keys[sent..][j] == k;
        assert keys[sent + j] == k;
      }
      if LeftOver(taken, keys, chunks, k) {
        var i: nat :| |chunks| <= i < |keys| && keys[i] == k && k in taken;
        assert keys[sent..][i - sent] == k;
      }
    }
  }

  lemma ReserveWork(s: State, id: nat, keys: seq<ChunkKey>, chunks: seq<Blob>, n: nat)
    requires Inv(s) && CanStoreReserve(s, id, keys, chunks, n)
    ensures var t := DoStoreReserve(s, id, keys, chunks, n);
            && id in t.handlers && t.handlers[id].Storing?
            && AtWork(t.handlers[id], t.handlers[id].items, t.handlers[id].extra)
            && WorkOf(TakenBy(s, t), keys, chunks, n, t.handlers[id].items, t.handlers[id].extra)
  {
    hide Inv, ReserveWrite, ItemsOf, TakenKeys, LeftOver, FromMessage;
    var t := DoStoreReserve(s, id, keys, chunks, n);
    var got := ReserveWrite(s.l1, keys, n, false).1;
    TookGot(s, keys, n);
    ItemsMatch(got, TakenBy(s, t), keys, chunks, n);
    ExtraMatches(got, TakenBy(s, t), keys, chunks);
    var sent := Sent(keys, chunks);
    assert t.handlers[id] == Storing(ItemsOf(got, keys[..sent], chunks), TakenKeys(got, keys[sent..]));
  }

  /** A handler has a wrong item, or a key left over, exactly when the message was bad for what it took. */
  lemma WrongIs(taken: set<ChunkKey>, keys: seq<ChunkKey>, chunks: seq<Blob>, n: nat, items: seq<Item>,
                extra: seq<ChunkKey>)
    requires WorkOf(taken, keys, chunks, n, items, extra) && NoDup(keys)
    ensures SomeWrong(items) <==> TookWrong(taken, keys, chunks, n)
    ensures SomeWrong(items) || extra != [] <==> TookBad(taken, keys, chunks, n)
  {
    if SomeWrong(items) {
      var j: nat :| j < |items| && |items[j].blob| != items[j].obj.size;
      assert FromMessage(taken, keys, chunks, items[j]);
      var i: nat :| ItemFor(taken, keys, chunks, items[j], i);
      assert BadBlob(chunks, n, i);
    }
    if extra != [] {
      assert LeftOver(taken, keys, chunks, extra[0]);
      var i: nat :| |chunks| <= i < |keys| && keys[i] == extra[0] && keys[i] in taken;
      assert BadBlob(chunks, n, i);
    }
    if TookBad(taken, keys, chunks, n) {
      var i: nat :| i < |keys| && keys[i] in taken && BadBlob(chunks, n, i);
      if i >= |chunks| {
        assert LeftOver(taken, keys, chunks, keys[i]);
      }
    }
    if TookWrong(taken, keys, chunks, n) {
      var i: nat :| i < |keys| && keys[i] in taken && i < |chunks| && |chunks[i]| != n;
      var j := ItemOf(taken, keys, chunks, n, items, extra, i);
    }
  }

  /** The item of a taken key that has a blob. */
  lemma ItemOf(taken: set<ChunkKey>, keys: seq<ChunkKey>, chunks: seq<Blob>, n: nat, items: seq<Item>,
               extra: seq<ChunkKey>, i: nat) returns (j: nat)
    requires WorkOf(taken, keys, chunks, n, items, extra) && NoDup(keys)
    requires i < |keys| && i < |chunks| && keys[i] in taken
    ensures j < |items| && items[j].key == keys[i] && items[j].blob == chunks[i] && items[j].obj.size == n
  {
    j :| j < |items| && ItemKeys(items)[j] == keys[i];
    assert FromMessage(taken, keys, chunks, items[j]);
    var b: nat :| ItemFor(taken, keys, chunks, items[j], b);
    assert b == i;
  }

  lemma KeysKept(taken: set<ChunkKey>, keys: seq<ChunkKey>, chunks: seq<Blob>, n: nat, items: seq<Item>,
                 extra: seq<ChunkKey>, k: ChunkKey)
    requires WorkOf(taken, keys, chunks, n, items, extra)
    ensures k in ItemKeys(items) + extra <==> k in keys && k in taken
  {
    if k in ItemKeys(items) {
      var j: nat :| j < |items| && items[j].key == k;
      assert FromMessage(taken, keys, chunks, items[j]);
    }
    if k in extra {
      assert LeftOver(taken, keys, chunks, k);
    }
    if k in keys && k in taken {
      var i: nat :| i < |keys| && keys[i] == k;
      assert i >= |chunks| ==> LeftOver(taken, keys, chunks, k);
    }
  }

  // ---- the fate of a STORE ------------------------------------------------------------------

  /** Step m is the reservation of this STORE. */
  ghost predicate Reserves(steps: seq<Step>, m: nat, id: nat, keys: seq<ChunkKey>, chunks: seq<Blob>, n: nat) {
    m < |steps| && steps[m] == ByStore(StoreReserve(id, keys, chunks, n))
  }

  ghost predicate IsBusy(states: seq<State>, m: nat, q: nat, id: nat)
    requires q < |states|
  {
    forall x: nat :: m < x < q ==> IsStoring(states[x], id)
  }

  /** Where the STORE that reserved at step m stands in a later state, until its handler id is given up. */
  lemma {:induction false} StoreStands(states: seq<State>, steps: seq<Step>, m: nat, q: nat, id: nat,
                                       keys: seq<ChunkKey>, chunks: seq<Blob>, n: nat)
    returns (items: seq<Item>, extra: seq<ChunkKey>)
    requires Run(states, steps) && m < q < |states| && Reserves(steps, m, id, keys, chunks, n)
    requires IsBusy(states, m, q, id)
    ensures WorkOf(TakenBy(states[m], states[m + 1]), keys, chunks, n, items, extra)
              && Moved(states[q], id, items, extra)
    decreases q
  {
    hide Inv, Enabled, Apply, WorkOf, Moved, TakenBy;
    RunStep(states, steps, q - 1);
    RunKeepsInv(states, steps, q - 1);
    if q == m + 1 {
      items, extra := StartsMoving(states[m], id, keys, chunks, n);
    } else {
      items, extra := StoreStands(states, steps, m, q - 1, id, keys, chunks, n);
      StillAtWork(states[q - 1], id, items, extra);
      StepMoves(states[q - 1], steps[q - 1], id, items, extra);
    }
  }

  lemma StartsMoving(s: State, id: nat, keys: seq<ChunkKey>, chunks: seq<Blob>, n: nat)
    returns (items: seq<Item>, extra: seq<ChunkKey>)
    requires Inv(s) && Enabled(s, ByStore(StoreReserve(id, keys, chunks, n)))
    ensures var t := Apply(s, ByStore(StoreReserve(id, keys, chunks, n)));
            WorkOf(TakenBy(s, t), keys, chunks, n, items, extra) && Moved(t, id, items, extra)
  {
    hide Inv, WorkOf, DoStoreReserve, AtWork, TakenBy;
    ReserveWork(s, id, keys, chunks, n);
    var h := DoStoreReserve(s, id, keys, chunks, n).handlers[id];
    items, extra := h.items, h.extra;
  }

  lemma StillAtWork(s: State, id: nat, items: seq<Item>, extra: seq<ChunkKey>)
    requires IsStoring(s, id) && Moved(s, id, items, extra)
    ensures AtWork(s.handlers[id], items, extra)
  {
  }

  lemma KeysOnce(states: seq<State>, steps: seq<Step>, m: nat, id: nat, keys: seq<ChunkKey>, chunks: seq<Blob>, n: nat)
    requires Run(states, steps) && Reserves(steps, m, id, keys, chunks, n)
    ensures NoDup(keys)
  {
    RunStep(states, steps, m);
  }

  /** A STORE through with its work: dead with these keys, or gone with all published. */
  ghost predicate Fated(u: State, id: nat, taken: set<ChunkKey>, keys: seq<ChunkKey>, chunks: seq<Blob>, n: nat) {
    if TookBad(taken, keys, chunks, n) then
      && id in u.handlers && u.handlers[id].Dead?
      && forall k :: k in u.handlers[id].keys <==>
           if TookWrong(taken, keys, chunks, n) then k in keys && k in taken else LeftOver(taken, keys, chunks, k)
    else
      && id !in u.handlers
      && forall i: nat :: i < |keys| && keys[i] in taken ==> i < |chunks| && Published(u, keys[i], chunks[i])
  }

  lemma MovedIsFated(u: State, id: nat, taken: set<ChunkKey>, keys: seq<ChunkKey>, chunks: seq<Blob>, n: nat,
                     items: seq<Item>, extra: seq<ChunkKey>)
    requires Moved(u, id, items, extra) && !IsStoring(u, id) && WorkOf(taken, keys, chunks, n, items, extra)
               && NoDup(keys)
    ensures Fated(u, id, taken, keys, chunks, n)
  {
    hide WorkOf, Published, TookBad, TookWrong, NoDup, SomeWrong;
    WrongIs(taken, keys, chunks, n, items, extra);
    if TookBad(taken, keys, chunks, n) {
      forall k
        ensures k in u.handlers[id].keys <==>
                  if TookWrong(taken, keys, chunks, n) then k in keys && k in taken
                  else LeftOver(taken, keys, chunks, k)
      {
        KeysKept(taken, keys, chunks, n, items, extra, k);
        ExtraIs(taken, keys, chunks, n, items, extra, k);
      }
    } else {
      forall i: nat | i < |keys| && keys[i] in taken
        ensures i < |chunks| && Published(u, keys[i], chunks[i])
      {
        GoodBlob(taken, keys, chunks, n, i);
        var j := ItemOf(taken, keys, chunks, n, items, extra, i);
      }
    }
  }

  lemma ExtraIs(taken: set<ChunkKey>, keys: seq<ChunkKey>, chunks: seq<Blob>, n: nat, items: seq<Item>,
                extra: seq<ChunkKey>, k: ChunkKey)
    requires WorkOf(taken, keys, chunks, n, items, extra)
    ensures k in extra <==> LeftOver(taken, keys, chunks, k)
  {
  }

  lemma GoodBlob(taken: set<ChunkKey>, keys: seq<ChunkKey>, chunks: seq<Blob>, n: nat, i: nat)
    requires !TookBad(taken, keys, chunks, n) && i < |keys| && keys[i] in taken
    ensures i < |chunks|
  {
    assert !BadBlob(chunks, n, i);
  }

  /**
   * The fate of a STORE, decided by its message and what it took. Once its
   * handler is no longer storing it is dead if and only if a key was taken
   * that the message had no blob for, or one of the wrong size; otherwise it
   * is gone and every key it took is readable with exactly the blob sent for
   * it. The keys a dead one keeps are all it took when a size was wrong, and
   * those without a blob when none was.
   */
  lemma StoreFate(states: seq<State>, steps: seq<Step>, m: nat, q: nat, id: nat, keys: seq<ChunkKey>, chunks: seq<Blob>,
                  n: nat)
    requires Run(states, steps) && m < q < |states| && Reserves(steps, m, id, keys, chunks, n)
    requires IsBusy(states, m, q, id) && !IsStoring(states[q], id)
    ensures Fated(states[q], id, TakenBy(states[m], states[m + 1]), keys, chunks, n)
    ensures id in states[q].handlers <==> TookBad(TakenBy(states[m], states[m + 1]), keys, chunks, n)
  {
    hide Enabled, Apply, Init, WorkOf, Moved, TookBad, TookWrong;
    var items, extra := StoreStands(states, steps, m, q, id, keys, chunks, n);
    KeysOnce(states, steps, m, id, keys, chunks, n);
    MovedIsFated(states[q], id, TakenBy(states[m], states[m + 1]), keys, chunks, n, items, extra);
  }

  // ---- for ever ---------------------------------------------------------------------------------

  /** Still storing since step m, or dead with key k among those it keeps. */
  ghost predicate Holds(states: seq<State>, m: nat, x: nat, id: nat, k: ChunkKey)
    requires x < |states|
  {
    || (IsBusy(states, m, x, id) && IsStoring(states[x], id))
    || (id in states[x].handlers && states[x].handlers[id].Dead? && k in states[x].handlers[id].keys)
  }

  lemma {:induction false} BadStays(states: seq<State>, steps: seq<Step>, m: nat, x: nat, id: nat,
                                    keys: seq<ChunkKey>, chunks: seq<Blob>, n: nat, i: nat)
    requires Run(states, steps) && m < x < |states| && Reserves(steps, m, id, keys, chunks, n)
    requires i < |keys| && keys[i] in TakenBy(states[m], states[m + 1]) && BadBlob(chunks, n, i)
    ensures Holds(states, m, x, id, keys[i])
    decreases x
  {
    hide Enabled, Apply, Init, IsStoring, TakenBy;
    if x > m + 1 {
      BadStays(states, steps, m, x - 1, id, keys, chunks, n, i);
    }
    if x > m + 1 && !(IsBusy(states, m, x - 1, id) && IsStoring(states[x - 1], id)) {
      TombsRemain(states, steps, x - 1, x, id);
    } else if !IsStoring(states[x], id) {
      StoreFate(states, steps, m, x, id, keys, chunks, n);
      FatedKeeps(states[x], id, TakenBy(states[m], states[m + 1]), keys, chunks, n, i);
    }
  }

  lemma FatedKeeps(u: State, id: nat, taken: set<ChunkKey>, keys: seq<ChunkKey>, chunks: seq<Blob>, n: nat, i: nat)
    requires Fated(u, id, taken, keys, chunks, n) && i < |keys| && keys[i] in taken && BadBlob(chunks, n, i)
    ensures id in u.handlers && u.handlers[id].Dead? && keys[i] in u.handlers[id].keys
  {
  }

  lemma BusyLocks(states: seq<State>, steps: seq<Step>, m: nat, x: nat, id: nat, keys: seq<ChunkKey>, chunks: seq<Blob>,
                  n: nat, k: ChunkKey)
    requires Run(states, steps) && m < x < |states| && Reserves(steps, m, id, keys, chunks, n)
    requires IsBusy(states, m, x, id) && IsStoring(states[x], id) && k in keys && k in TakenBy(states[m], states[m + 1])
    ensures k in Claim(states[x], Writes, Call(id))
  {
    hide Enabled, Apply, Init, TakenBy, WorkOf, Moved, AtWork;
    var items, extra := StoreStands(states, steps, m, x, id, keys, chunks, n);
    StillAtWork(states[x], id, items, extra);
    WorkKeys(states[x].handlers[id], items, extra);
    WorkMeans(states[x].handlers[id], items, extra);
    KeysKept(TakenBy(states[m], states[m + 1]), keys, chunks, n, items, extra, k);
  }

  /**
   * From the message to the damage: a key that a STORE took without a good
   * blob for it stays write-locked in every later state of the run. It can
   * never be read, stored again, evicted or loaded.
   */
  lemma BadBlobLocksForEver(states: seq<State>, steps: seq<Step>, m: nat, x: nat, id: nat, keys: seq<ChunkKey>,
                            chunks: seq<Blob>, n: nat, i: nat)
    requires Run(states, steps) && m < x < |states| && Reserves(steps, m, id, keys, chunks, n)
    requires i < |keys| && keys[i] in TakenBy(states[m], states[m + 1]) && BadBlob(chunks, n, i)
    ensures keys[i] in states[x].l1.entries && states[x].l1.entries[keys[i]].writeLocked
  {
    hide Enabled, Apply, Init, Inv, TakenBy, Claim, IsStoring;
    BadStays(states, steps, m, x, id, keys, chunks, n, i);
    if IsBusy(states, m, x, id) && IsStoring(states[x], id) {
      BusyLocks(states, steps, m, x, id, keys, chunks, n, keys[i]);
      RunKeepsInv(states, steps, x);
      ClaimedIsLocked(states[x], id, keys[i]);
    } else {
      DeadLocksForEver(states, steps, x, x, id, keys[i]);
    }
  }

  lemma ClaimedIsLocked(s: State, id: nat, k: ChunkKey)
    requires Inv(s) && k in Claim(s, Writes, Call(id))
    ensures k in s.l1.entries && s.l1.entries[k].writeLocked
  {
    CoreLocksOf(s);
    WriterLocks(s, Call(id), k);
  }

  // ---- a run ---------------------------------------------------------------------------------------

  ghost function Unsent(): State {
    Empty().(l1 := WRITING, handlers := map[0 := Storing([], [KEY])])
  }

  ghost function Stranded(): State {
    Unsent().(handlers := map[0 := Dead([KEY])], pending := [[]])
  }

  lemma TakesOne()
    ensures TakenKeys(GOT, [KEY]) == [KEY]
  {
    assert [KEY][..0] == [];
    assert TakenKeys(GOT, []) == [];
  }

  lemma ReservesUnsent()
    ensures Leads(Empty(), ByStore(StoreReserve(0, [KEY], [], 1)), Unsent())
  {
    hide ReserveWrite, TakenKeys, LookupEnabled, KeeperEnabled, CallEnabled, LookupApply, KeeperApply, CallApply;
    ReservesOne();
    TakesOne();
    assert [KEY][..0] == [] && [KEY][0..] == [KEY];
    assert DoStoreReserve(Empty(), 0, [KEY], [], 1).stored == Empty().stored + {};
    assert DoStoreReserve(Empty(), 0, [KEY], [], 1) == Unsent();
  }

  lemma FinishesNothing()
    ensures Leads(Unsent(), ByStore(StoreFinish(0)), Stranded())
  {
    assert Unlock(WRITING.entries, []) == WRITING.entries;
    assert FinishWrite(WRITING, []) == WRITING;
    assert DoStoreFinish(Unsent(), 0) == Stranded();
  }

  /** A STORE of one missing key and no blob is answered like any other and leaves the key locked. */
  lemma StrandingHappens() returns (states: seq<State>, steps: seq<Step>)
    ensures |states| == |steps| + 1 == 3 && Run(states, steps) && Reserves(steps, 0, 0, [KEY], [], 1)
    ensures states[2].handlers == map[0 := Dead([KEY])] && steps[1] == ByStore(StoreFinish(0))
    ensures KEY in TakenBy(states[0], states[1]) && BadBlob([], 1, 0)
  {
    hide Run, Leads, Empty, Unsent, Stranded;
    StartsEmpty();
    ReservesUnsent();
    states, steps := Extend([Empty()], [], ByStore(StoreReserve(0, [KEY], [], 1)), Unsent());
    FinishesNothing();
    states, steps := Extend(states, steps, ByStore(StoreFinish(0)), Stranded());
    StrandedState();
  }

  lemma StrandedState()
    ensures Stranded().handlers == map[0 := Dead([KEY])] && KEY in TakenBy(Empty(), Unsent())
  {
    assert KEY in WRITING.entries && KEY !in FRESH.entries;
  }
}
