// The life of a RETRIEVE, a FREE and an END_SESSION: a reply is complete before
// anything is released, and exactly what the session still holds is given back.
module CacheReplies {
  import opened Types
  import opened LockProtocol
  import opened Sessions
  import opened Cache
  import opened CacheInv
  import opened CacheFrames
  import opened CacheBooks
  import opened CacheSafety

  // ---- what a call may do next ---------------------------------------------------------

  ghost predicate Handles(s: State, id: nat, h: Handler) {
    id in s.handlers && s.handlers[id] == h
  }

  /** A RETRIEVE goes on by sending a chunk, or by promoting once all are sent. */
  ghost predicate ReadingGoesOn(s: State, step: Step, t: State, id: nat)
    requires id in s.handlers && s.handlers[id].Reading?
  {
    var h := s.handlers[id];
    || Handles(t, id, h)
    || (step == ByCall(RetrieveCopy(id)) && id in t.handlers && t.handlers[id].Reading?
        && t.handlers[id].rid == h.rid && t.handlers[id].keys == h.keys && t.handlers[id].objs == h.objs)
    || (step == ByCall(RetrievePromote(id)) && |h.out| >= |h.objs| && Handles(t, id, Releasing(h.rid, h.keys)))
  }

  /** The section of release takes what the session holds of the keys, no more and no less. */
  ghost predicate Takes(s: State, step: Step, t: State, id: nat, rid: string, keys: seq<ChunkKey>,
                        taken: seq<ChunkKey>) {
    && step == ByCall(ReleaseTake(id))
    && Handles(s, id, Releasing(rid, keys)) && Handles(t, id, Dropping(rid, taken, false))
    && (forall k :: k in taken <==> k in keys && k in HeldKeys(s.ses, rid))
    && (forall k :: k in HeldKeys(t.ses, rid) <==> k in HeldKeys(s.ses, rid) && k !in keys)
  }

  /** One hold is dropped on each key taken, and the call is over. */
  ghost predicate GivesBack(s: State, step: Step, t: State, id: nat, taken: seq<ChunkKey>) {
    && step == ByCall(ReleaseFinish(id)) && id !in t.handlers
    && Dropped(s.l1.entries, t.l1.entries, taken)
  }

  lemma CallGoesOn(s: State, a: CallStep, id: nat)
    requires CallEnabled(s, a) && id in s.handlers && a.id != id
    ensures Handles(CallApply(s, a), id, s.handlers[id])
  {
    hide FinishRead, Finds, Sized, TakeReleasedOf, Promote, Close, FirstHeldOf;
  }

  lemma ReadingNext(s: State, a: CallStep, id: nat)
    requires CallEnabled(s, a) && id in s.handlers && s.handlers[id].Reading? && a.id == id
    ensures ReadingGoesOn(s, ByCall(a), CallApply(s, a), id)
  {
    hide FinishRead, Finds, Sized, TakeReleasedOf, Promote, Close, FirstHeldOf;
  }

  lemma ReleasingNext(s: State, a: CallStep, id: nat)
    requires CallEnabled(s, a) && id in s.handlers && s.handlers[id].Releasing? && a.id == id
    ensures var (h, t) := (s.handlers[id], CallApply(s, a));
            && id in t.handlers && t.handlers[id].Dropping?
            && Takes(s, ByCall(a), t, id, h.rid, h.keys, t.handlers[id].keys)
  {
    hide FinishRead, Finds, Sized, Promote, Close, FirstHeldOf;
  }

  lemma DroppingNext(s: State, a: CallStep, id: nat)
    requires Inv(s) && CallEnabled(s, a) && id in s.handlers && a.id == id
    requires s.handlers[id].Dropping? && !s.handlers[id].ending
    ensures GivesBack(s, ByCall(a), CallApply(s, a), id, s.handlers[id].keys)
  {
    hide TempsOk, ContentOk, RecordsOk, CoverOk, JobOk, QueueOk, SessionsOk, MirrorOk, Books, L1Inv, FinishRead,
         Finds, Sized, Dropped, Promote, TakeReleasedOf, Close, FirstHeldOf;
    var keys := s.handlers[id].keys;
    CoreLocksOf(s);
    forall k | k in keys
      ensures CanRead(s.l1.entries, k) && s.l1.entries[k].readCount > 0
    {
      assert k in Claim(s, Reads, Call(id));
      HolderReads(s, Call(id), k);
    }
    assert HandlerOk(s, s.handlers[id]);
    FinishReadEffect(s.l1, keys);
  }

  /** A handler in the middle of a RETRIEVE or a release changes by its own steps only. */
  lemma OwnStepsOnly(s: State, step: Step, id: nat)
    requires Enabled(s, step) && id in s.handlers && !s.handlers[id].Storing?
    ensures Handles(Apply(s, step), id, s.handlers[id]) || (step.ByCall? && step.call.id == id)
  {
    hide StoreEnabled, LookupEnabled, KeeperEnabled, CallEnabled, StoreApply, LookupApply, KeeperApply, CallApply;
    match step
    case ByStore(a) => StoreFrame(s, a);
    case ByLookup(a) => LookupFrame(s, a);
    case ByKeeper(a) => KeeperFrame(s, a);
    case ByCall(a) =>
      if a.id != id {
        CallGoesOn(s, a, id);
      }
  }

  // ---- a release, from its start to its end --------------------------------------------

  /** How far a release has come: not begun, its keys taken at step q, over at step r. */
  datatype Phase = Entered | Took(q: nat, taken: seq<ChunkKey>) | Over(q: nat, r: nat, taken: seq<ChunkKey>)

  ghost predicate TookAt(states: seq<State>, steps: seq<Step>, p: nat, q: nat, n: nat, id: nat, rid: string,
                         keys: seq<ChunkKey>, taken: seq<ChunkKey>)
    requires n < |states| == |steps| + 1
  {
    p <= q < n && Takes(states[q], steps[q], states[q + 1], id, rid, keys, taken)
  }

  ghost predicate Releases(states: seq<State>, steps: seq<Step>, p: nat, n: nat, id: nat, rid: string,
                           keys: seq<ChunkKey>, phase: Phase)
    requires n < |states| == |steps| + 1
  {
    match phase
    case Entered => Handles(states[n], id, Releasing(rid, keys))
    case Took(q, taken) =>
      TookAt(states, steps, p, q, n, id, rid, keys, taken) && Handles(states[n], id, Dropping(rid, taken, false))
    case Over(q, r, taken) =>
      && TookAt(states, steps, p, q, n, id, rid, keys, taken) && q < r < n
      && GivesBack(states[r], steps[r], states[r + 1], id, taken)
  }

  lemma ReleaseStep(states: seq<State>, steps: seq<Step>, p: nat, n: nat, id: nat, rid: string, keys: seq<ChunkKey>,
                    phase: Phase)
    returns (phase': Phase)
    requires Run(states, steps) && p <= n < |steps| && Releases(states, steps, p, n, id, rid, keys, phase)
    ensures Releases(states, steps, p, n + 1, id, rid, keys, phase')
  {
    hide Init, Inv, Enabled, Apply, GivesBack, CallEnabled, CallApply;
    var s, t, step := states[n], states[n + 1], steps[n];
    phase' := phase;
    if !phase.Over? {
      RunStep(states, steps, n);
      OwnStepsOnly(s, step, id);
      if !Handles(t, id, s.handlers[id]) {
        CallStepIs(s, step);
        if phase.Entered? {
          ReleasingNext(s, step.call, id);
          phase' := Took(n, t.handlers[id].keys);
        } else {
          RunKeepsInv(states, steps, n);
          DroppingNext(s, step.call, id);
          phase' := Over(phase.q, n, phase.taken);
        }
      }
    }
  }

  lemma CallStepIs(s: State, step: Step)
    requires Enabled(s, step) && step.ByCall?
    ensures CallEnabled(s, step.call) && Apply(s, step) == CallApply(s, step.call)
  {
  }

  /** A release waits, has taken what the session holds of its keys, or has given exactly that back. */
  lemma {:induction false} ReleaseRunsItsCourse(states: seq<State>, steps: seq<Step>, p: nat, n: nat, id: nat,
                                                rid: string, keys: seq<ChunkKey>)
    returns (phase: Phase)
    requires Run(states, steps) && p <= n < |states| && Handles(states[p], id, Releasing(rid, keys))
    ensures Releases(states, steps, p, n, id, rid, keys, phase)
    decreases n
  {
    hide Linked, Init, Releases;
    if p == n {
      phase := Entered;
      ReleaseWaits(states, steps, p, id, rid, keys);
    } else {
      phase := ReleaseRunsItsCourse(states, steps, p, n - 1, id, rid, keys);
      phase := ReleaseStep(states, steps, p, n - 1, id, rid, keys, phase);
    }
  }

  lemma ReleaseWaits(states: seq<State>, steps: seq<Step>, p: nat, id: nat, rid: string, keys: seq<ChunkKey>)
    requires p < |states| == |steps| + 1 && Handles(states[p], id, Releasing(rid, keys))
    ensures Releases(states, steps, p, p, id, rid, keys, Entered)
  {
  }

  // ---- RETRIEVE and FREE -------------------------------------------------------------------

  /** At step p the whole reply had been sent, one blob per key. */
  ghost predicate RepliedAt(states: seq<State>, steps: seq<Step>, p: nat, n: nat, id: nat, rid: string,
                            keys: seq<ChunkKey>)
    requires n < |states| == |steps| + 1
  {
    && p < n && steps[p] == ByCall(RetrievePromote(id)) && id in states[p].handlers
    && states[p].handlers[id].Reading? && states[p].handlers[id].rid == rid && states[p].handlers[id].keys == keys
    && |states[p].handlers[id].out| == |keys|
    && Handles(states[p + 1], id, Releasing(rid, keys))
  }

  /** Still sending, with a part of the reply out. */
  ghost predicate Sending(s: State, id: nat, rid: string, keys: seq<ChunkKey>) {
    && id in s.handlers && s.handlers[id].Reading? && s.handlers[id].rid == rid && s.handlers[id].keys == keys
    && |s.handlers[id].out| <= |keys|
  }

  lemma RetrieveBegins(s: State, t: State, id: nat, rid: string, keys: seq<ChunkKey>)
    requires Leads(s, ByCall(Retrieve(id, rid, keys)), t)
    ensures Sending(t, id, rid, keys)
  {
  }

  lemma ReplyFits(s: State, id: nat)
    requires Inv(s) && id in s.handlers && s.handlers[id].Reading?
    ensures var h := s.handlers[id];
            |h.out| <= |h.keys| == |h.objs|
  {
    assert HandlerOk(s, s.handlers[id]);
  }

  /**
   * Whatever the server does meanwhile, a RETRIEVE begun at step a is still
   * sending, or has sent one blob per key and then released its keys: it took
   * exactly those its session still held, and dropped one hold on each.
   */
  lemma {:induction false} RetrieveRunsItsCourse(states: seq<State>, steps: seq<Step>, a: nat, n: nat, id: nat,
                                                 rid: string, keys: seq<ChunkKey>)
    returns (p: nat, phase: Phase)
    requires Run(states, steps) && a < n < |states| && steps[a] == ByCall(Retrieve(id, rid, keys))
    ensures || Sending(states[n], id, rid, keys)
            || (a < p < n && RepliedAt(states, steps, p, n, id, rid, keys)
                && Releases(states, steps, p + 1, n, id, rid, keys, phase))
    decreases n
  {
    hide Init, Inv, Enabled, Apply, Releases, CallEnabled, CallApply, ObjsOf;
    p, phase := 0, Entered;
    RunStep(states, steps, n - 1);
    var s, t, step := states[n - 1], states[n], steps[n - 1];
    if a == n - 1 {
      RetrieveBegins(s, t, id, rid, keys);
    } else {
      p, phase := RetrieveRunsItsCourse(states, steps, a, n - 1, id, rid, keys);
      RunKeepsInv(states, steps, n - 1);
      RunKeepsInv(states, steps, n);
      if Sending(s, id, rid, keys) {
        OwnStepsOnly(s, step, id);
        ReplyFits(s, id);
        if !Handles(t, id, s.handlers[id]) {
          CallStepIs(s, step);
          ReadingNext(s, step.call, id);
          if Handles(t, id, Releasing(rid, keys)) {
            p, phase := n - 1, Entered;
            ReleaseWaits(states, steps, n, id, rid, keys);
          } else {
            ReplyFits(t, id);
          }
        }
      } else {
        phase := ReleaseStep(states, steps, p + 1, n - 1, id, rid, keys, phase);
      }
    }
  }

  /** A FREE of count keys releases the first ones its session holds, as many as that or all it has. */
  lemma FreeRunsItsCourse(states: seq<State>, steps: seq<Step>, a: nat, n: nat, id: nat, rid: string, count: nat)
    returns (keys: seq<ChunkKey>, phase: Phase)
    requires Run(states, steps) && a < n < |states| && steps[a] == ByCall(FreeFirst(id, rid, count))
    ensures keys <= HeldKeys(states[a].ses, rid) && |keys| <= count
    ensures |keys| == count || keys == HeldKeys(states[a].ses, rid)
    ensures Releases(states, steps, a + 1, n, id, rid, keys, phase)
  {
    hide Init, Releases, Linked;
    RunStep(states, steps, a);
    keys := FirstHeldOf(states[a].ses, rid, count);
    phase := ReleaseRunsItsCourse(states, steps, a + 1, n, id, rid, keys);
  }

  // ---- END_SESSION -----------------------------------------------------------------------------

  /** Everything the session held at step a is taken out of it for the handler. */
  ghost predicate TakesAllAt(states: seq<State>, steps: seq<Step>, a: nat, id: nat, rid: string, taken: seq<ChunkKey>)
    requires a < |steps| < |states|
  {
    && steps[a] == ByCall(EndFirst(id, rid)) && Handles(states[a + 1], id, Dropping(rid, taken, true))
    && (forall k :: k in taken <==> k in HeldKeys(states[a].ses, rid)) && HeldKeys(states[a + 1].ses, rid) == []
  }

  ghost predicate EndGivesBack(states: seq<State>, steps: seq<Step>, r: nat, id: nat, rid: string, taken: seq<ChunkKey>)
    requires r < |steps| < |states|
  {
    && steps[r] == ByCall(ReleaseFinish(id)) && Handles(states[r], id, Dropping(rid, taken, true))
    && Dropped(states[r].l1.entries, states[r + 1].l1.entries, taken) && Handles(states[r + 1], id, Closing(rid))
  }

  ghost predicate Forgets(states: seq<State>, steps: seq<Step>, e: nat, id: nat, rid: string)
    requires e < |steps| < |states|
  {
    && steps[e] == ByCall(EndSecond(id)) && Handles(states[e], id, Closing(rid))
    && rid !in states[e + 1].ses.hits && rid !in states[e + 1].ses.held
  }

  lemma EndBegins(s: State, a: CallStep)
    requires CallEnabled(s, a) && a.EndFirst?
    ensures var t := CallApply(s, a);
            && a.id in t.handlers && t.handlers[a.id].Dropping?
            && Handles(t, a.id, Dropping(a.rid, t.handlers[a.id].keys, true))
            && (forall k :: k in t.handlers[a.id].keys <==> k in HeldKeys(s.ses, a.rid))
            && HeldKeys(t.ses, a.rid) == []
  {
    hide Within, Without;
    TakesAll(s.ses, a.rid);
  }

  lemma EndDrops(s: State, a: CallStep, id: nat)
    requires Inv(s) && CallEnabled(s, a) && id in s.handlers && a.id == id
    requires s.handlers[id].Dropping? && s.handlers[id].ending
    ensures a == ReleaseFinish(id) && Handles(CallApply(s, a), id, Closing(s.handlers[id].rid))
    ensures Dropped(s.l1.entries, CallApply(s, a).l1.entries, s.handlers[id].keys)
  {
    hide TempsOk, ContentOk, RecordsOk, CoverOk, JobOk, QueueOk, SessionsOk, MirrorOk, Books, L1Inv, FinishRead,
         Finds, Sized, Dropped, Promote, TakeReleasedOf, Close, FirstHeldOf;
    var keys := s.handlers[id].keys;
    CoreLocksOf(s);
    forall k | k in keys
      ensures CanRead(s.l1.entries, k) && s.l1.entries[k].readCount > 0
    {
      assert k in Claim(s, Reads, Call(id));
      HolderReads(s, Call(id), k);
    }
    assert HandlerOk(s, s.handlers[id]);
    FinishReadEffect(s.l1, keys);
  }

  lemma EndForgets(s: State, a: CallStep, id: nat)
    requires CallEnabled(s, a) && id in s.handlers && a.id == id && s.handlers[id].Closing?
    ensures var t := CallApply(s, a);
            a == EndSecond(id) && s.handlers[id].rid !in t.ses.hits && s.handlers[id].rid !in t.ses.held
  {
    hide FinishRead, Finds, Sized, Promote, TakeReleasedOf, FirstHeldOf;
  }

  /**
   * An END_SESSION takes all its session holds, drops one hold on each of
   * these keys, and then forgets the session, in that order.
   */
  lemma {:induction false} EndRunsItsCourse(states: seq<State>, steps: seq<Step>, a: nat, n: nat, id: nat, rid: string)
    returns (taken: seq<ChunkKey>, r: nat, e: nat)
    requires Run(states, steps) && a < n < |states| && steps[a] == ByCall(EndFirst(id, rid))
    ensures TakesAllAt(states, steps, a, id, rid, taken)
    ensures || Handles(states[n], id, Dropping(rid, taken, true))
            || (a < r < n && EndGivesBack(states, steps, r, id, rid, taken) && Handles(states[n], id, Closing(rid)))
            || (a < r < e < n && EndGivesBack(states, steps, r, id, rid, taken) && Forgets(states, steps, e, id, rid))
    decreases n
  {
    hide Init, Inv, Enabled, Apply, CallEnabled, CallApply, Dropped;
    RunStep(states, steps, n - 1);
    var s, t, step := states[n - 1], states[n], steps[n - 1];
    r, e := 0, 0;
    if a == n - 1 {
      CallStepIs(s, step);
      EndBegins(s, step.call);
      taken := t.handlers[id].keys;
    } else {
      taken, r, e := EndRunsItsCourse(states, steps, a, n - 1, id, rid);
      if Handles(s, id, Dropping(rid, taken, true)) {
        RunKeepsInv(states, steps, n - 1);
        OwnStepsOnly(s, step, id);
        if !Handles(t, id, s.handlers[id]) {
          CallStepIs(s, step);
          EndDrops(s, step.call, id);
          r := n - 1;
        }
      } else if Handles(s, id, Closing(rid)) && !(e < n - 1 && r < e && Forgets(states, steps, e, id, rid)) {
        OwnStepsOnly(s, step, id);
        if !Handles(t, id, s.handlers[id]) {
          CallStepIs(s, step);
          EndForgets(s, step.call, id);
          e := n - 1;
        }
      }
    }
  }
}
