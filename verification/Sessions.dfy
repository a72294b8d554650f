// Lookup sessions: results and held read locks per request, and the queue of
// prefetch jobs. Each function is one section under the controller's lock.
module Sessions {
  import opened Types

  /** A queued lookup; `sized` tells whether the chunk size of its deployment is known. */
  datatype Lookup = Lookup(rid: string, keys: seq<ChunkKey>, sized: bool)

  datatype Sessions = Sessions(
    hits: map<string, Option<(nat, nat)>>,
    held: map<string, seq<ChunkKey>>,
    jobs: seq<Lookup>)

  /** The keys of an insertion-ordered dictionary built from a list. */
  function FromKeys(keys: seq<ChunkKey>): (r: seq<ChunkKey>)
    ensures forall k :: k in r <==> k in keys
  {
    if keys == [] then []
    else
      var init, k := keys[..|keys| - 1], keys[|keys| - 1];
      if k in init then FromKeys(init) else FromKeys(init) + [k]
  }

  lemma {:induction false} FromKeysNoDup(keys: seq<ChunkKey>)
    ensures NoDup(FromKeys(keys))
    ensures NoDup(keys) ==> FromKeys(keys) == keys
  {
    if keys != [] {
      FromKeysNoDup(keys[..|keys| - 1]);
      assert keys == keys[..|keys| - 1] + [keys[|keys| - 1]];
    }
  }

  /** The elements of s that are in t, in the order of s. */
  function Within(s: seq<ChunkKey>, t: seq<ChunkKey>): (r: seq<ChunkKey>)
    ensures forall k :: k in r <==> k in s && k in t
  {
    if s == [] then []
    else
      var init, k := s[..|s| - 1], s[|s| - 1];
      if k in t then Within(init, t) + [k] else Within(init, t)
  }

  /** The elements of s that are not in t, in the order of s. */
  function Without(s: seq<ChunkKey>, t: seq<ChunkKey>): (r: seq<ChunkKey>)
    ensures forall k :: k in r <==> k in s && k !in t
  {
    if s == [] then []
    else
      var init, k := s[..|s| - 1], s[|s| - 1];
      if k in t then Without(init, t) else Without(init, t) + [k]
  }

  lemma {:induction false} WithinNoDup(s: seq<ChunkKey>, t: seq<ChunkKey>)
    requires NoDup(s)
    ensures NoDup(Within(s, t)) && NoDup(Without(s, t))
  {
    if s != [] {
      WithinNoDup(s[..|s| - 1], t);
    }
  }

  /** Removing the keys of t and then the single key k removes them together. */
  lemma {:induction false} WithoutAppend(s: seq<ChunkKey>, t: seq<ChunkKey>, k: ChunkKey)
    ensures Without(s, t + [k]) == Without(Without(s, t), [k])
  {
    if s != [] {
      var init, x := s[..|s| - 1], s[|s| - 1];
      WithoutAppend(init, t, k);
      if x !in t {
        assert (Without(init, t) + [x])[..|Without(init, t)|] == Without(init, t);
      }
    }
  }

  lemma {:induction false} WithoutNothing(s: seq<ChunkKey>)
    ensures Without(s, []) == s
  {
    if s != [] {
      WithoutNothing(s[..|s| - 1]);
    }
  }

  function HeldKeys(s: Sessions, rid: string): seq<ChunkKey> {
    if rid in s.held then s.held[rid] else []
  }

  function StartSessionOf(s: Sessions, job: Lookup): Sessions {
    s.(hits := s.hits[job.rid := None], jobs := s.jobs + [job])
  }

  /** Publishes the hits of a session that still exists and keeps their locks for it. */
  function ResolveOf(s: Sessions, rid: string, hitKeys: seq<ChunkKey>, l1Hits: nat): Sessions
    requires l1Hits <= |hitKeys|
  {
    if rid in s.hits then
      s.(hits := s.hits[rid := Some((l1Hits, |hitKeys| - l1Hits))], held := s.held[rid := FromKeys(hitKeys)])
    else s
  }

  /** The held locks leave the session; the second component lists them. */
  function TakeReleasedOf(s: Sessions, rid: string, keys: seq<ChunkKey>): (Sessions, seq<ChunkKey>) {
    var released := Within(keys, HeldKeys(s, rid));
    (if rid in s.held then s.(held := s.held[rid := Without(s.held[rid], released)]) else s, released)
  }

  lemma {:induction false} WithoutAll(s: seq<ChunkKey>, t: seq<ChunkKey>)
    requires forall k :: k in s ==> k in t
    ensures Without(s, t) == []
  {
    if s != [] {
      WithoutAll(s[..|s| - 1], t);
    }
  }

  /** Releasing everything a session holds leaves it nothing. */
  lemma TakesAll(s: Sessions, rid: string)
    ensures HeldKeys(TakeReleasedOf(s, rid, HeldKeys(s, rid)).0, rid) == []
  {
    WithoutAll(HeldKeys(s, rid), Within(HeldKeys(s, rid), HeldKeys(s, rid)));
  }

  function FirstHeldOf(s: Sessions, rid: string, count: nat): seq<ChunkKey> {
    var held := HeldKeys(s, rid);
    if count <= |held| then held[..count] else held
  }

  function Close(s: Sessions, rid: string): Sessions {
    s.(hits := s.hits - {rid}, held := s.held - {rid})
  }

  // ---- the controller object -------------------------------------------------

  class PrefetchController {
    var hits: map<string, Option<(nat, nat)>>
    var held: map<string, seq<ChunkKey>>
    var jobs: seq<Lookup>

    ghost function View(): Sessions
      reads this
    {
      Sessions(hits, held, jobs)
    }

    constructor ()
      ensures View() == Sessions(map[], map[], [])
    {
      hits, held, jobs := map[], map[], [];
    }

    method StartSession(requestId: string, keys: seq<ChunkKey>, sized: bool)
      modifies this
      ensures View() == StartSessionOf(old(View()), Lookup(requestId, keys, sized))
    {
      hits := hits[requestId := None];
      jobs := jobs + [Lookup(requestId, keys, sized)];
    }

    method Query(requestId: string) returns (resolved: Option<(nat, nat)>)
      ensures resolved == if requestId in hits then hits[requestId] else None
    {
      resolved := if requestId in hits then hits[requestId] else None;
    }

    /** False when the session is gone: the caller must then give the locks back itself. */
    method Resolve(requestId: string, l1Keys: seq<ChunkKey>, loadedKeys: seq<ChunkKey>) returns (published: bool)
      modifies this
      ensures published == (requestId in old(hits))
      ensures View() == ResolveOf(old(View()), requestId, l1Keys + loadedKeys, |l1Keys|)
    {
      published := requestId in hits;
      if published {
        hits := hits[requestId := Some((|l1Keys|, |loadedKeys|))];
        held := held[requestId := FromKeys(l1Keys + loadedKeys)];
      }
    }

    /** The section of release under the lock; its caller then drops the returned locks. */
    method TakeReleased(requestId: string, keys: Option<seq<ChunkKey>>) returns (released: seq<ChunkKey>)
      requires keys.Some? ==> NoDup(keys.value)
      modifies this
      ensures var ks := if keys.Some? then keys.value else HeldKeys(old(View()), requestId);
              (View(), released) == TakeReleasedOf(old(View()), requestId, ks)
    {
      hide Within, Without;
      var mine := if requestId in held then held[requestId] else [];
      var ks := if keys.Some? then keys.value else mine;
      released := Within(ks, mine);
      if requestId in held {
        WithoutNothing(mine);
        for i := 0 to |released|
          invariant requestId in held && hits == old(hits) && jobs == old(jobs)
          invariant held == old(held)[requestId := Without(mine, released[..i])]
        {
          held := held[requestId := Without(held[requestId], [released[i]])];
          WithoutAppend(mine, released[..i], released[i]);
          assert released[..i + 1] == released[..i] + [released[i]];
        }
        assert released[..|released|] == released;
      }
    }

    method FirstHeld(requestId: string, count: nat) returns (keys: seq<ChunkKey>)
      ensures keys == FirstHeldOf(View(), requestId, count)
    {
      keys := if requestId in held then held[requestId] else [];
      if count <= |keys| {
        keys := keys[..count];
      }
    }

    method Forget(requestId: string)
      modifies this
      ensures View() == Close(old(View()), requestId)
    {
      hits := hits - {requestId};
      held := held - {requestId};
    }
  }
}
