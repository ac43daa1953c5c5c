/** The voice pool's records and the two searches that choose a slot to
    reuse when no slot is free. A voice (an OpenAL source) is represented
    by the three facts the pool consults: its driver id, its state and the
    id of the buffer attached to it. */
module PoolModel {
  import opened Types
  import opened Util

  /** A voice. An uncreated voice has id 0, reports `Initial` and buffer 0. */
  datatype Source = Source(id: nat, state: SoundState, bufferId: nat)

  /** `SourceAllocation`: one slot of the pool. */
  datatype Slot = Slot(source: Source, priority: SoundPriority, allocatedTime: nat, active: bool)

  /** A default-constructed voice, as the pool creates them. */
  const UncreatedSource: Source := Source(0, Initial, 0)

  /** `SoundSource::stop`: a playing or paused voice becomes stopped;
      any other voice is left as it is. */
  function Stop(s: Source): (r: Source)
    ensures r.id == s.id && r.bufferId == s.bufferId
    ensures r.state == Stopped || r.state == s.state
    ensures r.state != Playing && r.state != Paused
  {
    if s.state == Playing || s.state == Paused then s.(state := Stopped) else s
  }

  /** `SoundSource::detachBuffer`: stops the voice and attaches buffer 0. */
  function Detach(s: Source): (r: Source)
    ensures r.id == s.id && r.bufferId == 0 && r.state == Stop(s).state
  {
    Stop(s).(bufferId := 0)
  }

  /** The slot handed out by an acquisition: the requested priority, the
      time of the acquisition, marked active; the voice is kept. */
  function Allocate(s: Slot, priority: SoundPriority, now: nat): Slot {
    s.(priority := priority, allocatedTime := now, active := true)
  }

  /** The slot chosen by the eviction search, once its voice is stopped
      (only an active slot's voice is stopped). */
  function StopIfActive(s: Slot): Slot {
    if s.active then s.(source := Stop(s.source)) else s
  }

  /** The slot after `releaseSource`: voice detached, slot inactive. */
  function Released(s: Slot): Slot {
    s.(source := Detach(s.source), active := false)
  }

  /** A slot the first search reuses: active, and its voice has finished. */
  predicate Reclaimable(s: Slot) {
    s.active && s.source.state == Stopped
  }

  /** The comparator given to `min_element`: lower priority first, then the
      older allocation. */
  predicate EvictsBefore(a: Slot, b: Slot) {
    if a.priority != b.priority then PriorityLess(a.priority, b.priority)
    else a.allocatedTime < b.allocatedTime
  }

  /** The slot `min_element` returns: no slot is strictly before it, and it
      is strictly before every slot at a lower index (the first minimum). */
  ghost predicate IsEvictionCandidate(pool: seq<Slot>, index: nat) {
    && index < |pool|
    && (forall j | 0 <= j < |pool| :: !EvictsBefore(pool[j], pool[index]))
    && (forall j | 0 <= j < index :: EvictsBefore(pool[index], pool[j]))
  }

  /** `find_if` over the pool for a reclaimable slot: the first one, if any. */
  method FindReclaimable(pool: seq<Slot>) returns (found: bool, index: nat)
    ensures found <==> exists i | 0 <= i < |pool| :: Reclaimable(pool[i])
    ensures found ==> index < |pool| && Reclaimable(pool[index])
    ensures found ==> forall j | 0 <= j < index :: !Reclaimable(pool[j])
  {
    index := 0;
    while index < |pool|
      invariant index <= |pool|
      invariant forall j | 0 <= j < index :: !Reclaimable(pool[j])
    {
      if Reclaimable(pool[index]) {
        return true, index;
      }
      index := index + 1;
    }
    return false, 0;
  }

  /** `min_element` over the pool with the eviction comparator. */
  method FindEvictionCandidate(pool: seq<Slot>) returns (index: nat)
    requires |pool| > 0
    ensures IsEvictionCandidate(pool, index)
  {
    index := 0;
    var k := 1;
    while k < |pool|
      invariant index < k <= |pool|
      invariant forall j | 0 <= j < k :: !EvictsBefore(pool[j], pool[index])
      invariant forall j | 0 <= j < index :: EvictsBefore(pool[index], pool[j])
    {
      if EvictsBefore(pool[k], pool[index]) {
        index := k;
      }
      k := k + 1;
    }
  }

  /** The candidate holds the lowest priority of the pool. Hence the
      eviction search refuses a request exactly when every slot's priority
      is strictly above it: a slot of equal priority is replaced. */
  lemma {:induction false} CandidateHasLowestPriority(pool: seq<Slot>, index: nat, request: SoundPriority)
    requires IsEvictionCandidate(pool, index)
    ensures forall j | 0 <= j < |pool| :: !PriorityLess(pool[j].priority, pool[index].priority)
    ensures PriorityLess(request, pool[index].priority) <==>
              forall j | 0 <= j < |pool| :: PriorityLess(request, pool[j].priority)
  {
    forall j | 0 <= j < |pool|
      ensures !PriorityLess(pool[j].priority, pool[index].priority)
    {
      assert !EvictsBefore(pool[j], pool[index]);
    }
    if PriorityLess(request, pool[index].priority) {
      forall j | 0 <= j < |pool|
        ensures PriorityLess(request, pool[j].priority)
      {
        PriorityLessIsStrictTotalOrder(pool[j].priority, pool[index].priority, request);
        PriorityLessIsStrictTotalOrder(request, pool[index].priority, pool[j].priority);
      }
    }
  }

  /** What eviction of a buffer does to a slot: an active slot holding one
      of the evicted buffers has it detached; nothing else changes, and in
      particular the slot stays active. */
  function DetachIfHolding(s: Slot, bufferIds: set<nat>): (r: Slot)
    ensures r.active == s.active && r.priority == s.priority && r.allocatedTime == s.allocatedTime
    ensures r.source.id == s.source.id
    ensures r.source.bufferId == (if s.active && s.source.bufferId in bufferIds then 0 else s.source.bufferId)
  {
    if s.active && s.source.bufferId in bufferIds then s.(source := Detach(s.source)) else s
  }

  /** Detaching one buffer after a set of others is detaching them all at
      once, provided no buffer id is 0 (a detached voice holds buffer 0). */
  lemma DetachIfHoldingAccumulates(s: Slot, earlier: set<nat>, id: nat)
    requires 0 !in earlier && id != 0
    ensures DetachIfHolding(DetachIfHolding(s, earlier), {id}) == DetachIfHolding(s, earlier + {id})
  {
  }

  /** Every slot of the pool after `DetachIfHolding`. */
  function DetachAll(pool: seq<Slot>, bufferIds: set<nat>): (r: seq<Slot>)
    ensures |r| == |pool|
    ensures forall i | 0 <= i < |pool| :: r[i] == DetachIfHolding(pool[i], bufferIds)
  {
    if pool == [] then []
    else DetachAll(pool[..|pool| - 1], bufferIds) + [DetachIfHolding(pool[|pool| - 1], bufferIds)]
  }

  /** Detaching no buffer changes no slot. */
  lemma DetachAllNone(pool: seq<Slot>)
    ensures DetachAll(pool, {}) == pool
  {
  }

  /** Detaching buffers one by one is detaching the whole set at once. */
  lemma DetachAllAccumulates(pool: seq<Slot>, earlier: set<nat>, id: nat)
    requires 0 !in earlier && id != 0
    ensures DetachAll(DetachAll(pool, earlier), {id}) == DetachAll(pool, earlier + {id})
  {
    forall i | 0 <= i < |pool|
      ensures DetachAll(DetachAll(pool, earlier), {id})[i] == DetachAll(pool, earlier + {id})[i]
    {
      DetachIfHoldingAccumulates(pool[i], earlier, id);
    }
  }

  /** The first slot whose voice has driver id `id`. */
  function IndexOfSource(pool: seq<Slot>, id: nat): (r: Option<nat>)
    ensures r.None? <==> forall i | 0 <= i < |pool| :: pool[i].source.id != id
    ensures r.Some? ==> r.value < |pool| && pool[r.value].source.id == id
    ensures r.Some? ==> forall j | 0 <= j < r.value :: pool[j].source.id != id
  {
    if pool == [] then None
    else if pool[0].source.id == id then Some(0)
    else match IndexOfSource(pool[1..], id)
      case None => None
      case Some(i) => Some(i + 1)
  }

  /** The first active slot whose voice has driver id `id`. */
  function IndexOfActiveSource(pool: seq<Slot>, id: nat): (r: Option<nat>)
    ensures r.None? <==> forall i | 0 <= i < |pool| :: !(pool[i].active && pool[i].source.id == id)
    ensures r.Some? ==> r.value < |pool| && pool[r.value].active && pool[r.value].source.id == id
    ensures r.Some? ==> forall j | 0 <= j < r.value :: !(pool[j].active && pool[j].source.id == id)
  {
    if pool == [] then None
    else if pool[0].active && pool[0].source.id == id then Some(0)
    else match IndexOfActiveSource(pool[1..], id)
      case None => None
      case Some(i) => Some(i + 1)
  }

  /** Number of active slots. */
  function CountActive(pool: seq<Slot>): (n: nat)
    ensures n <= |pool|
  {
    if pool == [] then 0
    else CountActive(pool[..|pool| - 1]) + (if pool[|pool| - 1].active then 1 else 0)
  }

  /** The indices of the inactive slots. */
  ghost function InactiveIndices(pool: seq<Slot>): set<nat> {
    set i | 0 <= i < |pool| && !pool[i].active
  }

  /** The inactive indices of a pool are those of all but its last slot,
      plus the last index when that slot is inactive. */
  lemma InactiveIndicesSnoc(pool: seq<Slot>)
    requires pool != []
    ensures var n := |pool| - 1;
      && InactiveIndices(pool) == InactiveIndices(pool[..n]) + (if pool[n].active then {} else {n})
      && n !in InactiveIndices(pool[..n])
  {
    var n := |pool| - 1;
    var init := pool[..n];
    forall i | i in InactiveIndices(pool)
      ensures i in InactiveIndices(init) + (if pool[n].active then {} else {n})
    {
      if i < n { assert init[i] == pool[i]; }
    }
    forall i | i in InactiveIndices(init)
      ensures i in InactiveIndices(pool)
    {
      assert init[i] == pool[i];
    }
  }

  /** There are as many inactive slots as slots minus active ones. */
  lemma {:induction false} InactiveIndicesCount(pool: seq<Slot>)
    ensures |InactiveIndices(pool)| == |pool| - CountActive(pool)
  {
    if pool != [] {
      InactiveIndicesCount(pool[..|pool| - 1]);
      InactiveIndicesSnoc(pool);
    }
  }

  /** The free list is consistent with the slots: no index twice, and an
      index is free exactly when its slot is inactive. */
  ghost predicate FreeListMatches(pool: seq<Slot>, free: seq<nat>) {
    && NoDuplicates(free)
    && (forall k | 0 <= k < |free| :: free[k] < |pool|)
    && (forall i | 0 <= i < |pool| :: !pool[i].active <==> i in free)
  }

  /** With a consistent free list, the pool's "active count" (slots minus
      free entries) is the number of active slots. */
  lemma {:induction false} ActiveCountFromFreeList(pool: seq<Slot>, free: seq<nat>)
    requires FreeListMatches(pool, free)
    ensures |free| <= |pool|
    ensures |pool| - |free| == CountActive(pool)
  {
    var freeSet := Elements(free);
    assert freeSet == InactiveIndices(pool) by {
      forall x | x in freeSet
        ensures x in InactiveIndices(pool)
      {
        var k :| 0 <= k < |free| && free[k] == x;
      }
      forall x | x in InactiveIndices(pool)
        ensures x in freeSet
      {
      }
    }
    DistinctElementsCount(free);
    assert |freeSet| == |free|;
    InactiveIndicesCount(pool);
  }

  /** `ActiveCountFromFreeList` in a form that may be used unconditionally. */
  lemma ActiveCountIfMatches(pool: seq<Slot>, free: seq<nat>)
    ensures FreeListMatches(pool, free) ==> |free| <= |pool| && |pool| - |free| == CountActive(pool)
  {
    if FreeListMatches(pool, free) {
      ActiveCountFromFreeList(pool, free);
    }
  }

  /** With an empty consistent free list, every slot is active. */
  lemma AllActiveWhenNoneFree(pool: seq<Slot>)
    requires FreeListMatches(pool, [])
    ensures forall i | 0 <= i < |pool| :: pool[i].active
  {
  }

  /** Handing out slot `index` (inactive and at the front of the free list,
      or active with an empty free list) keeps the free list consistent. */
  lemma AcquiredStaysTidy(pool: seq<Slot>, free: seq<nat>, pool': seq<Slot>, free': seq<nat>, index: nat)
    requires FreeListMatches(pool, free) && index < |pool|
    requires free != [] ==> index == free[0] && free' == free[1..]
    requires free == [] ==> free' == [] && pool[index].active
    requires |pool'| == |pool| && pool'[index].active
    requires forall i | 0 <= i < |pool| && i != index :: pool'[i].active == pool[i].active
    ensures FreeListMatches(pool', free')
  {
    if free != [] {
      forall i | 0 <= i < |pool'|
        ensures !pool'[i].active <==> i in free'
      {
        if i != index {
          assert i in free <==> i in free' by {
            if i in free {
              var k :| 0 <= k < |free| && free[k] == i;
              assert free'[k - 1] == i;
            }
          }
        }
      }
    }
  }

  /** Releasing an active slot and appending its index keeps the free list
      consistent. */
  lemma ReleasedStaysTidy(pool: seq<Slot>, free: seq<nat>, i: nat)
    requires FreeListMatches(pool, free) && i < |pool| && pool[i].active
    ensures FreeListMatches(pool[i := Released(pool[i])], free + [i])
  {
    var free' := free + [i];
    assert i !in free;
    forall a, b | 0 <= a < b < |free'|
      ensures free'[a] != free'[b]
    {
      if b == |free| {
        assert free'[a] == free[a];
      }
    }
  }

  /** Detaching buffers changes no slot's `active` flag, so the free list
      stays consistent. */
  lemma DetachAllKeepsFreeList(pool: seq<Slot>, free: seq<nat>, bufferIds: set<nat>)
    ensures FreeListMatches(pool, free) ==> FreeListMatches(DetachAll(pool, bufferIds), free)
  {
  }
}
