/** The cache of recently allowed evictions and the pod observer that invalidates it. */
module EvictionCache {
  import opened Kube

  const CACHE_EXPIRY: int := 120 * SECOND

  datatype Entry = Entry(expires: int, generation: int)

  type Entries = map<string, Entry>

  predicate HasPending(entries: Entries, name: string, now: int) {
    name in entries && now < entries[name].expires
  }

  function Recorded(entries: Entries, pod: Pod, now: int): Entries {
    entries[pod.name := Entry(now + CACHE_EXPIRY, pod.generation)]
  }

  function Invalidated(entries: Entries, observed: Pod, now: int): Entries {
    if HasPending(entries, observed.name, now) && observed.phase != Running
    then entries - {observed.name}
    else entries
  }

  /** Keyed by pod name, because the UID changes when the pod is recreated. */
  class PodEvictionCache {
    var entries: Entries

    constructor ()
      ensures entries == map[]
    {
      entries := map[];
    }

    method RecordEviction(pod: Pod, now: int)
      modifies this
      ensures entries == Recorded(old(entries), pod, now)
      ensures forall t :: HasPending(entries, pod.name, t) <==> t < now + 120 * SECOND
      ensures forall n, t | n != pod.name :: HasPending(entries, n, t) <==> HasPending(old(entries), n, t)
    {
      var expiresAt := now + CACHE_EXPIRY;
      entries := entries[pod.name := Entry(expiresAt, pod.generation)];
    }

    method HasPendingEvictionWithGeneration(pod: Pod, now: int) returns (pending: bool, generation: int)
      ensures pending <==> HasPending(entries, pod.name, now)
      ensures pending <==> pod.name in entries && now < entries[pod.name].expires
      ensures generation == if pod.name in entries then entries[pod.name].generation else 0
    {
      if pod.name !in entries {
        return false, 0;
      }
      var rec := entries[pod.name];
      return now < rec.expires, rec.generation;
    }

    method Delete(pod: Pod)
      modifies this
      ensures entries == old(entries) - {pod.name}
    {
      entries := entries - {pod.name};
    }
  }

  /** An informer event for an in-scope pod. A pod still reported as running keeps its entry;
      no event ever touches the entry of another pod or creates one. */
  method InvalidatePodEvictionCache(cache: PodEvictionCache, pod: Pod, now: int)
    modifies cache
    ensures cache.entries == Invalidated(old(cache.entries), pod, now)
    ensures pod.phase == Running ==> cache.entries == old(cache.entries)
    ensures pod.phase != Running ==> !HasPending(cache.entries, pod.name, now)
    ensures forall n, t | n != pod.name :: HasPending(cache.entries, n, t) <==> HasPending(old(cache.entries), n, t)
  {
    var pending, _ := cache.HasPendingEvictionWithGeneration(pod, now);
    if !pending {
      return;
    }
    if pod.phase == Running {
      return;
    }
    cache.Delete(pod);
  }
}
