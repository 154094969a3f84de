/**
 * The JSON cache files and the cache-or-fetch rule every cache function
 * follows: reload the file, answer from it on a hit, and on a miss produce
 * the value and write the whole map back with that one key added.
 */
module Store {
  import opened Wrappers

  /** What a cache function prints before answering: "Using Cache" or "Fetching". */
  datatype Status = UsingCache | Fetching

  /**
   * One cache file. `contents` is what `open_cache` returns: the parsed
   * object, or None when the file is missing or cannot be read or parsed.
   * `saves` counts the times the file has been rewritten.
   */
  class JsonFile<V> {
    var contents: Option<map<string, V>>
    ghost var saves: nat

    constructor (initial: Option<map<string, V>>)
      ensures contents == initial && saves == 0
    {
      contents := initial;
      saves := 0;
    }

    /** `open_cache(filename)`: every cache function reloads the file this way. */
    function Load(): (loaded: Option<map<string, V>>)
      reads this
      ensures loaded == contents
    {
      contents
    }

    /** `json.dump(m, open(filename, "w"))`: the whole file is replaced by `m`. */
    method Save(m: map<string, V>)
      modifies this
      ensures contents == Some(m) && saves == old(saves) + 1
    {
      contents := Some(m);
      saves := saves + 1;
    }
  }

  /** `if d is None: d = {}`: a missing or unreadable file counts as an empty map. */
  function OrEmpty<V>(loaded: Option<map<string, V>>): (m: map<string, V>)
    ensures forall k :: Hit(loaded, k) ==> k in m
    ensures forall k :: k in m ==> loaded.Some? && k in loaded.value && m[k] == loaded.value[k]
  {
    if loaded.Some? then loaded.value else map[]
  }

  /** `d is not None and key in d.keys()`. */
  predicate Hit<V>(loaded: Option<map<string, V>>, key: string) {
    loaded.Some? && key in loaded.value
  }

  /** One cache-or-fetch call: what it prints, what the file then holds, and the value it answers with. */
  datatype Step<V> = Step(status: Status, file: Option<map<string, V>>, value: V)

  /**
   * The rule of `get_site_instance`, `get_sites_for_state` and
   * `get_nearby_places`, for a loaded file, a key and the value the producer
   * would give for it.
   */
  function CacheOrFetch<V>(loaded: Option<map<string, V>>, key: string, produced: V): (step: Step<V>)
    ensures step.status == UsingCache <==> Hit(loaded, key)
    ensures step.file.Some? && key in step.file.value && step.file.value[key] == step.value
    ensures step.file.value.Keys == OrEmpty(loaded).Keys + {key}
    ensures forall k :: k in OrEmpty(loaded) ==> step.file.value[k] == OrEmpty(loaded)[k]
    ensures step.status == Fetching ==> step.value == produced
  {
    if Hit(loaded, key) then Step(UsingCache, loaded, loaded.value[key])
    else Step(Fetching, Some(OrEmpty(loaded)[key := produced]), produced)
  }

  /**
   * Asking twice for the same key fetches at most once: the second call is a
   * hit, leaves the file as the first call left it and answers with the same
   * value, whatever its producer would have given.
   */
  lemma CacheIdempotent<V>(loaded: Option<map<string, V>>, key: string, produced: V, again: V)
    ensures var first := CacheOrFetch(loaded, key, produced);
            CacheOrFetch(first.file, key, again) == Step(UsingCache, first.file, first.value)
  {
  }

  /** A missing or corrupt file behaves exactly as a file holding the empty map. */
  lemma ColdStoreIsEmpty<V>(key: string, produced: V)
    ensures CacheOrFetch(None, key, produced) == CacheOrFetch(Some(map[]), key, produced)
  {
  }

  /** Write-once: a key already in the file keeps its value through a call for any key. */
  lemma CacheWriteOnce<V>(loaded: Option<map<string, V>>, key: string, produced: V, k: string)
    requires Hit(loaded, k)
    ensures Hit(CacheOrFetch(loaded, key, produced).file, k)
    ensures CacheOrFetch(loaded, key, produced).file.value[k] == loaded.value[k]
  {
  }
}
