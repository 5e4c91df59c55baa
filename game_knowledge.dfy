/** src/gaming/knowledge_base.rs: game answers served from a cache whose entries live for five
  * minutes. Times are whole seconds on an injected clock; the trainers' answer generation is an
  * input. */
module GameKnowledge {
  import opened Wrappers

  /** A cached answer and the instant it stops being served. */
  datatype CachedResponse = CachedResponse(response: string, expiry: nat)

  /** Cached answers live for 300 seconds. */
  const CacheLifetime: nat := 300

  /** Whether an entry is still served at `now`: its expiry is strictly later. */
  predicate Fresh(c: CachedResponse, now: nat) {
    c.expiry > now
  }

  class GameKnowledge {
    /** The names of the games with a trainer. */
    var games: set<string>
    var cache: map<string, CachedResponse>

    /** `new` with `init_trainers`: only Marvel Rivals has a trainer; the cache is empty. */
    constructor ()
      ensures games == {"marvel_rivals"} && cache == map[]
    {
      games := {"marvel_rivals"};
      cache := map[];
    }

    /** `check_cache` at `now`: a fresh entry is returned; a stale one is removed and, like a
      * missing one, gives None. */
    method CheckCache(context: string, now: nat) returns (r: Option<string>)
      modifies this`cache
      ensures context in old(cache) && Fresh(old(cache)[context], now) ==>
                r == Some(old(cache)[context].response) && cache == old(cache)
      ensures context in old(cache) && !Fresh(old(cache)[context], now) ==>
                r == None && cache == old(cache) - {context}
      ensures context !in old(cache) ==> r == None && cache == old(cache)
    {
      if context in cache {
        var cached := cache[context];
        if cached.expiry > now {
          return Some(cached.response);
        }
        cache := cache - {context};
      }
      r := None;
    }

    /** `cache_response` at `now`: stored, replacing any entry, for the next 300 seconds. */
    method CacheResponse(context: string, response: string, now: nat)
      modifies this`cache
      ensures cache == old(cache)[context := CachedResponse(response, now + CacheLifetime)]
    {
      cache := cache[context := CachedResponse(response, now + CacheLifetime)];
    }

    /** `get_game_response` at `now`, where `generated` is what the trainers would answer: a
      * fresh cached answer is returned untouched; otherwise the generated answer is returned and
      * cached. Either way the context then has a fresh entry holding the returned answer. */
    method GetGameResponse(context: string, now: nat, generated: string) returns (r: string)
      modifies this`cache
      ensures context in old(cache) && Fresh(old(cache)[context], now) ==>
                r == old(cache)[context].response && cache == old(cache)
      ensures !(context in old(cache) && Fresh(old(cache)[context], now)) ==>
                r == generated && cache == old(cache)[context := CachedResponse(generated, now + CacheLifetime)]
      ensures context in cache && Fresh(cache[context], now) && cache[context].response == r
    {
      var cached := CheckCache(context, now);
      if cached.Some? {
        return cached.value;
      }
      r := generated;
      CacheResponse(context, r, now);
    }
  }

  /** An answer generated at `t` is served for any context during the next five minutes,
    * whatever the trainers would say by then, and is regenerated from the 300th second on. */
  method CacheLifetimeScenario(context: string, t: nat, first: string, second: string, third: string)
    returns (a: string, b: string, c: string)
    ensures a == first && b == first && c == third
  {
    var k := new GameKnowledge();
    a := k.GetGameResponse(context, t, first);
    b := k.GetGameResponse(context, t + 299, second);
    c := k.GetGameResponse(context, t + 300, third);
  }
}
