/** The one-entry catalog cache and the request that reads through it. */
module CatalogCaches {
  import opened Outcomes

  /** The serialized events of a catalog. */
  type Events = seq<string>

  /** A catalog as it goes on the wire, and its hash on its own. */
  datatype Entry = Entry(catalog: Events, hash: string)

  function Serialized(events: Events, hash: Events -> string): Entry {
    Entry(events, hash(events))
  }

  datatype CacheValue = CacheValue(hasEntry: bool, token: string, entry: Entry, storedAt: int,
                                   maximumAge: int, hits: nat, misses: nat)

  const NO_ENTRY: Entry := Entry([], "")

  function Empty(maximumAge: int): CacheValue {
    CacheValue(false, "", NO_ENTRY, 0, if maximumAge > 0 then maximumAge else 300, 0, 0)
  }

  predicate Hits(c: CacheValue, token: string, now: int) {
    c.hasEntry && c.token == token && now - c.storedAt <= c.maximumAge
  }

  /** The cache after a lookup: only its counters move. */
  function LookedUp(c: CacheValue, token: string, now: int): CacheValue {
    if Hits(c, token, now) then c.(hits := c.hits + 1) else c.(misses := c.misses + 1)
  }

  function Stored(c: CacheValue, token: string, entry: Entry, now: int): CacheValue {
    c.(hasEntry := true, token := token, entry := entry, storedAt := now)
  }

  function Cleared(c: CacheValue): CacheValue {
    c.(hasEntry := false, token := "", entry := NO_ENTRY)
  }

  class CatalogCache {
    var maximumAge: int
    var token: string
    var catalog: Events
    var hash: string
    var storedAt: int
    var hits: nat
    var misses: nat
    var hasEntry: bool

    function Value(): CacheValue
      reads this
    {
      CacheValue(hasEntry, token, Entry(catalog, hash), storedAt, maximumAge, hits, misses)
    }

    constructor (maximumAge: int)
      ensures Value() == Empty(maximumAge)
    {
      this.maximumAge := if maximumAge > 0 then maximumAge else 300;
      token, catalog, hash := "", [], "";
      storedAt, hits, misses := 0, 0, 0;
      hasEntry := false;
    }

    /** Answers only for the token the entry was stored with, and only while it is young enough. */
    method Lookup(wanted: string, now: int) returns (r: Option<Entry>)
      modifies this`hits, this`misses
      ensures r == if old(Hits(Value(), wanted, now)) then Some(old(Value().entry)) else None
      ensures Value() == old(LookedUp(Value(), wanted, now))
    {
      if !hasEntry || token != wanted {
        misses := misses + 1;
        return None;
      }
      var age := now - storedAt;
      if age > maximumAge {
        misses := misses + 1;
        return None;
      }
      hits := hits + 1;
      return Some(Entry(catalog, hash));
    }

    method Store(token: string, catalog: Events, hash: string, now: int)
      modifies this
      ensures Value() == old(Stored(Value(), token, Entry(catalog, hash), now))
    {
      this.token := token;
      this.catalog := catalog;
      this.hash := hash;
      storedAt := now;
      hasEntry := true;
    }

    method Clear()
      modifies this
      ensures Value() == old(Cleared(Value()))
    {
      hasEntry := false;
      token := "";
      catalog := [];
      hash := "";
    }
  }

  /** What one request nobody interrupts leaves in the cache, and what it answers. */
  function Uninterrupted(c: Option<CacheValue>, freshness: Option<string>, events: Option<Events>,
                         hash: Events -> string, lookedUpAt: int, storedAt: int): (Option<CacheValue>, Option<Entry>)
  {
    if freshness.Some? && c.Some? && Hits(c.value, freshness.value, lookedUpAt) then
      (Some(LookedUp(c.value, freshness.value, lookedUpAt)), Some(c.value.entry))
    else
      var c' := if freshness.Some? && c.Some? then Some(LookedUp(c.value, freshness.value, lookedUpAt)) else c;
      if events.None? then (c', None)
      else if freshness.Some? && freshness.value != "" && c'.Some? then
        (Some(Stored(c'.value, freshness.value, Serialized(events.value, hash), storedAt)),
         Some(Serialized(events.value, hash)))
      else (c', Some(Serialized(events.value, hash)))
  }

  /**
   The next request after one that stored: with the same token, and no later than the maximum age
   after the store, it is answered with the very catalog stored, whether or not the database could
   be asked for another; in every other case it is answered afresh or not at all.
   */
  lemma StoredIsReused(c: CacheValue, token: string, events: Events, hash: Events -> string,
                       lookedUpAt: int, storedAt: int,
                       token': Option<string>, events': Option<Events>, lookedUpAt': int, storedAt': int)
    requires token != "" && (!c.hasEntry || c.token != token || c.storedAt + c.maximumAge < lookedUpAt)
    ensures var (c1, first) := Uninterrupted(Some(c), Some(token), Some(events), hash, lookedUpAt, storedAt);
            var (c2, second) := Uninterrupted(c1, token', events', hash, lookedUpAt', storedAt');
            var reused := token' == Some(token) && lookedUpAt' <= storedAt + c.maximumAge;
            && first == Some(Entry(events, hash(events)))
            && second == (if reused then first
                          else if events'.Some? then Some(Entry(events'.value, hash(events'.value))) else None)
            && c1.Some? && c1.value.misses == c.misses + 1 && c1.value.hits == c.hits
            && c2.Some? && c2.value.hits == (if reused then c.hits + 1 else c.hits)
            && c2.value.misses == (if reused || token'.None? then c.misses + 1 else c.misses + 2)
  {
  }

  /** A new cache and a cleared one answer nothing, and the age is five minutes unless a positive one is given. */
  lemma NothingIsReused(c: CacheValue, maximumAge: int, token: string, events: Option<Events>, hash: Events -> string,
                        lookedUpAt: int, storedAt: int)
    ensures Empty(maximumAge).maximumAge == if maximumAge > 0 then maximumAge else 300
    ensures forall empty :: empty in [Empty(maximumAge), Cleared(c)] ==>
              Uninterrupted(Some(empty), Some(token), events, hash, lookedUpAt, storedAt).1
              == if events.Some? then Some(Entry(events.value, hash(events.value))) else None
  {
  }

  ghost function ValueOf(cache: CatalogCache?): Option<CacheValue>
    reads cache
  {
    if cache == null then None else Some(cache.Value())
  }

  /**
   The catalog, from the cache when nothing has moved.  `freshness` and `events` are what the
   two queries answer, None for a query that fails; there need not be a cache at all.
   */
  method GetCachedCatalog(cache: CatalogCache?, freshness: Option<string>, events: Option<Events>,
                          hash: Events -> string, lookedUpAt: int, storedAt: int) returns (r: Option<Entry>)
    modifies cache
    ensures (ValueOf(cache), r)
            == old(Uninterrupted(ValueOf(cache), freshness, events, hash, lookedUpAt, storedAt))
  {
    var token := "";
    if freshness.Some? {
      token := freshness.value;
      if cache != null {
        var cached := cache.Lookup(token, lookedUpAt);
        if cached.Some? {
          return cached;
        }
      }
    }
    if events.None? {
      return None;
    }
    var entry := Serialized(events.value, hash);
    if token != "" && cache != null {
      cache.Store(token, entry.catalog, entry.hash, storedAt);
    }
    return Some(entry);
  }
}
