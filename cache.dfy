/**
 * The process-wide document cache (`_document_cache`, `_is_cache_valid`,
 * `_get_cached_document`, `_cache_document` and the eviction in `edit_tab_content`),
 * with the clock passed in as an integer number of microseconds.
 */
module DocCache {
  import opened Wrappers
  import opened TabIndex

  /** `_cache_ttl_minutes = 30`, in microseconds (the resolution of `datetime`). */
  const TtlMicros: int := 30 * 60 * 1000000

  /** A cached extraction; `timestamp` is the dictionary's optional "timestamp" key. */
  datatype CacheEntry = CacheEntry(content: string, tabsData: TabsData, timestamp: Option<int>)

  /** `_is_cache_valid`: present, stamped, and younger than the time to live. */
  predicate IsFresh(m: map<string, CacheEntry>, id: string, now: int) {
    id in m && m[id].timestamp.Some? && now - m[id].timestamp.value < TtlMicros
  }

  /** `_get_cached_document` on a map value. */
  function Lookup(m: map<string, CacheEntry>, id: string, now: int): Option<CacheEntry> {
    if IsFresh(m, id, now) then Some(m[id]) else None
  }

  /** `_cache_document` on a map value. */
  function Store(m: map<string, CacheEntry>, id: string, content: string, tabsData: TabsData, now: int): map<string, CacheEntry> {
    m[id := CacheEntry(content, tabsData, Some(now))]
  }

  /** `del _document_cache[id]` when present. */
  function Evict(m: map<string, CacheEntry>, id: string): map<string, CacheEntry> {
    m - {id}
  }

  /** A stored entry is found again until the time to live has passed, and not after. */
  lemma StoreThenLookup(m: map<string, CacheEntry>, id: string, content: string, tabsData: TabsData,
                        stored: int, now: int)
    ensures Lookup(Store(m, id, content, tabsData, stored), id, now)
            == if now - stored < TtlMicros then Some(CacheEntry(content, tabsData, Some(stored))) else None
  {
  }

  /** Storing or evicting one document leaves every other lookup as it was. */
  lemma OtherKeysUnaffected(m: map<string, CacheEntry>, id: string, other: string, content: string,
                            tabsData: TabsData, stored: int, now: int)
    requires other != id
    ensures Lookup(Store(m, id, content, tabsData, stored), other, now) == Lookup(m, other, now)
    ensures Lookup(Evict(m, id), other, now) == Lookup(m, other, now)
  {
  }

  /** After an eviction the document is absent whatever the clock says. */
  lemma EvictThenLookup(m: map<string, CacheEntry>, id: string, now: int)
    ensures Lookup(Evict(m, id), id, now) == None
    ensures id !in Evict(m, id)
  {
  }

  class DocumentCache {
    var entries: map<string, CacheEntry>

    constructor ()
      ensures entries == map[]
    {
      entries := map[];
    }

    /** `_get_cached_document(id)` at time `now`; a lookup changes nothing. */
    method Get(id: string, now: int) returns (r: Option<CacheEntry>)
      ensures r.Some? <==> (id in entries && entries[id].timestamp.Some?
                            && now - entries[id].timestamp.value < TtlMicros)
      ensures r.Some? ==> r.value == entries[id]
      ensures r == Lookup(entries, id, now)
    {
      if id !in entries {
        return None;
      }
      var cachedTime := entries[id].timestamp;
      if cachedTime.None? {
        return None;
      }
      if now - cachedTime.value < TtlMicros {
        r := Some(entries[id]);
      } else {
        r := None;
      }
    }

    /** `_cache_document(id, content, tabsData)` at time `now`: replaces that one entry. */
    method Put(id: string, content: string, tabsData: TabsData, now: int)
      modifies this
      ensures entries == old(entries)[id := CacheEntry(content, tabsData, Some(now))]
      ensures entries == Store(old(entries), id, content, tabsData, now)
      ensures forall k :: k != id && k in old(entries) ==> k in entries && entries[k] == old(entries)[k]
    {
      entries := entries[id := CacheEntry(content, tabsData, Some(now))];
    }

    /** The eviction after a successful edit: that entry is gone, the others are untouched. */
    method Invalidate(id: string)
      modifies this
      ensures entries == old(entries) - {id}
      ensures entries == Evict(old(entries), id)
    {
      if id in entries {
        entries := entries - {id};
      }
    }
  }
}
