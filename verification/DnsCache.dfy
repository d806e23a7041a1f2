/** The TTL cache of reverse lookups.  Every clock reading is a parameter. */
module DnsCache {
  import opened Model

  datatype DnsCacheEntry = DnsCacheEntry(hostname: string, storedAt: Time, expiresAt: Time)

  /** The state of a cache as a value. */
  datatype Cache = Cache(entries: map<string, DnsCacheEntry>, ttl: int)

  predicate IsExpired(entry: DnsCacheEntry, now: Time) {
    now >= entry.expiresAt
  }

  function Lookup(c: Cache, ip: string, now: Time): Option<DnsCacheEntry> {
    if ip !in c.entries || IsExpired(c.entries[ip], now) then None else Some(c.entries[ip])
  }

  function Stored(c: Cache, ip: string, hostname: string, now: Time): Cache {
    c.(entries := c.entries[ip := DnsCacheEntry(hostname, now, now + c.ttl as real)])
  }

  function Without(c: Cache, ip: string): Cache {
    c.(entries := c.entries - {ip})
  }

  /** The cache without the entries that have expired. */
  function Purged(c: Cache, now: Time): Cache {
    c.(entries := map ip | ip in c.entries && !IsExpired(c.entries[ip], now) :: c.entries[ip])
  }

  /** A purge changes no later answer. */
  lemma {:induction false} PurgeChangesNoLookup(c: Cache, purgedAt: Time, ip: string, now: Time)
    requires purgedAt <= now
    ensures Lookup(Purged(c, purgedAt), ip, now) == Lookup(c, ip, now)
  {
  }

  class DnsCache {
    var ttl: int
    var entries: map<string, DnsCacheEntry>

    function State(): Cache
      reads this
    {
      Cache(entries, ttl)
    }

    constructor (ttl: int)
      ensures State() == Cache(map[], ttl)
    {
      this.ttl, entries := ttl, map[];
    }

    /** Before its expiry an entry is found as it was stored. */
    method Get(ip: string, now: Time) returns (found: bool, entry: DnsCacheEntry)
      ensures found <==> ip in entries && now < entries[ip].expiresAt
      ensures found ==> Lookup(State(), ip, now) == Some(entry)
      ensures !found ==> Lookup(State(), ip, now) == None
    {
      entry := DnsCacheEntry("", EPOCH, EPOCH);
      if ip !in entries {
        return false, entry;
      }
      if IsExpired(entries[ip], now) {
        return false, entry;
      }
      return true, entries[ip];
    }

    method Put(ip: string, hostname: string, now: Time)
      modifies `entries
      ensures State() == Stored(old(State()), ip, hostname, now)
    {
      entries := entries[ip := DnsCacheEntry(hostname, now, now + ttl as real)];
    }

    method Invalidate(ip: string)
      modifies `entries
      ensures State() == Without(old(State()), ip)
    {
      entries := entries - {ip};
    }

    method Clear()
      modifies `entries
      ensures entries.Keys == {}
    {
      entries := map[];
    }

    method SetTtl(ttl: int)
      modifies `ttl
      ensures State() == old(State()).(ttl := ttl)
    {
      this.ttl := ttl;
    }

    method PurgeExpired(now: Time) returns (removed: nat)
      modifies `entries
      ensures State() == Purged(old(State()), now)
      ensures removed == |old(entries)| - |entries|
    {
      removed := 0;
      ghost var was := entries;
      var keys := entries.Keys;
      while keys != {}
        invariant keys <= entries.Keys <= was.Keys
        invariant forall ip | ip in entries :: entries[ip] == was[ip]
        invariant forall ip | ip in was && ip !in keys :: ip in entries <==> !IsExpired(was[ip], now)
        invariant removed == |was| - |entries|
      {
        var ip :| ip in keys;
        keys := keys - {ip};
        if IsExpired(entries[ip], now) {
          entries := entries - {ip};
          removed := removed + 1;
        }
      }
    }
  }
}
