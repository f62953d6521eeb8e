/**
 * The cache helpers each controller declares (`redisGet`, `redisSet`, `redisDelPattern`): every
 * Redis failure is swallowed, and a helper whose client lacks the command it needs does nothing.
 */
module Cache {
  import opened Wrappers
  import opened Text
  import opened Redis
  import Glob

  /** `CACHE_TTL = 60 * 5` seconds. */
  const CacheTtl := 300

  /** What `redisGet(key)` yields: the cached value, or null on a miss, a missing `get` or any error. */
  function Lookup(caps: Caps, up: bool, kv: map<string, Value>, key: string): (r: Option<Value>)
    ensures r.Some? <==> caps.get && up && key in kv && !kv[key].Jobs?
    ensures r.Some? ==> r.value == kv[key]
  {
    if caps.get && up && key in kv && !kv[key].Jobs? then Some(kv[key]) else None
  }

  /** The key space after `redisSet(key, value)`. */
  function Stored(caps: Caps, up: bool, kv: map<string, Value>, key: string, v: Value): (r: map<string, Value>)
    ensures caps.setCmd && up ==> key in r && r[key] == v
    ensures forall k :: k != key ==> (k in r <==> k in kv) && (k in r ==> r[k] == kv[k])
    ensures !(caps.setCmd && up) ==> r == kv
  {
    if caps.setCmd && up then kv[key := v] else kv
  }

  function StoredTtl(caps: Caps, up: bool, expiry: map<string, int>, key: string): map<string, int> {
    if caps.setCmd && up then expiry[key := CacheTtl] else expiry
  }

  /** The key space after `redisDelPattern(pattern)`: `KEYS` then `DEL` of what it listed. */
  function Purged<V>(caps: Caps, up: bool, kv: map<string, V>, pattern: string): (r: map<string, V>)
    ensures forall k :: k in r ==> k in kv && r[k] == kv[k]
    ensures forall k :: k in kv && !Glob.Matches(pattern, k) ==> k in r
    ensures caps.keys && caps.del && up ==> forall k :: k in r ==> !Glob.Matches(pattern, k)
    ensures !(caps.keys && caps.del && up) ==> r == kv
  {
    if caps.keys && caps.del && up then Without(kv, set k | k in kv && Glob.Matches(pattern, k)) else kv
  }

  method Get(c: Client, key: string) returns (v: Option<Value>)
    ensures v == Lookup(c.caps, c.up, c.kv, key)
  {
    if !c.caps.get {
      return None;
    }
    var ok, x := c.Get(key);
    v := x;
  }

  method Put(c: Client, key: string, v: Value)
    requires c.Valid()
    modifies c
    ensures c.Valid() && c.up == old(c.up)
    ensures c.kv == Stored(c.caps, c.up, old(c.kv), key, v)
    ensures c.expiry == StoredTtl(c.caps, c.up, old(c.expiry), key)
  {
    if c.caps.setCmd {
      var ok := c.Set(key, v, CacheTtl);
    }
  }

  method Purge(c: Client, pattern: string)
    requires c.Valid()
    modifies c
    ensures c.Valid() && c.up == old(c.up)
    ensures c.kv == Purged(c.caps, c.up, old(c.kv), pattern)
    ensures c.expiry == Purged(c.caps, c.up, old(c.expiry), pattern)
  {
    if !c.caps.keys {
      return;
    }
    var ok, ks := c.Keys(pattern);
    if ok && ks != {} && c.caps.del {
      ok := c.Del(ks);
    }
  }

  /** Purging `prefix*` removes exactly the keys that start with `prefix`, when the purge can run. */
  lemma PurgePrefix(caps: Caps, up: bool, kv: map<string, Value>, prefix: string, key: string)
    requires Glob.Literal(prefix) && caps.keys && caps.del && up
    ensures key in Purged(caps, up, kv, prefix + "*") <==> key in kv && !StartsWith(key, prefix)
  {
    Glob.PrefixStar(prefix, key);
  }

  const QueueKey := "email_queue"

  /** Whether `rPush("email_queue", job)` would go through: the command exists and the server takes it. */
  predicate CanQueue(caps: Caps, up: bool, kv: map<string, Value>) {
    caps.rPush && up && (QueueKey !in kv || kv[QueueKey].Jobs?)
  }

  /** The key space after queuing `job` when that goes through. */
  function Enqueued(caps: Caps, up: bool, kv: map<string, Value>, job: EmailJob): (r: map<string, Value>)
    ensures CanQueue(caps, up, kv) ==> QueueKey in r && r[QueueKey].Jobs?
                                       && r[QueueKey].jobs == (if QueueKey in kv then kv[QueueKey].jobs else []) + [job]
    ensures forall k :: k != QueueKey ==> (k in r <==> k in kv) && (k in r ==> r[k] == kv[k])
    ensures !CanQueue(caps, up, kv) ==> r == kv
  {
    if CanQueue(caps, up, kv) then kv[QueueKey := Jobs((if QueueKey in kv then kv[QueueKey].jobs else []) + [job])] else kv
  }

  /** The guarded `redisClient.rPush("email_queue", ...)` of the handlers; errors are caught. */
  method Enqueue(c: Client, job: EmailJob) returns (queued: bool)
    requires c.Valid()
    modifies c
    ensures c.Valid() && c.up == old(c.up) && c.expiry == old(c.expiry)
    ensures queued == CanQueue(c.caps, c.up, old(c.kv))
    ensures c.kv == Enqueued(c.caps, c.up, old(c.kv), job)
  {
    queued := false;
    if c.caps.rPush {
      queued := c.RPush(QueueKey, job);
    }
  }
}
