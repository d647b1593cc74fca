/** `SimpleRedisLock`: a named lock in Redis under `"lock:" + name`, holding
    the owner token `ID_PREFIX + threadId`. Acquiring is SET NX EX; releasing
    runs a script that deletes the key only while it still holds the caller's
    token. */
module Lock {
  import opened Common
  import opened Store

  const KEY_PREFIX: string := "lock:"

  /** The owner token of a thread: the process prefix (a UUID and a dash)
      followed by the thread id in decimal. */
  function Token(idPrefix: string, threadId: Long): string {
    idPrefix + LongToString(threadId)
  }

  /** Two threads of one process never share a token. */
  lemma TokensDistinct(idPrefix: string, t1: Long, t2: Long)
    requires t1 != t2
    ensures Token(idPrefix, t1) != Token(idPrefix, t2)
  {
    LongToStringInjective(t1, t2);
    assert Token(idPrefix, t1)[|idPrefix|..] == LongToString(t1);
    assert Token(idPrefix, t2)[|idPrefix|..] == LongToString(t2);
  }

  /** The release script: compare the stored token with the caller's, and
      delete the key only when they are equal. */
  function Release(kv: Kv, clock: int, key: string, token: string): (r: Kv)
    ensures r - {key} == kv - {key}
    ensures GetText(kv, clock, key) == Some(token) ==> key !in r
    ensures GetText(kv, clock, key) != Some(token) ==> r == kv
  {
    if GetText(kv, clock, key) == Some(token) then Del(kv, key) else kv
  }

  /** The holder's own release frees the lock: acquire with a token, then
      release with it before the TTL lapses, and the key is gone. */
  lemma AcquireThenReleaseFrees(kv: Kv, c0: int, c1: int, key: string, token: string, ttl: Positive)
    requires !Present(kv, c0, key)
    requires c0 <= c1 < ExpiryAfter(c0, ttl)
    ensures var (ok, held) := SetIfAbsent(kv, c0, key, token, ttl);
            ok && GetText(held, c1, key) == Some(token) && key !in Release(held, c1, key, token)
  {
  }

  /** Mutual exclusion: while a lock is held, a second acquire fails and
      leaves the holder's token and TTL in place. */
  lemma HeldLockExcludes(kv: Kv, clock: int, key: string, token: string, ttl: Positive)
    requires Present(kv, clock, key)
    ensures SetIfAbsent(kv, clock, key, token, ttl) == (false, kv)
  {
  }

  /** A release by another thread leaves the holder's lock in place. */
  lemma ReleaseByOtherKeepsLock(kv: Kv, clock: int, key: string, holder: string, other: string)
    requires GetText(kv, clock, key) == Some(holder) && other != holder
    ensures Release(kv, clock, key, other) == kv
    ensures GetText(Release(kv, clock, key, other), clock, key) == Some(holder)
  {
  }

  /** The scenario the compare-and-delete exists for: thread 1's lock times
      out, thread 2 takes it, and thread 1's late release leaves thread 2 as
      the holder. */
  lemma LateReleaseKeepsNewOwner(kv: Kv, c0: int, c1: int, c2: int, key: string, t1: string, t2: string, ttl1: Positive, ttl2: Positive)
    requires !Present(kv, c0, key) && t1 != t2
    requires ExpiryAfter(c0, ttl1) <= c1 <= c2 < ExpiryAfter(c1, ttl2)
    ensures var (ok1, kv1) := SetIfAbsent(kv, c0, key, t1, ttl1);
            var (ok2, kv2) := SetIfAbsent(kv1, c1, key, t2, ttl2);
            ok1 && ok2 && GetText(Release(kv2, c2, key, t1), c2, key) == Some(t2)
  {
    var (ok1, kv1) := SetIfAbsent(kv, c0, key, t1, ttl1);
    assert !Present(kv1, c1, key);
    var (ok2, kv2) := SetIfAbsent(kv1, c1, key, t2, ttl2);
    ReleaseByOtherKeepsLock(kv2, c2, key, t2, t1);
  }

  /** One lock object: a name, the shared store and the process's token prefix. */
  class SimpleRedisLock {
    const name: string
    const redis: Redis
    /** `ID_PREFIX`: a UUID drawn once per process, then a dash. */
    const idPrefix: string

    constructor(name: string, redis: Redis, processUuid: string)
      ensures this.name == name && this.redis == redis && idPrefix == processUuid + "-"
    {
      this.name := name;
      this.redis := redis;
      idPrefix := processUuid + "-";
    }

    function Key(): string {
      KEY_PREFIX + name
    }

    /** `tryLock(timeoutSec)` by the thread `threadId`. */
    method TryLock(threadId: Long, timeoutSec: Positive) returns (ok: bool)
      modifies redis
      ensures (ok, redis.kv) == SetIfAbsent(old(redis.kv), redis.clock, Key(), Token(idPrefix, threadId), timeoutSec)
      ensures redis.clock == old(redis.clock)
    {
      var token := idPrefix + LongToString(threadId);
      ok := redis.SetNx(KEY_PREFIX + name, token, timeoutSec);
    }

    /** `unlock()` by the thread `threadId`: the release script, run atomically. */
    method Unlock(threadId: Long)
      modifies redis
      ensures redis.kv == Release(old(redis.kv), redis.clock, Key(), Token(idPrefix, threadId))
      ensures redis.clock == old(redis.clock)
    {
      var stored := redis.Get(KEY_PREFIX + name);
      if stored == Some(idPrefix + LongToString(threadId)) {
        redis.Delete(KEY_PREFIX + name);
      }
    }
  }
}
