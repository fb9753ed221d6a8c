/** `CachedPermissionManager`: the owner/group manager with its membership
    test memoised in Redis. The cache is written as composition: it holds the
    base manager (whose resolver it consults on a miss) and the store. */
module Cached {
  import opened Common
  import Chown
  import CacheKey

  /** The part of a Redis server the cache uses: string values and, for the
      keys that expire, the seconds they have left. */
  class Store {
    var data: map<string, string>
    var ttl: map<string, nat>

    /** Only stored keys can carry an expiry. */
    ghost predicate Valid()
      reads this
    {
      ttl.Keys <= data.Keys
    }

    constructor ()
      ensures Valid() && data == map[] && ttl == map[]
    {
      data, ttl := map[], map[];
    }

    /** `GET key`: the stored value, `None` for a missing key. */
    method Get(key: string) returns (value: Option<string>)
      ensures key in data ==> value == Some(data[key])
      ensures key !in data ==> value == None
    {
      value := if key in data then Some(data[key]) else None;
    }

    /** `SET key value`: stores the value and discards any expiry the key had. */
    method Set(key: string, value: string)
      requires Valid()
      modifies this
      ensures Valid()
      ensures data == old(data)[key := value]
      ensures ttl == old(ttl) - {key}
    {
      data := data[key := value];
      ttl := ttl - {key};
    }

    /** `EXPIRE key seconds`: gives an existing key a time to live; a
        non-positive time deletes it at once; a missing key is left alone. */
    method Expire(key: string, seconds: int)
      requires Valid()
      modifies this
      ensures Valid()
      ensures key !in old(data) ==> data == old(data) && ttl == old(ttl)
      ensures key in old(data) && seconds > 0 ==> data == old(data) && ttl == old(ttl)[key := seconds]
      ensures key in old(data) && seconds <= 0 ==> data == old(data) - {key} && ttl == old(ttl) - {key}
    {
      if key in data {
        if seconds > 0 {
          ttl := ttl[key := seconds];
        } else {
          data, ttl := data - {key}, ttl - {key};
        }
      }
    }

    /** The time to live of `key` runs out: Redis deletes it. */
    method Elapse(key: string)
      requires Valid()
      modifies this
      ensures Valid()
      ensures key in old(ttl) ==> data == old(data) - {key} && ttl == old(ttl) - {key}
      ensures key !in old(ttl) ==> data == old(data) && ttl == old(ttl)
    {
      if key in ttl {
        data, ttl := data - {key}, ttl - {key};
      }
    }
  }

  /** What `redis.set(key, result)` stores for a boolean result. */
  function StoredText(b: bool): (text: string)
    ensures text != ""
    ensures (text == "True") == b
  {
    if b then "True" else "False"
  }

  class CachedPermissionManager {
    const base: Chown.PermissionManager
    const redis: Store
    /** `_timeout`: `None` while no value was ever accepted by the setter
        (the constructor was given a negative timeout). */
    var timeout: Option<nat>
    /** How many times the base membership test (and so the resolver) ran. */
    ghost var lookups: nat

    ghost predicate Valid()
      reads this, redis
    {
      redis.Valid()
    }

    /** `CachedPermissionManager(redis_url=..., timeout=t)`: the timeout goes
        through the setter, so a negative one leaves `_timeout` unset. */
    constructor (base: Chown.PermissionManager, redis: Store, timeout: int)
      requires redis.Valid()
      ensures Valid()
      ensures this.base == base && this.redis == redis && lookups == 0
      ensures this.timeout == if timeout >= 0 then Some(timeout) else None
    {
      this.base := base;
      this.redis := redis;
      this.timeout := if timeout >= 0 then Some(timeout) else None;
      lookups := 0;
    }

    /** The `timeout` setter: a non-negative value is taken, a negative one is
        only logged and the previous value stays. */
    method SetTimeout(t: int)
      modifies this`timeout
      ensures timeout == if t >= 0 then Some(t) else old(timeout)
    {
      if t >= 0 {
        timeout := Some(t);
      }
    }

    /** A cached answer is present for `key`: `GET` returns a non-empty value. */
    ghost predicate Hit(key: string)
      reads redis
    {
      key in redis.data && redis.data[key] != ""
    }

    /** What `user_in_group(user, group)` answers in the current state: the
        stored answer on a hit; otherwise the base answer, or the error of
        reading the unset `_timeout`. */
    ghost function Answer(user: Option<string>, group: string): Result<bool>
      reads this, redis, base
    {
      var key := CacheKey.Key(user, group);
      if Hit(key) then Success(redis.data[key] == "True")
      else if timeout.None? then Failure(AttributeError("_timeout"))
      else Success(Chown.UserInGroup(base.resolver, user, group))
    }

    /** The cached `user_in_group(user, group)`. On a hit the stored value is
        compared with "True" and neither the store nor the resolver is
        touched. On a miss the base answer is computed and written under the
        pair's key, the only key that changes. */
    method UserInGroup(user: Option<string>, group: string) returns (r: Result<bool>)
      requires Valid()
      modifies redis, this`lookups
      ensures Valid()
      ensures r == old(Answer(user, group))
      ensures var key := CacheKey.Key(user, group);
        if old(Hit(key)) then
          redis.data == old(redis.data) && redis.ttl == old(redis.ttl) && lookups == old(lookups)
        else
          && lookups == old(lookups) + 1
          && redis.data == old(redis.data)[key := StoredText(Chown.UserInGroup(base.resolver, user, group))]
          && redis.ttl == if timeout.Some? && timeout.value > 0 then old(redis.ttl)[key := timeout.value]
                          else old(redis.ttl) - {key}
    {
      var key := CacheKey.Key(user, group);
      var cached := redis.Get(key);
      if cached.Some? && cached.value != "" {
        var stored := redis.Get(key);
        r := Success(stored == Some("True"));
      } else {
        r := Cache(user, group);
      }
    }

    /** `_cache(user, group)`: the base answer, stored under the pair's key,
        with an expiry only when the timeout is positive. Reading an unset
        `_timeout` raises after the value has been stored. */
    method Cache(user: Option<string>, group: string) returns (r: Result<bool>)
      requires Valid()
      modifies redis, this`lookups
      ensures Valid()
      ensures var answer := Chown.UserInGroup(base.resolver, user, group);
        && r == (if timeout.Some? then Success(answer) else Failure(AttributeError("_timeout")))
        && lookups == old(lookups) + 1
        && redis.data == old(redis.data)[CacheKey.Key(user, group) := StoredText(answer)]
        && redis.ttl == if timeout.Some? && timeout.value > 0
                        then old(redis.ttl)[CacheKey.Key(user, group) := timeout.value]
                        else old(redis.ttl) - {CacheKey.Key(user, group)}
    {
      var result := Chown.UserInGroup(base.resolver, user, group);
      lookups := lookups + 1;
      var key := CacheKey.Key(user, group);
      redis.Set(key, StoredText(result));
      if timeout.None? {
        r := Failure(AttributeError("_timeout"));
        return;
      }
      if timeout.value > 0 {
        redis.Expire(key, timeout.value);
      }
      r := Success(result);
    }

    /** The inherited `check_granted(owner, group)`, which reaches the cached
        membership test only when the owner check did not grant and a group
        is given. */
    method CheckGranted(owner: Option<string>, group: Option<string>, current: Option<string>)
      returns (r: Result<bool>)
      requires Valid()
      modifies redis, this`lookups
      ensures Valid()
      ensures Truthy(owner) && current == owner ==>
                && r == Success(true)
                && redis.data == old(redis.data) && redis.ttl == old(redis.ttl) && lookups == old(lookups)
      ensures !(Truthy(owner) && current == owner) && !Truthy(group) ==>
                && r == Success(false)
                && redis.data == old(redis.data) && redis.ttl == old(redis.ttl) && lookups == old(lookups)
      ensures !(Truthy(owner) && current == owner) && Truthy(group) ==>
                var key := CacheKey.Key(current, group.value);
                && r == old(Answer(current, group.value))
                && if old(Hit(key)) then
                     redis.data == old(redis.data) && redis.ttl == old(redis.ttl) && lookups == old(lookups)
                   else
                     && lookups == old(lookups) + 1
                     && redis.data == old(redis.data)[key := StoredText(Chown.UserInGroup(base.resolver, current, group.value))]
                     && redis.ttl == if timeout.Some? && timeout.value > 0 then old(redis.ttl)[key := timeout.value]
                                     else old(redis.ttl) - {key}
    {
      if Truthy(owner) && current == owner {
        return Success(true);
      }
      if Truthy(group) {
        r := UserInGroup(current, group.value);
      } else {
        r := Success(false);
      }
    }
  }

  /** While its entry is present, the cached answer for a pair does not
      change, even when a different resolver is registered in between. */
  method StableWhileCached(cpm: CachedPermissionManager, user: Option<string>, group: string,
                           replacement: Chown.Resolver)
    returns (first: Result<bool>, second: Result<bool>)
    requires cpm.Valid() && cpm.timeout.Some?
    modifies cpm, cpm.redis, cpm.base
    ensures first.Success? && first == second
    ensures cpm.lookups <= old(cpm.lookups) + 1
  {
    first := cpm.UserInGroup(user, group);
    var _ := cpm.base.GroupsForUser(replacement);
    second := cpm.UserInGroup(user, group);
  }

  /** With a positive timeout, the entry a miss writes expires; the next
      lookup is a miss again, so the resolver runs a second time, and a
      resolver registered in the meantime gives the second answer. */
  method RecomputedAfterExpiry(cpm: CachedPermissionManager, user: Option<string>, group: string,
                               replacement: Chown.Resolver)
    returns (first: Result<bool>, second: Result<bool>)
    requires cpm.Valid() && cpm.timeout.Some? && cpm.timeout.value > 0
    requires !cpm.Hit(CacheKey.Key(user, group))
    modifies cpm, cpm.redis, cpm.base
    ensures first == Success(Chown.UserInGroup(old(cpm.base.resolver), user, group))
    ensures second == Success(Chown.UserInGroup(Some(replacement), user, group))
    ensures cpm.lookups == old(cpm.lookups) + 2
  {
    first := cpm.UserInGroup(user, group);
    cpm.redis.Elapse(CacheKey.Key(user, group));
    var _ := cpm.base.GroupsForUser(replacement);
    second := cpm.UserInGroup(user, group);
  }
}
