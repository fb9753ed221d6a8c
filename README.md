# flask-chmod / flask-chown access decisions, in Dafny

This project models the decision logic of two small Flask extensions that guard views.

- **`flask_chmod`** guards a view with a three-digit "chmod" code.
  - The digits switch on access for a named user (100), for a group (10) and for everyone (1).
  - On every request, `check_granted` checks the code against a fixed whitelist and decodes it digit by digit.
  - It then tries the three checks in a fixed order: other, user, group.
  - Its group test always answers no.
- **`flask_chown`** guards a view with an optional owner and an optional group.
  - A resolver registered with `groups_for_user` lists the groups of an identity.
  - `chown` refuses, when it is applied, a guard that names neither an owner nor a group.
  - `check_granted` grants access to the owner or to a member of the group.
  - Both checks only run when their field is truthy.
- **`CachedPermissionManager`** memoises `flask_chown`'s membership test in Redis.
  - Each (user, group) pair has a key: a fixed prefix followed by the JSON object of the pair.
  - A hit returns `stored == "True"` without calling the resolver.
  - A miss asks the base test, stores `"True"` or `"False"` under the key, and sets an expiry only when the timeout is positive.

Modules:

- `Common` (common.dfy) holds the shared pieces:
  - identities as `Option<string>` and Python truthiness (`Truthy`);
  - the exceptions;
  - the `current_user` precedence rule;
  - what a guarded view returns: a served body, or an abort with status 401.
- `Chmod` (chmod.dfy) is the chmod engine. It is made of pure functions.
- `Chown` (chown.dfy) has two parts:
  - The class `PermissionManager` holds the only state the source updates, the registered resolver. `GroupsForUser` replaces it.
  - The decisions are pure functions of the resolver and their inputs.
- `CacheKey` (cache_key.dfy) is `_gen_json_pair`.
  - It uses `json.dumps`' ASCII-only string escaping: short escapes, `\uXXXX`, and surrogate pairs above U+FFFF.
  - A parser for that text proves that the key determines the pair.
- `Cached` (cached.dfy) holds two classes:
  - `Store` is the part of Redis that is used: GET, SET (which drops an expiry), EXPIRE, and an explicit `Elapse` step for a time-to-live running out.
  - `CachedPermissionManager` is built by composition from the base manager and the store. It has a `timeout` field and a ghost counter `lookups` of base membership lookups (resolver calls).

Where the code and its own documentation or tests disagree, the model follows the code:

- The chmod whitelist is `{1, 10, 11, 100, 101, 111}` (flask_chmod/permission_manager.py:90).
  - The docstring example `chmod(110, ...)` at line 123 raises.
  - So does the user-and-group code that the `chmod` docstring builds (`100 + 10 = 110`, flask_chmod/permission_manager.py:131-132).
  - `Chmod.RejectsUserAndGroupCode` states this.
- The chmod user check is a plain `user == current_user`.
  - With code 100, an unset `user` matches an unset current user and grants access (`Chmod.UserBitAlone`).
  - Nothing requires a user to be given.
  - `flask_chown` instead guards the owner check with truthiness (`Chown.AbsentOwnerNeverMatches`).
- A negative timeout given to the `CachedPermissionManager` constructor goes through the setter, which only logs it, so `_timeout` is never assigned. It is not turned into "never expire".
  - The first cache miss stores the answer first.
  - It then raises `AttributeError` when it reads `self.timeout`.
  - `Cached.CachedPermissionManager.Cache` models this as `Failure(AttributeError("_timeout"))` after the SET.
- A Redis or resolver failure is not modelled. The store and the resolver here cannot fail.

## Model

| member | source | states |
|---|---|---|
| Common.CurrentUser | flask_chown/permission_manager.py:94-100 | `ctx.user or g.current_user`: a truthy context user wins, and otherwise `g.current_user` is taken as it is; the result is truthy iff either source is (the same property is at flask_chmod/permission_manager.py:69-75) |
| Chmod.UserInGroup | flask_chmod/permission_manager.py:78-82 | the chmod manager's membership test never answers yes |
| Chmod.CheckGranted | flask_chmod/permission_manager.py:85-115 | raises `PermissionManagerException` with the source's message exactly for codes outside the whitelist; otherwise grants iff the other bit is set or the user bit is set and `user == current` (the group path can never fire) |
| Chmod.Guard | flask_chmod/permission_manager.py:138-147 | validation happens on each call of the wrapper: an invalid code raises on every request; a granted call returns the view's result unchanged; a denied one returns the action's result, or aborts with 401 when no action is given |
| Chmod.AcceptedCodesArePatterns | flask_chmod/permission_manager.py:90-96 | decoding inverts the decimal encoding of a bit pattern; the whitelist is exactly the patterns with a bit set except user-and-group (110); the six codes decode to six distinct patterns |
| Chmod.AcceptedDigitsAreBits | flask_chmod/permission_manager.py:93-96 | every accepted code is below 1000 and its hundreds, tens and units digits, as the source extracts them, are each 0 or 1 |
| Chmod.RejectsUserAndGroupCode | flask_chmod/permission_manager.py:90-91 | codes 110 (used by the docstring) and 2 raise, whatever the user, group and current user |
| Chmod.OtherBitGrants | flask_chmod/permission_manager.py:98-101 | an accepted code with the other bit set grants access to anyone |
| Chmod.UserBitAlone | flask_chmod/permission_manager.py:103-107 | code 100 grants exactly when `user == current`, and grants when both are absent |
| Chmod.GroupBitAloneDenies | flask_chmod/permission_manager.py:109-115 | code 10 always denies, because the membership test never answers yes |
| Chown.PermissionManager.constructor | flask_chown/permission_manager.py:79-84 | a new manager has no resolver registered |
| Chown.PermissionManager.GroupsForUser | flask_chown/permission_manager.py:103-119 | registering a callback replaces any earlier one and returns the callback unchanged |
| Chown.UserInGroup | flask_chown/permission_manager.py:122-132 | a user is in a group iff the group occurs in the resolver's list for that user; with no resolver nobody is in any group |
| Chown.CheckGranted | flask_chown/permission_manager.py:135-149 | grants iff a truthy owner equals the current user, or a truthy group lists the current user; a grant implies the current user is truthy when it came from the owner path |
| Chown.Chown | flask_chown/permission_manager.py:152-176 | applying `chown` fails with the source's message iff neither owner nor group is truthy, and otherwise records the pair |
| Chown.Guard | flask_chown/permission_manager.py:178-190 | a granted call returns the view's result unchanged; a denied one returns the action's result, or aborts with 401 when no action is given |
| Chown.MembershipIgnoresOrder | flask_chown/permission_manager.py:126-132 | two resolvers that list the same names for a user, in any order and with any repetition, give the same membership answer |
| Chown.NoResolverOnlyOwner | flask_chown/permission_manager.py:126-149 | without a registered resolver only the owner path can grant |
| Chown.AbsentOwnerNeverMatches | flask_chown/permission_manager.py:140-146 | an absent or empty owner never grants by equality, not even to an absent current user; only the group path remains |
| Chown.ChownAcceptsEitherHalf | flask_chown/permission_manager.py:175-176 | owner-only and group-only guards are accepted; absent or empty owner and group are refused |
| Chown.AccessTestCases | tests/test_permission_manager.py:42-83 | with the test suite's resolver, each access test's expected 200 or 401 follows from the decision |
| CacheKey.Key | flask_chown/permission_manager_redis.py:49-54 | every key starts with the fixed prefix `flask_chown:CachedPermissionManager:granted` |
| CacheKey.EscapeCharRoundTrip | flask_chown/permission_manager_redis.py:51-54 | each character as `json.dumps` escapes it reads back as that character whatever follows, and never starts with a closing quote |
| CacheKey.UnitCharRoundTrip | flask_chown/permission_manager_redis.py:51-54 | a character of the Basic Multilingual Plane written as one `\uXXXX` escape reads back as that character |
| CacheKey.PairCharRoundTrip | flask_chown/permission_manager_redis.py:51-54 | a character beyond the Basic Multilingual Plane written as a surrogate pair of escapes reads back as that character |
| CacheKey.EscapeBodyRoundTrip | flask_chown/permission_manager_redis.py:51-54 | an escaped string followed by its closing quote reads back as the string and the text after it |
| CacheKey.KeyRoundTrip | flask_chown/permission_manager_redis.py:49-54 | parsing a key gives back the (user, group) pair it was built from |
| CacheKey.KeyInjective | flask_chown/permission_manager_redis.py:49-54 | distinct (user, group) pairs never share a cache key |
| Cached.StoredText | flask_chown/permission_manager_redis.py:71 | the stored text of an answer is never empty, so it reads back as a hit, and it equals "True" exactly when the answer was yes (tests/test_cached_permission_manager.py:81, 90) |
| Cached.Store.Get | flask_chown/permission_manager_redis.py:58-60 | GET returns the stored value and `None` for a missing key |
| Cached.Store.Set | flask_chown/permission_manager_redis.py:71 | SET writes only that key and drops any expiry it had |
| Cached.Store.Expire | flask_chown/permission_manager_redis.py:74 | EXPIRE gives an existing key a time to live (deleting it for a non-positive one) and leaves a missing key alone |
| Cached.Store.Elapse | flask_chown/permission_manager_redis.py:72-74 | when a key's time to live runs out the key and its expiry are gone; keys without expiry stay |
| Cached.CachedPermissionManager.constructor | flask_chown/permission_manager_redis.py:36-47 | the timeout goes through the setter, so a negative one leaves `_timeout` unset; no lookups have run |
| Cached.CachedPermissionManager.SetTimeout | flask_chown/permission_manager_redis.py:88-94 | a value of 0 or more is taken; a negative value is refused and the previous timeout kept |
| Cached.CachedPermissionManager.UserInGroup | flask_chown/permission_manager_redis.py:56-62 | on a hit the result is `stored == "True"` and the store and the lookup count are unchanged; on a miss the result is the base answer (or the unset-timeout error), the count goes up by one, only the pair's key is written, and it gets an expiry only when the timeout is positive |
| Cached.CachedPermissionManager.Cache | flask_chown/permission_manager_redis.py:64-76 | the base answer is stored as "True"/"False" under the pair's key, the only key written; an expiry is set only when the timeout is positive (no expiry at 0); an unset timeout raises after the value was stored |
| Cached.CachedPermissionManager.CheckGranted | flask_chown/permission_manager.py:140-149 | the inherited check with the cached membership test: the owner path grants and leaves the store (values and expiries) and the lookup count unchanged; with no group the result is false and nothing changes; otherwise the result is the cached answer, a hit changes nothing, and a miss counts one lookup, writes only the pair's key and gives it an expiry only when the timeout is positive |
| Cached.StableWhileCached | tests/test_cached_permission_manager.py:92-106 | two lookups of the same pair return the same answer even when another resolver is registered in between, and the resolver runs at most once |
| Cached.RecomputedAfterExpiry | tests/test_cached_permission_manager.py:61-72 | with a positive timeout the entry a miss writes expires; the next lookup is a miss, runs the resolver again, and answers with the resolver registered after the expiry, not the cached answer of the first |

## Left out

- Flask plumbing is not modelled: `init_app`, the `app` constructor argument and `app.permission_manager`.
- The application context and `g` are not modelled. `Common.CurrentUser` takes `ctx.user` and `g.current_user` as parameters. The decisions take the current user as a parameter.
- `abort(401)` raises an HTTP exception in Flask. Here it is the value `Aborted(401)`.
- Views and actions are represented by the values they return. Their laziness is not modelled: the view runs only when access is granted, and the action only when it is denied.
- `functools.wraps` is not modelled.
- The `print` in the chmod user check is not modelled. Neither is the `logging` call in the timeout setter.
- The Redis connection (`redis.from_url`, the URL argument) is not modelled.
- Connection failures are not modelled.
- Wall-clock expiry is not modelled. A time-to-live running out is the explicit step `Store.Elapse`.
- Between the two GETs of a hit, a key could expire and the answer would then be false. The model leaves this race out.
- Other processes sharing the store are not modelled, except that the store may hold any values.
- Resolver exceptions are not modelled: a resolver is a total function here.
- The values the store holds follow `str(bool)` ("True"/"False"). That is what the package's tests expect from the Redis client of its time. Newer clients reject a `bool` value.
- Python's dynamic typing is not modelled.
  - Codes are integers. A float or `bool` code that compares equal to a whitelisted integer behaves like that integer in Python.
  - Identities are strings or `None`.
  - Resolvers return sequences of strings.
- Python strings that hold lone surrogates cannot be Dafny characters. Their keys are not modelled.
- The cached manager's `chown` wrapper is `Chown.Guard` around `Cached.CachedPermissionManager.CheckGranted`, which can fail with the unset-timeout error. It is not written out as its own member.
- The test apps and demo scripts are not modelled: tests/helper.py, test.py and test_permission_manager.py. The last one disagrees with the code, and with itself; the model follows the code:
  - It expects 110 both to raise (test_permission_manager.py:121) and to be accepted (line 139). The code raises (`Chmod.RejectsUserAndGroupCode`).
  - It expects `chmod=100` without a user to raise (line 118). The code accepts it (`Chmod.UserBitAlone`).
  - It expects `chmod=10` without a group to raise (line 124), and a group member to get 200 with code 10 (line 169). The code accepts the code and always answers 401 (`Chmod.GroupBitAloneDenies`).
- setup.py is not modelled.
