/** The owner/group permission manager of `flask_chown`: a view is guarded by
    an optional owner and an optional group; the current user gets in when it
    is the owner or when the registered resolver lists the group for it. */
module Chown {
  import opened Common

  /** The callback registered with `groups_for_user`: the group names of an
      identity (the current user may be absent, and is passed on as it is). */
  type Resolver = Option<string> -> seq<string>

  const MissingOwnerAndGroupMessage: string :=
    "You have to provide at least one out of owner and group"

  /** The manager's only state: the registered resolver, if any. */
  class PermissionManager {
    var resolver: Option<Resolver>

    constructor ()
      ensures resolver == None
    {
      resolver := None;
    }

    /** `groups_for_user(callback)`: registers the callback, replacing any
        earlier one, and hands it back unchanged (it is used as a decorator). */
    method GroupsForUser(callback: Resolver) returns (registered: Resolver)
      modifies this
      ensures resolver == Some(callback)
      ensures registered == callback
    {
      resolver := Some(callback);
      registered := callback;
    }
  }

  /** The groups `user_in_group` looks `group` up in: the resolver's answer,
      or the empty list of the default `lambda user: []`. */
  function Groups(resolver: Option<Resolver>, user: Option<string>): seq<string> {
    if resolver.Some? then resolver.value(user) else []
  }

  /** `user_in_group(user, group)` over the registered resolver. */
  function UserInGroup(resolver: Option<Resolver>, user: Option<string>, group: string): (member: bool)
    ensures resolver.None? ==> !member
    ensures member <==> exists i :: 0 <= i < |Groups(resolver, user)| && Groups(resolver, user)[i] == group
  {
    group in Groups(resolver, user)
  }

  /** `check_granted(owner, group)`, with `current` the `current_user`
      property. Both paths are guarded by truthiness, so an absent or empty
      owner never matches, and an absent or empty group is never looked up. */
  function CheckGranted(resolver: Option<Resolver>, owner: Option<string>, group: Option<string>,
                        current: Option<string>): (granted: bool)
    ensures granted ==> (Truthy(current) && current == owner) ||
                        (Truthy(group) && UserInGroup(resolver, current, group.value))
    ensures Truthy(owner) && current == owner ==> granted
    ensures Truthy(group) && UserInGroup(resolver, current, group.value) ==> granted
  {
    if Truthy(owner) && current == owner then true
    else if Truthy(group) && UserInGroup(resolver, current, group.value) then true
    else false
  }

  /** The owner and group a `chown` decorator was applied with. */
  datatype OwnerGroup = OwnerGroup(owner: Option<string>, group: Option<string>)

  /** Applying `chown(owner, group)`: refused at once, before any view is
      wrapped, when neither an owner nor a group is given. */
  function Chown(owner: Option<string>, group: Option<string>): (r: Result<OwnerGroup>)
    ensures r.Failure? <==> !Truthy(owner) && !Truthy(group)
    ensures r.Failure? ==> r.error == PermissionManagerException(MissingOwnerAndGroupMessage)
    ensures r.Success? ==> r.value == OwnerGroup(owner, group)
  {
    if !Truthy(owner) && !Truthy(group) then
      Failure(PermissionManagerException(MissingOwnerAndGroupMessage))
    else
      Success(OwnerGroup(owner, group))
  }

  /** The wrapper a successful `chown` puts around a view, run for one request. */
  function Guard<R>(resolver: Option<Resolver>, spec: OwnerGroup, action: Option<R>,
                    current: Option<string>, view: R): (response: Response<R>)
    ensures CheckGranted(resolver, spec.owner, spec.group, current) ==> response == Served(view)
    ensures !CheckGranted(resolver, spec.owner, spec.group, current) ==>
              response == if action.Some? then Served(action.value) else Aborted(Unauthorized)
  {
    Respond(CheckGranted(resolver, spec.owner, spec.group, current), action, view)
  }

  /** Membership depends only on which names the resolver lists for the user,
      not on their order or repetition. */
  lemma MembershipIgnoresOrder(f1: Resolver, f2: Resolver, user: Option<string>, group: string)
    requires (set x | x in f1(user)) == (set x | x in f2(user))
    ensures UserInGroup(Some(f1), user, group) == UserInGroup(Some(f2), user, group)
  {
    var s1, s2 := set x | x in f1(user), set x | x in f2(user);
    assert group in f1(user) <==> group in s1;
    assert group in f2(user) <==> group in s2;
  }

  /** Without a registered resolver only the owner can get in. */
  lemma NoResolverOnlyOwner(owner: Option<string>, group: Option<string>, current: Option<string>)
    ensures CheckGranted(None, owner, group, current) <==> Truthy(owner) && current == owner
  {
  }

  /** An absent or empty owner never grants by equality, not even to an
      absent current user: only the group path is left. */
  lemma AbsentOwnerNeverMatches(resolver: Option<Resolver>, owner: Option<string>,
                                group: Option<string>, current: Option<string>)
    requires !Truthy(owner)
    ensures CheckGranted(resolver, owner, group, current) <==>
              Truthy(group) && UserInGroup(resolver, current, group.value)
  {
  }

  /** A guard with owner only or group only is accepted; one with neither
      (absent or empty) is refused. */
  lemma ChownAcceptsEitherHalf(owner: string, group: string)
    requires owner != "" && group != ""
    ensures Chown(Some(owner), None).Success? && Chown(None, Some(group)).Success?
    ensures Chown(None, None).Failure? && Chown(Some(""), Some("")).Failure?
  {
  }

  /** The resolver used throughout the package's access tests. */
  function TestGroups(user: Option<string>): seq<string> {
    if user == Some("testuser1") then ["testgroup1", "testgroup2"]
    else if user == Some("testuser2") then ["testgroup2"]
    else if user == Some("testuser3") then ["testgroup3"]
    else []
  }

  /** The access tests of the package, as facts about the decision: the
      status is 200 when granted and 401 otherwise. */
  lemma AccessTestCases()
    ensures var r := Some(TestGroups);
      && !CheckGranted(r, Some("testuser1"), Some("testgroup1"), None)
      && !CheckGranted(r, None, Some("testgroup1"), None)
      && !CheckGranted(r, Some("testuser1"), None, None)
      && CheckGranted(r, None, Some("testgroup1"), Some("testuser1"))
      && CheckGranted(r, Some("testuser2"), Some("testgroup1"), Some("testuser1"))
      && !CheckGranted(r, None, Some("testgroup1"), Some("testuser2"))
      && !CheckGranted(r, Some("testuser1"), Some("testgroup1"), Some("testuser2"))
      && CheckGranted(r, Some("testuser2"), None, Some("testuser2"))
      && !CheckGranted(r, Some("testuser2"), None, Some("testuser1"))
  {
  }
}
