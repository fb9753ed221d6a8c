/** The chmod-style permission manager of `flask_chmod`: a three-digit code
    whose digits switch on access for the owning user, for a group and for
    everyone ("other"). The code is checked against a fixed whitelist on
    every call, decoded digit by digit, and the three checks are tried in the
    order other, user, group. */
module Chmod {
  import opened Common

  /** The codes `check_granted` accepts. 110 is not among them. */
  const ValidCodes: set<int> := {1, 10, 11, 100, 101, 111}

  const InvalidChmodMessage: string := "Invalid chmod, valid values are 1[01]{1,2}"

  /** Which of the three checks a code switches on. */
  datatype Bits = Bits(user: bool, group: bool, other: bool)

  /** The code a bit pattern is written as: `100 * user + 10 * group + other`. */
  function Encode(b: Bits): int {
    (if b.user then 100 else 0) + (if b.group then 10 else 0) + (if b.other then 1 else 0)
  }

  /** The decoding `check_granted` applies: `int(chmod / 100) > 0`,
      `int(chmod / 10) % 10 > 0` and `int(chmod % 10) > 0`. It is applied only
      to whitelisted codes, which are positive, so Python's truncating
      conversion and floor modulo agree with Dafny's division and modulo. */
  function Decode(code: nat): Bits {
    Bits(code / 100 > 0, (code / 10) % 10 > 0, code % 10 > 0)
  }

  /** The group membership test of this manager: nobody is ever in a group. */
  function UserInGroup(user: Option<string>, group: Option<string>): (member: bool)
    ensures !member
  {
    false
  }

  /** `check_granted(chmod, user, group)` with `current` the value of the
      `current_user` property. The user check compares `user` with `current`
      as Python's `==` does, so two absent identities are equal. */
  function CheckGranted(code: int, user: Option<string>, group: Option<string>,
                        current: Option<string>): (r: Result<bool>)
    ensures r.Failure? <==> code !in ValidCodes
    ensures r.Failure? ==> r.error == PermissionManagerException(InvalidChmodMessage)
    ensures r.Success? ==> (r.value <==> Decode(code).other || (Decode(code).user && user == current))
  {
    if code !in ValidCodes then
      Failure(PermissionManagerException(InvalidChmodMessage))
    else
      var bits := Decode(code);
      if bits.other then Success(true)
      else if bits.user && user == current then Success(true)
      else if bits.group && UserInGroup(current, group) then Success(true)
      else Success(false)
  }

  /** The wrapper `chmod(code, user, group, action)` puts around a view, run
      for one request. Nothing is checked when the decorator is applied: an
      invalid code raises on every call of the wrapper, before the view runs. */
  function Guard<R>(code: int, user: Option<string>, group: Option<string>, action: Option<R>,
                    current: Option<string>, view: R): (r: Result<Response<R>>)
    ensures code !in ValidCodes ==> r == Failure(PermissionManagerException(InvalidChmodMessage))
    ensures CheckGranted(code, user, group, current) == Success(true) ==> r == Success(Served(view))
    ensures CheckGranted(code, user, group, current) == Success(false) ==>
              r == Success(if action.Some? then Served(action.value) else Aborted(Unauthorized))
  {
    match CheckGranted(code, user, group, current)
    case Failure(e) => Failure(e)
    case Success(granted) => Success(Respond(granted, action, view))
  }

  /** The whitelist is exactly the bit patterns with at least one bit set,
      except user-and-group (110); each accepted code is its own pattern
      written in decimal, so the six codes decode to six distinct patterns. */
  lemma AcceptedCodesArePatterns()
    ensures forall b: Bits :: Decode(Encode(b)) == b
    ensures forall b: Bits :: Encode(b) in ValidCodes <==>
              b != Bits(false, false, false) && b != Bits(true, true, false)
    ensures forall code :: code in ValidCodes ==> code >= 0 && Encode(Decode(code)) == code
    ensures forall c1, c2 :: c1 in ValidCodes && c2 in ValidCodes && Decode(c1) == Decode(c2) ==> c1 == c2
  {
  }

  /** Every accepted code has decimal digits 0 or 1 and at most three of them. */
  lemma AcceptedDigitsAreBits(code: int)
    requires code in ValidCodes
    ensures 0 < code < 1000
    ensures code / 100 in {0, 1} && (code / 10) % 10 in {0, 1} && code % 10 in {0, 1}
    ensures code == 100 * (code / 100) + 10 * ((code / 10) % 10) + code % 10
  {
  }

  /** The code the documentation of `chmod` uses (user and group, 110) and the
      out-of-range digit 2 are both refused, whatever the other arguments. */
  lemma RejectsUserAndGroupCode(user: Option<string>, group: Option<string>, current: Option<string>)
    ensures CheckGranted(110, user, group, current) == Failure(PermissionManagerException(InvalidChmodMessage))
    ensures CheckGranted(2, user, group, current) == Failure(PermissionManagerException(InvalidChmodMessage))
  {
  }

  /** With the other bit set, access is granted to anyone. */
  lemma OtherBitGrants(code: int, user: Option<string>, group: Option<string>, current: Option<string>)
    requires code in ValidCodes && code >= 0 && Decode(code).other
    ensures CheckGranted(code, user, group, current) == Success(true)
  {
  }

  /** With only the user bit set, access is granted exactly when `user` equals
      the current user, which includes both being absent. */
  lemma UserBitAlone(user: Option<string>, group: Option<string>, current: Option<string>)
    ensures CheckGranted(100, user, group, current) == Success(user == current)
    ensures CheckGranted(100, None, group, None) == Success(true)
  {
  }

  /** With only the group bit set, access is never granted. */
  lemma GroupBitAloneDenies(user: Option<string>, group: Option<string>, current: Option<string>)
    ensures CheckGranted(10, user, group, current) == Success(false)
  {
  }
}
