/** Values shared by the chmod and the chown permission managers: optional
    identities and Python's truthiness of them, the exceptions the managers
    raise, and the outcome of a guarded view. */
module Common {

  datatype Option<T> = None | Some(value: T)

  /** The exceptions the modelled code raises. `PermissionManagerException`
      carries the message the source passes to it; `AttributeError` is what
      Python raises when a property reads an attribute that was never set. */
  datatype Error =
    | PermissionManagerException(message: string)
    | AttributeError(attribute: string)

  datatype Result<T> = Success(value: T) | Failure(error: Error)

  /** Python truthiness of `None` or a `str`: only a non-empty string is true. */
  predicate Truthy(name: Option<string>) {
    name.Some? && name.value != ""
  }

  /** The `current_user` property: `ctx.user or g.current_user`. The identity
      set on the application context wins whenever it is truthy; otherwise the
      value of `g.current_user` is taken as it is (absent means `None`). */
  function CurrentUser(ctxUser: Option<string>, gUser: Option<string>): (current: Option<string>)
    ensures current == ctxUser || current == gUser
    ensures Truthy(ctxUser) ==> current == ctxUser
    ensures !Truthy(ctxUser) ==> current == gUser
    ensures Truthy(current) <==> Truthy(ctxUser) || Truthy(gUser)
  {
    if Truthy(ctxUser) then ctxUser else gUser
  }

  /** The status `abort` is called with when access is denied and no action is given. */
  const Unauthorized: int := 401

  /** What a guarded view hands back to Flask: the body a view or an action
      returned, or an abort with an HTTP status. */
  datatype Response<R> = Served(body: R) | Aborted(status: int)

  /** The tail of both decorators' wrappers: a granted call returns the view's
      result unchanged; a denied call returns `action()` when an action was
      given and aborts with 401 otherwise. `action` is the action's result,
      `None` when no action was given. */
  function Respond<R>(granted: bool, action: Option<R>, view: R): (response: Response<R>)
    ensures response.Aborted? <==> !granted && action.None?
    ensures response.Aborted? ==> response.status == Unauthorized
    ensures granted ==> response == Served(view)
    ensures !granted && action.Some? ==> response == Served(action.value)
  {
    if granted then Served(view)
    else if action.Some? then Served(action.value)
    else Aborted(Unauthorized)
  }
}
