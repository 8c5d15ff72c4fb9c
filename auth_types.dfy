/**
 * The authentication emulator's data as the console's store sees it:
 * the user payload the user form edits, a stored user, the untyped values
 * a saga is resumed with, and the store actions.
 */
module AuthTypes {
  import opened Js

  /** `AddAuthUserPayload`: the fields of the user form. Every field may be absent. */
  datatype UserPayload = UserPayload(
    displayName: Option<string>,
    email: Option<string>,
    password: Option<string>,
    phoneNumber: Option<string>,
    customAttributes: Option<string>)

  const NoFields := UserPayload(None, None, None, None, None)

  /** `AuthUser`: a stored user, identified by its `localId`. */
  datatype AuthUser = AuthUser(localId: string, fields: UserPayload)

  /** A value a saga is resumed with. JavaScript does not check these, so a
      saga passes on whatever it is given. */
  datatype Value =
    | Undefined
    | ApiHandle(id: nat)
    | UserValue(user: AuthUser)
    | UserList(users: seq<AuthUser>)
    | Flag(flag: bool)

  /** `value.localId` on a defined value: `undefined` for anything but a
      user. Reading it from `undefined` throws instead, which the caller models. */
  function LocalIdOf(v: Value): Option<string>
    requires !v.Undefined?
  {
    if v.UserValue? then Some(v.user.localId) else None
  }

  /** The argument of `updateAuthConfig`: the auth emulator's address and the project. */
  datatype AuthConfig = AuthConfig(hostAndPort: string, projectId: string)

  /** The auth store actions that the user form dispatches and the sagas put. */
  datatype AuthAction =
    | AuthFetchUsersRequest
    | AuthFetchUsersSuccess(users: Value)
    | CreateUserRequest(user: UserPayload, keepDialogOpen: Option<bool>)
    | CreateUserSuccess(created: Value)
    | UpdateUserRequest(update: UserPayload, localId: string)
    | UpdateUserSuccess(updated: Value)
    | DeleteUserSuccess(deletedId: string)
    | SetUserDisabledSuccess(disabledId: string, disabled: bool)
    | NukeUsersSuccess
    | SetAllowDuplicateEmailsSuccess(allow: Value)
    | GetAllowDuplicateEmailsRequest
    | SetAuthUserDialogLoading(loading: bool)
    | ClearAuthUserDialogData
}
