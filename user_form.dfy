/**
 * The add/edit user dialog: which request it dispatches on save, when it
 * may be submitted, its "Save and create another" button and its title.
 * Dispatching and resetting the form are returned as effects.
 */
module UserForm {
  import opened Js
  import opened AuthTypes
  import opened SignInMethod

  /** `!!user`: the dialog edits a user exactly when one is given. */
  predicate IsEditing(editedUser: Option<AuthUser>) {
    editedUser.Some?
  }

  /** What a handler of the dialog does, in order. */
  datatype FormEffect = Dispatch(action: AuthAction) | ResetForm(defaults: Option<AuthUser>)

  /** `save(user, keepDialogOpen)`: an update of the edited user, or a creation. */
  function Save(editedUser: Option<AuthUser>, user: UserPayload, keepDialogOpen: Option<bool>): (a: AuthAction)
    ensures a.UpdateUserRequest? <==> IsEditing(editedUser)
    ensures a.UpdateUserRequest? ==> a.update == user && a.localId == editedUser.value.localId
    ensures a.CreateUserRequest? <==> !IsEditing(editedUser)
    ensures a.CreateUserRequest? ==> a.user == user && a.keepDialogOpen == keepDialogOpen
  {
    if editedUser.Some? then UpdateUserRequest(user, editedUser.value.localId)
    else CreateUserRequest(user, keepDialogOpen)
  }

  /** `!authUserDialogData?.loading && formState.isValid`; `loading` is
      `undefined` when there is no dialog data. */
  function CanSubmit(loading: Option<bool>, isValid: bool): (r: bool)
    ensures r <==> loading != Some(true) && isValid
  {
    !(loading.Some? && loading.value) && isValid
  }

  /** `submit`, run on the form's values: it saves only when the error map,
      which also holds the cross-field errors, is empty. */
  function Submit(editedUser: Option<AuthUser>, errors: ErrorMap, user: UserPayload): (r: seq<FormEffect>)
    ensures |r| <= 1
    ensures r != [] <==> |errors| == 0
    ensures r != [] ==> r[0] == Dispatch(Save(editedUser, user, None))
  {
    if |errors| == 0 then [Dispatch(Save(editedUser, user, None))] else []
  }

  /** The "Save and create another" handler: save without closing the
      dialog, then reset the form to the edited user's values. */
  function SaveAndCreateAnother(editedUser: Option<AuthUser>, user: UserPayload): (r: seq<FormEffect>)
    ensures |r| == 2
    ensures r[0] == Dispatch(Save(editedUser, user, Some(true)))
    ensures r[1] == ResetForm(editedUser)
  {
    [Dispatch(Save(editedUser, user, Some(true))), ResetForm(editedUser)]
  }

  /** The dialog's two save buttons: "Save and create another", present only
      when the dialog creates a user, and "Save". Each holds whether it is enabled. */
  datatype Buttons = Buttons(createAnother: Option<bool>, save: bool)

  function DialogButtons(editedUser: Option<AuthUser>, loading: Option<bool>, isValid: bool): (b: Buttons)
    ensures b.createAnother.Some? <==> !IsEditing(editedUser)
    ensures b.createAnother.Some? ==> b.createAnother.value == b.save
    ensures b.save <==> loading != Some(true) && isValid
  {
    var enabled := CanSubmit(loading, isValid);
    Buttons(if editedUser.None? then Some(enabled) else None, enabled)
  }

  const EDIT_TITLE_PREFIX := "Edit User "
  const ADD_TITLE := "Add a user"

  /** The dialog title. A missing display name is rendered by the template
      string as the text `undefined`. */
  function Title(editedUser: Option<AuthUser>): (t: string)
    ensures IsEditing(editedUser) <==> EDIT_TITLE_PREFIX <= t
    ensures !IsEditing(editedUser) ==> t == ADD_TITLE
    ensures IsEditing(editedUser) && editedUser.value.fields.displayName.Some? ==>
      t == EDIT_TITLE_PREFIX + editedUser.value.fields.displayName.value
    ensures IsEditing(editedUser) && editedUser.value.fields.displayName.None? ==>
      t == EDIT_TITLE_PREFIX + "undefined"
  {
    if editedUser.Some? then
      EDIT_TITLE_PREFIX + (match editedUser.value.fields.displayName
                           case Some(name) => name
                           case None => "undefined")
    else
      assert ADD_TITLE[0] != EDIT_TITLE_PREFIX[0];
      ADD_TITLE
  }

  /** Creating never updates and editing never creates: every save of the
      dialog dispatches exactly one request, chosen by whether a user is edited. */
  lemma SaveDispatchesOneRequest(editedUser: Option<AuthUser>, user: UserPayload, keepDialogOpen: Option<bool>)
    ensures Save(editedUser, user, keepDialogOpen).UpdateUserRequest? != Save(editedUser, user, keepDialogOpen).CreateUserRequest?
  {
  }

  /** The "Save and create another" button, whenever it is shown, creates a
      user that keeps the dialog open and then clears the form. */
  lemma CreateAnotherCreatesAndResets(editedUser: Option<AuthUser>, loading: Option<bool>, isValid: bool, user: UserPayload)
    requires DialogButtons(editedUser, loading, isValid).createAnother.Some?
    ensures SaveAndCreateAnother(editedUser, user) == [Dispatch(CreateUserRequest(user, Some(true))), ResetForm(None)]
  {
  }

  /** With neither an email nor a phone number, once the sign-in section's
      effect has run the dialog's submit saves nothing, whatever the other errors. */
  lemma {:induction false} NoSignInMethodBlocksSubmit(
    editedUser: Option<AuthUser>, errors: ErrorMap, phoneNumber: Option<string>, user: UserPayload)
    requires !Truthy(phoneNumber)
    ensures Submit(editedUser, WithAtLeastOneMethodRule(errors, Some(""), phoneNumber), user) == []
  {
    var after := WithAtLeastOneMethodRule(errors, Some(""), phoneNumber);
    assert ERROR_AT_LEAST_ONE_METHOD_REQUIRED in after;
    assert |after| != 0;
  }
}
