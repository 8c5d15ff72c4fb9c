# Emulator Suite console: a Dafny model of its core logic

This project models the decision logic of the Firebase Emulator Suite's web console:

- **Auth user form.** Covers the "at least one sign-in method" rule, the email and password checks, and what submitting the dialog dispatches.
- **Auth sagas.** The redux-saga generators that talk to the Auth emulator's API.
- **Home page.** What it shows for each emulator.
- **Extensions URL.** How the Extensions page builds the Functions emulator's URL.
- **Realtime Database import dialog.**

JavaScript's `undefined` is `Option.None` (module `Js`). Truthiness and `a || b` on strings are written out there.

Modules:

- `Js`: `undefined`, truthiness, `||`.
- `EmulatorConfig`: the per-emulator configuration (`host`, `port`, `hostAndPort`, `useHttps`) and the whole suite's configuration. It also holds the `http://`/`https://` prefix and its inverse, which the URL round trips use.
- `AuthTypes`: user payloads, users, the dynamic values a saga is resumed with, and the redux actions of the Auth store.
- `SignInMethod`: the effect that keeps the `atLeastOneMethodRequired` form error in step with the email and phone fields, and the section header it drives. The form's error state is a class (`FormState`) whose methods update its `errors` map.
- `EmailPassword`: the errors the email/password control reports.
- `UserForm`: `save`, `submit`, "Save and create another", the buttons' enabled state and the dialog title.
- `AuthSagas`: each saga as a generator. `Step` is one `next`/`throw` call on the generator's state and `Run` is a sequence of them. `SagaGenerator` is the generator object, whose `Next`/`Throw` methods update its fields by `Step`.
- `Home`: the spinner, the local-warning callout and the eight emulator cards.
- `FunctionsEmulator`: `useFunctionsEmulator`.
- `ImportDialog`: the dialog's state as a class, and `SubmitEvents`, the ordered effects of `onSubmit`.

The saga implementation file itself is not part of this model. The sagas are modelled on the behaviour their test file fixes step by step, and the rows below cite those tests. The same holds for `EmailPassword`. Where that behaviour is open, the model takes a parameter or states its assumption under "Left out".

The hosting card's test (`src/components/Home/index.test.tsx:126`) expects the link `http://localhost:5000/` for a hosting emulator with `useHttps: true`. The component (`src/components/Home/index.tsx:115-117`) builds `https://` in that case. The model follows the component, and `Home.HomeScenarios` proves the `https://` link.

## Model

| member | source | states |
|---|---|---|
| Js.OrElse | src/components/Home/index.tsx:176 | `a \|\| b` on an optional string gives `a` exactly when it is truthy, and `b` otherwise |
| EmulatorConfig.SplitScheme | src/components/Home/index.tsx:116 | a URL that is split into scheme and rest is that scheme's prefix followed by the rest; it gives nothing when neither prefix starts the URL |
| EmulatorConfig.SplitSchemeOfScheme | src/components/Extensions/api/internal/useFunctionsEmulator.tsx:20 | the `useHttps ? 'https://' : 'http://'` prefix followed by any text splits back into the same flag and text, so the scheme a URL shows determines `useHttps` |
| SignInMethod.WithAtLeastOneMethodRule | src/components/Auth/UserFormDialog/controls/SignInMethod.tsx:46-60 | after the effect, the `atLeastOneMethodRequired` error is present exactly when the email is `''` and the phone number is falsy, with message `at least`; every other error is kept unchanged and none is added |
| SignInMethod.FormState.constructor | src/components/Auth/UserFormDialog/controls/SignInMethod.tsx:39 | a form starts without errors and with the given touched fields |
| SignInMethod.FormState.SetError | src/components/Auth/UserFormDialog/controls/SignInMethod.tsx:56-58 | `setError` sets that one entry of the error map |
| SignInMethod.FormState.ClearErrors | src/components/Auth/UserFormDialog/controls/SignInMethod.tsx:54 | `clearErrors` removes that one entry |
| SignInMethod.FormState.RunAtLeastOneMethodEffect | src/components/Auth/UserFormDialog/controls/SignInMethod.tsx:46-60 | running the effect on the form's state leaves exactly the errors the rule computes from the old errors |
| SignInMethod.UndefinedEmailClearsError | src/components/Auth/UserFormDialog/controls/SignInMethod.tsx:47 | `hasEmail` is `email !== ''`, so an undefined email counts as an email and clears the error |
| SignInMethod.RuleIsIdempotent | src/components/Auth/UserFormDialog/controls/SignInMethod.tsx:46-60 | re-running the effect (it re-runs when `errors` changes) changes nothing more |
| SignInMethod.TwoKeysMeansNotOnly | src/components/Auth/UserFormDialog/controls/SignInMethod.tsx:63-65 | when any other error exists alongside `atLeastOneMethodRequired` it is not the only error |
| SignInMethod.AlertExactlyWhenNoMethodAndNoOtherError | src/components/Auth/UserFormDialog/controls/SignInMethod.tsx:62-83 | after the effect, the red alert shows exactly when email or phone was touched, there is no other error, the email is `''` and the phone is falsy; otherwise the neutral hint shows |
| SignInMethod.SignInMethodScenarios | src/components/Auth/UserFormDialog/controls/SignInMethod.test.tsx:61-108 | the five test cases: phone only, email and password, all three fields, an email without password beside a phone (another field's error) show the hint; nothing present shows the alert; beyond the tests, another field's error with all fields empty shows the hint |
| EmailPassword.BothOrNoneRule | src/components/Auth/UserFormDialog/controls/EmailPassword.test.tsx:37-79 | both fields empty or both present never gives the both-or-none error; exactly one present does when creating; an edited user may leave the password empty |
| EmailPassword.InvalidEmailRule | src/components/Auth/UserFormDialog/controls/EmailPassword.test.tsx:81-97 | the invalid-email error is reported exactly for a present, malformed email |
| EmailPassword.DuplicateEmailRule | src/components/Auth/UserFormDialog/controls/EmailPassword.test.tsx:98-125 | the duplicate-email error is reported exactly for a present email that some user has and that is not the edited user's own, also while a different user is edited; an unused email never is |
| EmailPassword.ChecksAreIndependent | src/components/Auth/UserFormDialog/controls/EmailPassword.test.tsx:81-147 | the password-length check does not depend on the email, and the email checks do not depend on the password |
| EmailPassword.CreatingValidExactly | src/components/Auth/UserFormDialog/controls/EmailPassword.test.tsx:37-147 | when creating a user the control reports no error exactly when both fields are empty, or both are present with a well-formed, unused email and a long enough password |
| EmailPassword.EmailPasswordScenarios | src/components/Auth/UserFormDialog/controls/EmailPassword.test.tsx:40-147 | every test case of the control, for any email format and minimum length that agree with the tests' data |
| UserForm.Save | src/components/Auth/UserFormDialog/UserForm.tsx:63-72 | editing dispatches `updateUserRequest` with the form's payload and the edited user's `localId`; creating dispatches `createUserRequest` with the payload and `keepDialogOpen`; never both |
| UserForm.CanSubmit | src/components/Auth/UserFormDialog/UserForm.tsx:76 | submission is enabled exactly when the dialog is not loading and the form is valid |
| UserForm.Submit | src/components/Auth/UserFormDialog/UserForm.tsx:78-86 | submit dispatches one save without `keepDialogOpen` exactly when the form has no errors at all, and does nothing otherwise |
| UserForm.SaveAndCreateAnother | src/components/Auth/UserFormDialog/UserForm.tsx:122-125 | "Save and create another" saves with `keepDialogOpen` true and then resets the form to the edited user |
| UserForm.DialogButtons | src/components/Auth/UserFormDialog/UserForm.tsx:120-135 | "Save and create another" is offered only when creating, and it is enabled exactly like "Save", which is enabled exactly when submission is |
| UserForm.Title | src/components/Auth/UserFormDialog/UserForm.tsx:92-94 | the title is `Edit User <displayName>` exactly when editing (an absent name prints `undefined`) and `Add a user` otherwise |
| UserForm.SaveDispatchesOneRequest | src/components/Auth/UserFormDialog/UserForm.tsx:65-69 | a save dispatches exactly one of the two requests |
| UserForm.CreateAnotherCreatesAndResets | src/components/Auth/UserFormDialog/UserForm.tsx:120-125 | whenever the button is shown it creates a user with the dialog kept open and resets the form to empty |
| UserForm.NoSignInMethodBlocksSubmit | src/components/Auth/UserFormDialog/UserForm.tsx:80-83 | with an empty email and no phone number the sign-in-method error makes submit dispatch nothing, whatever else the form holds |
| AuthSagas.Run | src/store/auth/sagas.test.ts:54-453 | a run gives one result per `next`/`throw` call |
| AuthSagas.SagaGenerator.constructor | src/store/auth/sagas.test.ts:57 | calling a saga gives a suspended generator at its start |
| AuthSagas.SagaGenerator.Next | src/store/auth/sagas.test.ts:60-72 | `gen.next(v)` moves the generator's state and gives the result of one step resumed with `v` |
| AuthSagas.SagaGenerator.Throw | src/store/auth/sagas.test.ts:199 | `gen.throw(e)` moves the generator's state and gives the result of one step resumed by throwing `e` |
| AuthSagas.RunCons | src/store/auth/sagas.test.ts:54-453 | a run is its first step followed by the run from the state that step leaves |
| AuthSagas.UserSagasStartWithConfigure | src/store/auth/sagas.test.ts:60-63 | every saga that works on users first yields `call(configureAuthSaga)` |
| AuthSagas.ConfigureAuthReturnsApi | src/store/auth/sagas.test.ts:438-453 | `configureAuthSaga` yields `getContext(AUTH_API_CONTEXT)` and returns the value it is resumed with |
| AuthSagas.FetchAuthUsersTrace | src/store/auth/sagas.test.ts:55-74 | `authFetchUsers` calls `fetchUsers` on the configured API and puts the success action with the result |
| AuthSagas.CreateUserTrace | src/store/auth/sagas.test.ts:77-113 | `createUser` shows loading, calls `createUser`, puts the success action with the created user, clears the dialog, hides loading and finishes |
| AuthSagas.CreateUserWithCustomAttributesTrace | src/store/auth/sagas.test.ts:115-173 | with custom attributes and a defined result of the create call, `createUser` makes a second `updateUser` call with the new user's `localId` and only the attributes, and reports the updated user |
| AuthSagas.CreateUserUndefinedResultTrace | src/store/auth/sagas.test.ts:150 | with custom attributes, a create call that gives `undefined` makes reading its `localId` throw inside the `try`: the error is reported, loading is turned off and the saga finishes |
| AuthSagas.CreateUserErrorTrace | src/store/auth/sagas.test.ts:175-241 | when the create call throws, `createUser` reports the error, hides loading and finishes, whether or not the dialog is kept open |
| AuthSagas.CreateUserKeepOpenTrace | src/components/Auth/UserFormDialog/UserForm.tsx:123 | with `keepDialogOpen` a successful `createUser` does not clear the dialog data |
| AuthSagas.InitAuthDisabledTrace | src/store/auth/sagas.test.ts:245-251 | `initAuth` without an auth emulator finishes without any effect |
| AuthSagas.InitAuthEnabledTrace | src/store/auth/sagas.test.ts:253-283 | `initAuth` sets the API context from the configuration and then in parallel requests the users and the duplicate-emails setting |
| AuthSagas.DeleteUserTrace | src/store/auth/sagas.test.ts:286-307 | `deleteUser` calls `deleteUser` with the id and puts the success action with that id |
| AuthSagas.UpdateUserTrace | src/store/auth/sagas.test.ts:309-348 | `updateUser` shows loading, calls `updateUser` with the `localId` and the payload, puts the success action with the result, clears the dialog and hides loading |
| AuthSagas.SetUserDisabledTrace | src/store/auth/sagas.test.ts:350-376 | `setUserDisabled` calls `updateUser` with only the id and `disableUser`, and puts the success action with the request's id and flag |
| AuthSagas.NukeUsersTrace | src/store/auth/sagas.test.ts:378-398 | `nukeUsers` calls `nukeUsers` and puts the success action |
| AuthSagas.SetAllowDuplicateEmailsTrace | src/store/auth/sagas.test.ts:400-417 | `setAllowDuplicateEmails` calls `updateConfig` with the flag and puts the success action with the requested flag |
| AuthSagas.GetAllowDuplicateEmailsTrace | src/store/auth/sagas.test.ts:419-436 | `getAllowDuplicateEmails` calls `getConfig` and puts the success action with the returned flag |
| AuthSagas.StepKeepsApi | src/store/auth/sagas.test.ts:54-453 | once a saga has its API, no step changes it, and every API call it yields goes to it |
| AuthSagas.CallsUseFixedApi | src/store/auth/sagas.test.ts:54-453 | over any run from such a state, every API call goes to that API |
| AuthSagas.ApiCallsGoToConfiguredApi | src/store/auth/sagas.test.ts:54-453 | for every saga and every sequence of `next`/`throw` calls, each API call is made on exactly the value the `call(configureAuthSaga)` was resumed with |
| AuthSagas.FinishedRunYieldsNothing | src/store/auth/sagas.test.ts:72 | a finished generator yields no further effect |
| AuthSagas.CreateUserSettles | src/store/auth/sagas.test.ts:76-242 | from any state of `createUser`, a run that finishes without an error escaping yields exactly the loading toggles and the outcome still pending in that state |
| AuthSagas.CreateUserBalanced | src/store/auth/sagas.test.ts:76-242 | every run of `createUser` that finishes without an error escaping turns loading on once and off once, and yields exactly one of the success action and the error report |
| Home.HostingLink | src/components/Home/index.tsx:115-117 | the hosting link exists exactly when the hosting emulator runs, ends in `/`, and before that is the emulator's scheme and `hostAndPort` |
| Home.SpinnerExactlyWhileLoading | src/components/Home/index.tsx:48-55 | the spinner with `Overview Page Loading...` shows exactly while the configuration is loading |
| Home.CardStatusAndPort | src/components/Home/index.tsx:158-164 | a card is on exactly when its emulator has a configuration, and shows its port or `N/A` |
| Home.CardLinks | src/components/Home/index.tsx:166-178 | the divider shows exactly when the card has a link; the internal link exists exactly for a truthy route and is labelled with the label or `Go to emulator`; the external link exists exactly for a truthy URL and opens in a new tab |
| Home.OverviewCardsInOrder | src/components/Home/index.tsx:73-132 | there are eight cards in the fixed order, each showing its own emulator's status and port |
| Home.FailedLoadShowsAllOff | src/components/Home/index.tsx:53 | when loading fails, the overview of an empty configuration shows all eight emulators off with `N/A` |
| Home.LocalWarningExactlyWithProjectId | src/components/Home/index.tsx:67-69 | the local-warning callout shows exactly when the project id is truthy, with that id |
| Home.HostingCardLink | src/components/Home/index.tsx:110-119 | the hosting card links externally to the emulator's root under `View website` exactly when the hosting emulator runs, and has no internal link |
| Home.HomeScenarios | src/components/Home/index.test.tsx:49-223 | the page's test cases: database port and default label, Firestore `N/A`, function logs link, storage label, and the hosting `https://` link |
| FunctionsEmulator.FunctionsEmulatorUrl | src/components/Extensions/api/internal/useFunctionsEmulator.tsx:18-21 | the URL splits back into the Extensions emulator's `useHttps` flag and its `hostAndPort` |
| FunctionsEmulator.UrlIgnoresOtherEmulators | src/components/Extensions/api/internal/useFunctionsEmulator.tsx:19 | the URL depends on the Extensions emulator's entry only |
| FunctionsEmulator.HttpsExactlyWithTls | src/components/Extensions/api/internal/useFunctionsEmulator.tsx:20 | the URL starts with `https://` exactly when the emulator uses TLS |
| FunctionsEmulator.FunctionsEmulatorScenario | src/components/Extensions/api/internal/useFunctionsEmulator.test.tsx:26-49 | the hook's test case gives `http://pirojok:689` |
| ImportDialog.DisableTriggers | src/components/Database/DataViewer/ImportDialog.tsx:61 | triggers run exactly when the functions emulator is running and the user asked for them |
| ImportDialog.SubmitEvents | src/components/Database/DataViewer/ImportDialog.tsx:55-69 | without a file nothing happens; with one, importing starts, the file is imported at the dialog's location with the trigger setting, `onComplete(reference, file)` is called exactly on success, the error message is set exactly on failure, and importing ends |
| ImportDialog.ImportDialogState.constructor | src/components/Database/DataViewer/ImportDialog.tsx:50-53 | the dialog opens with the dropped file, triggers off, not importing and without error |
| ImportDialog.ImportDialogState.Submit | src/components/Database/DataViewer/ImportDialog.tsx:55-69 | `onSubmit` performs exactly the effects above, ends not importing after an import, keeps a failure's message as the error, and leaves the file and the checkbox alone |
| ImportDialog.ImportDialogState.SelectFiles | src/components/Database/DataViewer/ImportDialog.tsx:94 | choosing files keeps the first one, or none for an empty choice |
| ImportDialog.ImportDialogState.SetExecuteFunctions | src/components/Database/DataViewer/ImportDialog.tsx:101-104 | the checkbox sets whether triggers should run |
| ImportDialog.ImportDialogState.Close | src/components/Database/DataViewer/ImportDialog.tsx:74 | closing calls `onComplete` without a location or a file |
| ImportDialog.ImportDialogState.FileFieldText | src/components/Database/DataViewer/ImportDialog.tsx:93 | the file field shows the file's name when it is non-empty, and the drop hint otherwise |
| EmailPassword.Validate | src/components/Auth/UserFormDialog/controls/EmailPassword.test.tsx:37-147 | definition: the set of errors the control reports, one rule per error kind; its properties are the lemmas below |
| SignInMethod.IsTouched | src/components/Auth/UserFormDialog/controls/SignInMethod.tsx:62 | definition: the email or the phone field was touched |
| SignInMethod.IsOnlyError | src/components/Auth/UserFormDialog/controls/SignInMethod.tsx:63-65 | definition: the at-least-one error is present and is the only entry; `TwoKeysMeansNotOnly` is about it |
| SignInMethod.MethodHeader | src/components/Auth/UserFormDialog/controls/SignInMethod.tsx:74-83 | definition: the alert when touched and it is the only error, the hint otherwise; `AlertExactlyWhenNoMethodAndNoOtherError` characterises it |
| UserForm.IsEditing | src/components/Auth/UserFormDialog/UserForm.tsx:55 | definition: a user is being edited exactly when one is given |
| EmulatorConfig.Scheme | src/components/Extensions/api/internal/useFunctionsEmulator.tsx:20 | definition: `https://` with TLS, `http://` without; `SplitSchemeOfScheme` is its inverse |
| AuthSagas.Step | src/store/auth/sagas.test.ts:54-453 | one `next`/`throw`: never changes the saga, the generator is done exactly when the call did not yield, only a thrown error escapes (with its message), and a finished generator stays unchanged |
| AuthSagas.OneCall | src/store/auth/sagas.test.ts:55-74 | the configure, call, put shape: keeps the saga, returns exactly when it finishes, never raises, and every call it yields is the given request |
| AuthSagas.Advance | src/store/auth/sagas.test.ts:54-453 | `next(v)` on a suspended saga: keeps the saga, returns exactly when it finishes, and never raises |
| Home.EmulatorCard | src/components/Home/index.tsx:138-183 | definition: one card's status, port, divider and links; `CardStatusAndPort` and `CardLinks` are about it |
| Home.Overview | src/components/Home/index.tsx:59-136 | definition: the callout and the eight cards; `OverviewCardsInOrder`, `LocalWarningExactlyWithProjectId` and `HostingCardLink` are about it |
| Home.Home | src/components/Home/index.tsx:48-55 | definition: spinner while loading, otherwise the overview of the configuration or of an empty one; `SpinnerExactlyWhileLoading` and `FailedLoadShowsAllOff` are about it |
| ImportDialog.FunctionsEmulatorRunning | src/components/Database/DataViewer/ImportDialog.tsx:49 | definition: the configuration has a functions emulator |
| ImportDialog.ShowsTriggerCheckbox | src/components/Database/DataViewer/ImportDialog.tsx:97-107 | definition: the trigger checkbox is offered exactly when the functions emulator runs |
| ImportDialog.ShowsSpinner | src/components/Database/DataViewer/ImportDialog.tsx:118 | definition: the spinner covers the dialog exactly while importing; the constructor and `Submit` state it is off when they finish |
| ImportDialog.HiddenCheckboxDisablesTriggers | src/components/Database/DataViewer/ImportDialog.tsx:61 | where the checkbox is not offered, an import runs with triggers disabled whatever `executeFunctions` holds |

## Left out

- Rendering, layout, icons, styles and routing: only the values that decide what is shown are modelled.
- react-hook-form itself is not modelled. Its field registration, `handleSubmit`'s per-field validation, `watch`, `reset`'s effect on fields and the `touchedFields` bookkeeping are inputs or effects here. `EmailPassword`'s `Validate` gives the errors the control reports without modelling how react-hook-form stores them.
- `PhoneControl`, `CustomAttributes` and `ImageUrlInput` validation, and the `hasError` callout of the user dialog, are not modelled. The model takes those fields' errors as part of the error map.
- The `EmailPassword` component's source is not part of this model. Its rules come from its tests. The email format and the minimum password length are parameters (`Rules`), constrained only by the tests' data. The short-password message is known only by its start.
- The Auth sagas' implementation file is not part of this model; each saga follows the effects its tests fix.
- The saga error path covers only `createUser`. The tests show it catches a throw at the `createUser` API call, reports the error and hides loading. That its `try` also covers the custom-attributes `updateUser` call and the reading of the new user's `localId` is an assumption no test fixes. The form of the error report is abstract (`ReportError`). In the other sagas a thrown error propagates out of the generator.
- AuthSagas.CreateUserKeepOpenTrace is an assumption: `keepDialogOpen` skips clearing the dialog data on success. No test fixes this (the keep-open test exercises the error path).
- The redux-saga runtime (taking actions, forking, the root saga), the store's reducers and redux `connect` are not modelled.
- Reading `localId` from a defined value that is not a user gives `undefined` (`LocalIdOf`). Reading it from `undefined` throws a `TypeError`, which `createUser` catches (`CreateUserUndefinedResultTrace`). The `TypeError`'s message is the V8 wording, and `null` results are not modelled.
- `storagePath`'s definition is not part of this model; it is the constant `/storage`.
- FunctionsEmulator.FunctionsEmulatorUrl requires an Extensions emulator entry, because `useEmulatorConfig('extensions')` throws without one. That throw is not modelled.
- The import dialog's `Data location` field (the URL path of the reference) is not modelled, because URL parsing is outside the model.
- ImportDialog.ImportDialogState.Submit treats the awaited import as one atomic step (the outcome is a parameter). Renders in between, an error thrown by `onComplete`, and a second submit while importing are not modelled.
- `api.importFile` and the database reference are not modelled; they are opaque values.
