/**
 * The auth store's sagas: resumable generators that yield effects
 * (configure the API, put store actions, call the API) one at a time and
 * are resumed with the effect's result, or with an error thrown into them.
 *
 * `Step` is the generator protocol: `gen.next(v)` and `gen.throw(e)` on a
 * suspended generator give the next yielded effect, a return, or the
 * error raised out of it. `SagaGenerator` is the generator object, whose
 * position advances with every call.
 */
module AuthSagas {
  import opened Js
  import opened AuthTypes

  /** The saga context entry that holds the auth API. */
  datatype ContextKey = AuthApiContext

  /** The object an update call sends: its `localId`, the user fields it
      spreads in, and `disableUser`. Absent fields are left out of the object. */
  datatype UserPatch = UserPatch(localId: Option<string>, fields: UserPayload, disableUser: Option<bool>)

  /** A method of the auth API with its arguments. */
  datatype ApiRequest =
    | FetchUsers
    | CreateUserCall(user: UserPayload)
    | UpdateUserCall(patch: UserPatch)
    | DeleteUserCall(localId: string)
    | NukeUsersCall
    | UpdateConfig(allowDuplicateEmails: bool)
    | GetConfig

  /** The effects a saga yields. `ReportError` is the effect `createUser`
      yields after its API call threw; only its place in the sequence is known. */
  datatype Effect =
    | CallConfigureAuthSaga
    | GetContext(key: ContextKey)
    | SetContext(key: ContextKey, config: AuthConfig)
    | Call(api: Value, request: ApiRequest)
    | Put(action: AuthAction)
    | All(effects: seq<Effect>)
    | ReportError(message: string)

  /** A saga together with the action (or nothing) it was started with. */
  datatype Saga =
    | ConfigureAuth
    | FetchAuthUsers
    | CreateUser(user: UserPayload, keepDialogOpen: Option<bool>)
    | InitAuth(config: Option<AuthConfig>)
    | DeleteUser(deleteId: string)
    | UpdateUser(update: UserPayload, updateId: string)
    | SetUserDisabled(disableId: string, disabled: bool)
    | NukeUsers
    | SetAllowDuplicateEmails(allow: bool)
    | GetAllowDuplicateEmails

  /** `gen.next(value)` or `gen.throw(new Error(message))`. */
  datatype Resume = ResumeWith(value: Value) | ThrowIn(message: string)

  /** `{done: false, value: effect}`, `{done: true, value}`, or the error
      that escapes the generator. */
  datatype IterResult = Yield(effect: Effect) | Return(value: Value) | Raised(message: string)

  /** A generator's position: 0 before the first `next`, k while suspended at
      its k-th `yield`; `api` is the API the saga was configured with. */
  datatype GenState = GenState(saga: Saga, pc: nat, api: Value, done: bool)

  function Start(saga: Saga): GenState {
    GenState(saga, 0, Undefined, false)
  }

  function YieldAt(g: GenState, pc: nat, e: Effect): (GenState, IterResult) {
    (g.(pc := pc), Yield(e))
  }

  function Finish(g: GenState, v: Value): (GenState, IterResult) {
    (g.(done := true), Return(v))
  }

  /** The `TypeError` that reading `localId` from `undefined` throws; only
      its message reaches the error effect. */
  const LOCAL_ID_OF_UNDEFINED := "Cannot read properties of undefined (reading 'localId')"

  /** `createUser` catches what its two API calls throw. */
  predicate InsideTry(g: GenState) {
    g.saga.CreateUser? && (g.pc == 3 || g.pc == 4)
  }

  /** One call of `next` or `throw`. A step never changes which saga runs;
      the generator is done exactly when the call did not yield; only a
      thrown error escapes it; and a finished generator stays as it is. */
  function Step(g: GenState, r: Resume): (next: (GenState, IterResult))
    ensures next.0.saga == g.saga
    ensures next.0.done <==> !next.1.Yield?
    ensures next.1.Raised? ==> r.ThrowIn? && next.1.message == r.message
    ensures g.done ==> next.0 == g
  {
    if g.done then
      (g, if r.ThrowIn? then Raised(r.message) else Return(Undefined))
    else if r.ThrowIn? then
      if InsideTry(g) then YieldAt(g, 8, ReportError(r.message))
      else (g.(done := true), Raised(r.message))
    else
      Advance(g, r.value)
  }

  /** The saga shape `api = yield call(configureAuthSaga); result = yield
      call(api.method); yield put(success)`. */
  function OneCall(g: GenState, v: Value, request: ApiRequest, success: AuthAction): (next: (GenState, IterResult))
    requires !g.done
    ensures next.0.saga == g.saga && (next.0.done <==> next.1.Return?) && !next.1.Raised?
    ensures next.1.Yield? && next.1.effect.Call? ==> next.1.effect.request == request
  {
    if g.pc == 0 then YieldAt(g, 1, CallConfigureAuthSaga)
    else if g.pc == 1 then YieldAt(g.(api := v), 2, Call(v, request))
    else if g.pc == 2 then YieldAt(g, 3, Put(success))
    else Finish(g, Undefined)
  }

  /** `next(v)` on a suspended generator. */
  function Advance(g: GenState, v: Value): (next: (GenState, IterResult))
    requires !g.done
    ensures next.0.saga == g.saga && (next.0.done <==> next.1.Return?) && !next.1.Raised?
  {
    match g.saga
    case ConfigureAuth =>
      if g.pc == 0 then YieldAt(g, 1, GetContext(AuthApiContext)) else Finish(g, v)
    case FetchAuthUsers =>
      OneCall(g, v, FetchUsers, AuthFetchUsersSuccess(v))
    case CreateUser(user, keepDialogOpen) =>
      if g.pc == 0 then YieldAt(g, 1, CallConfigureAuthSaga)
      else if g.pc == 1 then YieldAt(g.(api := v), 2, Put(SetAuthUserDialogLoading(true)))
      else if g.pc == 2 then YieldAt(g, 3, Call(g.api, CreateUserCall(user)))
      else if g.pc == 3 && Truthy(user.customAttributes) && v.Undefined? then
        YieldAt(g, 8, ReportError(LOCAL_ID_OF_UNDEFINED))
      else if g.pc == 3 && Truthy(user.customAttributes) then
        YieldAt(g, 4, Call(g.api, UpdateUserCall(UserPatch(LocalIdOf(v), NoFields.(customAttributes := user.customAttributes), None))))
      else if g.pc == 3 || g.pc == 4 then YieldAt(g, 5, Put(CreateUserSuccess(v)))
      else if g.pc == 5 && keepDialogOpen != Some(true) then YieldAt(g, 6, Put(ClearAuthUserDialogData))
      else if g.pc == 5 || g.pc == 6 || g.pc == 8 then YieldAt(g, 7, Put(SetAuthUserDialogLoading(false)))
      else Finish(g, Undefined)
    case InitAuth(config) =>
      if g.pc == 0 then
        if config.None? then Finish(g, Undefined) else YieldAt(g, 1, SetContext(AuthApiContext, config.value))
      else if g.pc == 1 then YieldAt(g, 2, All([Put(AuthFetchUsersRequest), Put(GetAllowDuplicateEmailsRequest)]))
      else Finish(g, Undefined)
    case DeleteUser(localId) =>
      OneCall(g, v, DeleteUserCall(localId), DeleteUserSuccess(localId))
    case UpdateUser(update, localId) =>
      if g.pc == 0 then YieldAt(g, 1, CallConfigureAuthSaga)
      else if g.pc == 1 then YieldAt(g.(api := v), 2, Put(SetAuthUserDialogLoading(true)))
      else if g.pc == 2 then YieldAt(g, 3, Call(g.api, UpdateUserCall(UserPatch(Some(localId), update, None))))
      else if g.pc == 3 then YieldAt(g, 4, Put(UpdateUserSuccess(v)))
      else if g.pc == 4 then YieldAt(g, 5, Put(ClearAuthUserDialogData))
      else if g.pc == 5 then YieldAt(g, 6, Put(SetAuthUserDialogLoading(false)))
      else Finish(g, Undefined)
    case SetUserDisabled(localId, disabled) =>
      OneCall(g, v, UpdateUserCall(UserPatch(Some(localId), NoFields, Some(disabled))), SetUserDisabledSuccess(localId, disabled))
    case NukeUsers =>
      OneCall(g, v, NukeUsersCall, NukeUsersSuccess)
    case SetAllowDuplicateEmails(allow) =>
      OneCall(g, v, UpdateConfig(allow), SetAllowDuplicateEmailsSuccess(Flag(allow)))
    case GetAllowDuplicateEmails =>
      OneCall(g, v, GetConfig, SetAllowDuplicateEmailsSuccess(v))
  }

  /** What a sequence of `next`/`throw` calls gives, one result per call. */
  function Run(g: GenState, inputs: seq<Resume>): (ys: seq<IterResult>)
    ensures |ys| == |inputs|
    decreases |inputs|
  {
    if inputs == [] then [] else [Step(g, inputs[0]).1] + Run(Step(g, inputs[0]).0, inputs[1..])
  }

  /** The generator object returned by calling a saga. */
  class SagaGenerator {
    const saga: Saga
    var pc: nat
    var api: Value
    var done: bool

    function State(): GenState
      reads this
    {
      GenState(saga, pc, api, done)
    }

    constructor (s: Saga)
      ensures State() == Start(s)
    {
      saga := s;
      pc := 0;
      api := Undefined;
      done := false;
    }

    /** `gen.next(v)`. */
    method Next(v: Value) returns (y: IterResult)
      modifies this
      ensures (State(), y) == Step(old(State()), ResumeWith(v))
    {
      var next := Step(State(), ResumeWith(v));
      pc, api, done := next.0.pc, next.0.api, next.0.done;
      y := next.1;
    }

    /** `gen.throw(new Error(message))`. */
    method Throw(message: string) returns (y: IterResult)
      modifies this
      ensures (State(), y) == Step(old(State()), ThrowIn(message))
    {
      var next := Step(State(), ThrowIn(message));
      pc, api, done := next.0.pc, next.0.api, next.0.done;
      y := next.1;
    }
  }

  /** `Run` one call at a time. */
  lemma RunCons(g: GenState, r: Resume, rest: seq<Resume>)
    ensures Run(g, [r] + rest) == [Step(g, r).1] + Run(Step(g, r).0, rest)
  {
    assert ([r] + rest)[1..] == rest;
  }

  /** Every saga that works on users first yields `call(configureAuthSaga)`. */
  predicate IsUserSaga(s: Saga) {
    !s.ConfigureAuth? && !s.InitAuth?
  }

  lemma UserSagasStartWithConfigure(s: Saga, v: Value)
    requires IsUserSaga(s)
    ensures Step(Start(s), ResumeWith(v)) == (Start(s).(pc := 1), Yield(CallConfigureAuthSaga))
  {
  }

  /** `configureAuthSaga` yields `getContext(AUTH_API_CONTEXT)` and returns
      what it is resumed with. */
  lemma ConfigureAuthReturnsApi(v0: Value, api: Value)
    ensures Run(Start(ConfigureAuth), [ResumeWith(v0), ResumeWith(api)])
         == [Yield(GetContext(AuthApiContext)), Return(api)]
  {
    var g0 := Start(ConfigureAuth);
    var g1 := Step(g0, ResumeWith(v0)).0;
    RunCons(g1, ResumeWith(api), []);
    RunCons(g0, ResumeWith(v0), [ResumeWith(api)]);
  }

  lemma FetchAuthUsersTrace(v0: Value, api: Value, users: Value, v3: Value)
    ensures Run(Start(FetchAuthUsers), [ResumeWith(v0), ResumeWith(api), ResumeWith(users), ResumeWith(v3)])
         == [Yield(CallConfigureAuthSaga), Yield(Call(api, FetchUsers)), Yield(Put(AuthFetchUsersSuccess(users))), Return(Undefined)]
  {
    var g0 := Start(FetchAuthUsers);
    var g1 := Step(g0, ResumeWith(v0)).0;
    var g2 := Step(g1, ResumeWith(api)).0;
    var g3 := Step(g2, ResumeWith(users)).0;
    RunCons(g3, ResumeWith(v3), []);
    RunCons(g2, ResumeWith(users), [ResumeWith(v3)]);
    RunCons(g1, ResumeWith(api), [ResumeWith(users), ResumeWith(v3)]);
    RunCons(g0, ResumeWith(v0), [ResumeWith(api), ResumeWith(users), ResumeWith(v3)]);
  }

  /** `createUser` without custom attributes: loading on, create, success,
      close the dialog, loading off. */
  lemma CreateUserTrace(user: UserPayload, api: Value, created: Value, v0: Value, v2: Value, v4: Value, v5: Value, v6: Value)
    requires !Truthy(user.customAttributes)
    ensures Run(Start(CreateUser(user, None)),
                [ResumeWith(v0), ResumeWith(api), ResumeWith(v2), ResumeWith(created), ResumeWith(v4), ResumeWith(v5), ResumeWith(v6)])
         == [Yield(CallConfigureAuthSaga),
             Yield(Put(SetAuthUserDialogLoading(true))),
             Yield(Call(api, CreateUserCall(user))),
             Yield(Put(CreateUserSuccess(created))),
             Yield(Put(ClearAuthUserDialogData)),
             Yield(Put(SetAuthUserDialogLoading(false))),
             Return(Undefined)]
  {
    var g0 := Start(CreateUser(user, None));
    var g1 := Step(g0, ResumeWith(v0)).0;
    var g2 := Step(g1, ResumeWith(api)).0;
    var g3 := Step(g2, ResumeWith(v2)).0;
    var g4 := Step(g3, ResumeWith(created)).0;
    var g5 := Step(g4, ResumeWith(v4)).0;
    var g6 := Step(g5, ResumeWith(v5)).0;
    RunCons(g6, ResumeWith(v6), []);
    RunCons(g5, ResumeWith(v5), [ResumeWith(v6)]);
    RunCons(g4, ResumeWith(v4), [ResumeWith(v5), ResumeWith(v6)]);
    RunCons(g3, ResumeWith(created), [ResumeWith(v4), ResumeWith(v5), ResumeWith(v6)]);
    RunCons(g2, ResumeWith(v2), [ResumeWith(created), ResumeWith(v4), ResumeWith(v5), ResumeWith(v6)]);
    RunCons(g1, ResumeWith(api), [ResumeWith(v2), ResumeWith(created), ResumeWith(v4), ResumeWith(v5), ResumeWith(v6)]);
    RunCons(g0, ResumeWith(v0), [ResumeWith(api), ResumeWith(v2), ResumeWith(created), ResumeWith(v4), ResumeWith(v5), ResumeWith(v6)]);
  }

  /** `createUser` with custom attributes sets them on the new user with a
      second call, and reports the user that call returns. */
  lemma CreateUserWithCustomAttributesTrace(
    user: UserPayload, api: Value, created: Value, updated: Value, v0: Value, v2: Value, v5: Value, v6: Value, v7: Value)
    requires Truthy(user.customAttributes) && !created.Undefined?
    ensures Run(Start(CreateUser(user, None)),
                [ResumeWith(v0), ResumeWith(api), ResumeWith(v2), ResumeWith(created), ResumeWith(updated),
                 ResumeWith(v5), ResumeWith(v6), ResumeWith(v7)])
         == [Yield(CallConfigureAuthSaga),
             Yield(Put(SetAuthUserDialogLoading(true))),
             Yield(Call(api, CreateUserCall(user))),
             Yield(Call(api, UpdateUserCall(UserPatch(LocalIdOf(created), NoFields.(customAttributes := user.customAttributes), None)))),
             Yield(Put(CreateUserSuccess(updated))),
             Yield(Put(ClearAuthUserDialogData)),
             Yield(Put(SetAuthUserDialogLoading(false))),
             Return(Undefined)]
  {
    var g0 := Start(CreateUser(user, None));
    var g1 := Step(g0, ResumeWith(v0)).0;
    var g2 := Step(g1, ResumeWith(api)).0;
    var g3 := Step(g2, ResumeWith(v2)).0;
    var g4 := Step(g3, ResumeWith(created)).0;
    var g5 := Step(g4, ResumeWith(updated)).0;
    var g6 := Step(g5, ResumeWith(v5)).0;
    var g7 := Step(g6, ResumeWith(v6)).0;
    RunCons(g7, ResumeWith(v7), []);
    RunCons(g6, ResumeWith(v6), [ResumeWith(v7)]);
    RunCons(g5, ResumeWith(v5), [ResumeWith(v6), ResumeWith(v7)]);
    RunCons(g4, ResumeWith(updated), [ResumeWith(v5), ResumeWith(v6), ResumeWith(v7)]);
    RunCons(g3, ResumeWith(created), [ResumeWith(updated), ResumeWith(v5), ResumeWith(v6), ResumeWith(v7)]);
    RunCons(g2, ResumeWith(v2), [ResumeWith(created), ResumeWith(updated), ResumeWith(v5), ResumeWith(v6), ResumeWith(v7)]);
    RunCons(g1, ResumeWith(api), [ResumeWith(v2), ResumeWith(created), ResumeWith(updated), ResumeWith(v5), ResumeWith(v6), ResumeWith(v7)]);
    RunCons(g0, ResumeWith(v0), [ResumeWith(api), ResumeWith(v2), ResumeWith(created), ResumeWith(updated), ResumeWith(v5), ResumeWith(v6), ResumeWith(v7)]);
  }

  /** When the create call gives `undefined` and there are custom attributes,
      reading the new user's `localId` throws inside the `try`: the error is
      reported, loading is turned off and the saga finishes. */
  lemma CreateUserUndefinedResultTrace(user: UserPayload, keepDialogOpen: Option<bool>, api: Value, v0: Value, v2: Value, v4: Value, v5: Value)
    requires Truthy(user.customAttributes)
    ensures Run(Start(CreateUser(user, keepDialogOpen)),
                [ResumeWith(v0), ResumeWith(api), ResumeWith(v2), ResumeWith(Undefined), ResumeWith(v4), ResumeWith(v5)])
         == [Yield(CallConfigureAuthSaga),
             Yield(Put(SetAuthUserDialogLoading(true))),
             Yield(Call(api, CreateUserCall(user))),
             Yield(ReportError(LOCAL_ID_OF_UNDEFINED)),
             Yield(Put(SetAuthUserDialogLoading(false))),
             Return(Undefined)]
  {
    var g0 := Start(CreateUser(user, keepDialogOpen));
    var g1 := Step(g0, ResumeWith(v0)).0;
    var g2 := Step(g1, ResumeWith(api)).0;
    var g3 := Step(g2, ResumeWith(v2)).0;
    var g4 := Step(g3, ResumeWith(Undefined)).0;
    var g5 := Step(g4, ResumeWith(v4)).0;
    RunCons(g5, ResumeWith(v5), []);
    RunCons(g4, ResumeWith(v4), [ResumeWith(v5)]);
    RunCons(g3, ResumeWith(Undefined), [ResumeWith(v4), ResumeWith(v5)]);
    RunCons(g2, ResumeWith(v2), [ResumeWith(Undefined), ResumeWith(v4), ResumeWith(v5)]);
    RunCons(g1, ResumeWith(api), [ResumeWith(v2), ResumeWith(Undefined), ResumeWith(v4), ResumeWith(v5)]);
    RunCons(g0, ResumeWith(v0), [ResumeWith(api), ResumeWith(v2), ResumeWith(Undefined), ResumeWith(v4), ResumeWith(v5)]);
  }

  /** When the create call throws, `createUser` yields one error effect,
      turns loading off and finishes, whether or not the dialog is to be kept open. */
  lemma CreateUserErrorTrace(user: UserPayload, keepDialogOpen: Option<bool>, api: Value, message: string, v0: Value, v2: Value, v4: Value, v5: Value)
    ensures Run(Start(CreateUser(user, keepDialogOpen)),
                [ResumeWith(v0), ResumeWith(api), ResumeWith(v2), ThrowIn(message), ResumeWith(v4), ResumeWith(v5)])
         == [Yield(CallConfigureAuthSaga),
             Yield(Put(SetAuthUserDialogLoading(true))),
             Yield(Call(api, CreateUserCall(user))),
             Yield(ReportError(message)),
             Yield(Put(SetAuthUserDialogLoading(false))),
             Return(Undefined)]
  {
    var g0 := Start(CreateUser(user, keepDialogOpen));
    var g1 := Step(g0, ResumeWith(v0)).0;
    var g2 := Step(g1, ResumeWith(api)).0;
    var g3 := Step(g2, ResumeWith(v2)).0;
    var g4 := Step(g3, ThrowIn(message)).0;
    var g5 := Step(g4, ResumeWith(v4)).0;
    RunCons(g5, ResumeWith(v5), []);
    RunCons(g4, ResumeWith(v4), [ResumeWith(v5)]);
    RunCons(g3, ThrowIn(message), [ResumeWith(v4), ResumeWith(v5)]);
    RunCons(g2, ResumeWith(v2), [ThrowIn(message), ResumeWith(v4), ResumeWith(v5)]);
    RunCons(g1, ResumeWith(api), [ResumeWith(v2), ThrowIn(message), ResumeWith(v4), ResumeWith(v5)]);
    RunCons(g0, ResumeWith(v0), [ResumeWith(api), ResumeWith(v2), ThrowIn(message), ResumeWith(v4), ResumeWith(v5)]);
  }

  /** "Save and create another": on success the dialog is not cleared. */
  lemma CreateUserKeepOpenTrace(user: UserPayload, api: Value, created: Value, v0: Value, v2: Value, v4: Value, v5: Value)
    requires !Truthy(user.customAttributes)
    ensures Run(Start(CreateUser(user, Some(true))),
                [ResumeWith(v0), ResumeWith(api), ResumeWith(v2), ResumeWith(created), ResumeWith(v4), ResumeWith(v5)])
         == [Yield(CallConfigureAuthSaga),
             Yield(Put(SetAuthUserDialogLoading(true))),
             Yield(Call(api, CreateUserCall(user))),
             Yield(Put(CreateUserSuccess(created))),
             Yield(Put(SetAuthUserDialogLoading(false))),
             Return(Undefined)]
  {
    var g0 := Start(CreateUser(user, Some(true)));
    var g1 := Step(g0, ResumeWith(v0)).0;
    var g2 := Step(g1, ResumeWith(api)).0;
    var g3 := Step(g2, ResumeWith(v2)).0;
    var g4 := Step(g3, ResumeWith(created)).0;
    var g5 := Step(g4, ResumeWith(v4)).0;
    RunCons(g5, ResumeWith(v5), []);
    RunCons(g4, ResumeWith(v4), [ResumeWith(v5)]);
    RunCons(g3, ResumeWith(created), [ResumeWith(v4), ResumeWith(v5)]);
    RunCons(g2, ResumeWith(v2), [ResumeWith(created), ResumeWith(v4), ResumeWith(v5)]);
    RunCons(g1, ResumeWith(api), [ResumeWith(v2), ResumeWith(created), ResumeWith(v4), ResumeWith(v5)]);
    RunCons(g0, ResumeWith(v0), [ResumeWith(api), ResumeWith(v2), ResumeWith(created), ResumeWith(v4), ResumeWith(v5)]);
  }

  /** `initAuth` with auth disabled finishes at once. */
  lemma InitAuthDisabledTrace(v0: Value)
    ensures Run(Start(InitAuth(None)), [ResumeWith(v0)]) == [Return(Undefined)]
  {
    RunCons(Start(InitAuth(None)), ResumeWith(v0), []);
  }

  /** `initAuth` with auth enabled installs the API for the configuration,
      then requests the users and the duplicate-email setting in one `all`. */
  lemma InitAuthEnabledTrace(config: AuthConfig, v0: Value, v1: Value, v2: Value)
    ensures var ys := Run(Start(InitAuth(Some(config))), [ResumeWith(v0), ResumeWith(v1), ResumeWith(v2)]);
      && ys[0] == Yield(SetContext(AuthApiContext, config))
      && ys[1].Yield? && ys[1].effect.All?
      && Put(AuthFetchUsersRequest) in ys[1].effect.effects
      && Put(GetAllowDuplicateEmailsRequest) in ys[1].effect.effects
      && |ys[1].effect.effects| == 2
      && ys[2] == Return(Undefined)
  {
    var g0 := Start(InitAuth(Some(config)));
    var g1 := Step(g0, ResumeWith(v0)).0;
    var g2 := Step(g1, ResumeWith(v1)).0;
    RunCons(g2, ResumeWith(v2), []);
    RunCons(g1, ResumeWith(v1), [ResumeWith(v2)]);
    RunCons(g0, ResumeWith(v0), [ResumeWith(v1), ResumeWith(v2)]);
  }

  lemma DeleteUserTrace(localId: string, api: Value, result: Value, v0: Value, v3: Value)
    ensures Run(Start(DeleteUser(localId)), [ResumeWith(v0), ResumeWith(api), ResumeWith(result), ResumeWith(v3)])
         == [Yield(CallConfigureAuthSaga), Yield(Call(api, DeleteUserCall(localId))), Yield(Put(DeleteUserSuccess(localId))), Return(Undefined)]
  {
    var g0 := Start(DeleteUser(localId));
    var g1 := Step(g0, ResumeWith(v0)).0;
    var g2 := Step(g1, ResumeWith(api)).0;
    var g3 := Step(g2, ResumeWith(result)).0;
    RunCons(g3, ResumeWith(v3), []);
    RunCons(g2, ResumeWith(result), [ResumeWith(v3)]);
    RunCons(g1, ResumeWith(api), [ResumeWith(result), ResumeWith(v3)]);
    RunCons(g0, ResumeWith(v0), [ResumeWith(api), ResumeWith(result), ResumeWith(v3)]);
  }

  /** `updateUser` sends the user's fields with its `localId`, between
      loading on and loading off, and closes the dialog. */
  lemma UpdateUserTrace(update: UserPayload, localId: string, api: Value, updated: Value, v0: Value, v2: Value, v4: Value, v5: Value, v6: Value)
    ensures Run(Start(UpdateUser(update, localId)),
                [ResumeWith(v0), ResumeWith(api), ResumeWith(v2), ResumeWith(updated), ResumeWith(v4), ResumeWith(v5), ResumeWith(v6)])
         == [Yield(CallConfigureAuthSaga),
             Yield(Put(SetAuthUserDialogLoading(true))),
             Yield(Call(api, UpdateUserCall(UserPatch(Some(localId), update, None)))),
             Yield(Put(UpdateUserSuccess(updated))),
             Yield(Put(ClearAuthUserDialogData)),
             Yield(Put(SetAuthUserDialogLoading(false))),
             Return(Undefined)]
  {
    var g0 := Start(UpdateUser(update, localId));
    var g1 := Step(g0, ResumeWith(v0)).0;
    var g2 := Step(g1, ResumeWith(api)).0;
    var g3 := Step(g2, ResumeWith(v2)).0;
    var g4 := Step(g3, ResumeWith(updated)).0;
    var g5 := Step(g4, ResumeWith(v4)).0;
    var g6 := Step(g5, ResumeWith(v5)).0;
    RunCons(g6, ResumeWith(v6), []);
    RunCons(g5, ResumeWith(v5), [ResumeWith(v6)]);
    RunCons(g4, ResumeWith(v4), [ResumeWith(v5), ResumeWith(v6)]);
    RunCons(g3, ResumeWith(updated), [ResumeWith(v4), ResumeWith(v5), ResumeWith(v6)]);
    RunCons(g2, ResumeWith(v2), [ResumeWith(updated), ResumeWith(v4), ResumeWith(v5), ResumeWith(v6)]);
    RunCons(g1, ResumeWith(api), [ResumeWith(v2), ResumeWith(updated), ResumeWith(v4), ResumeWith(v5), ResumeWith(v6)]);
    RunCons(g0, ResumeWith(v0), [ResumeWith(api), ResumeWith(v2), ResumeWith(updated), ResumeWith(v4), ResumeWith(v5), ResumeWith(v6)]);
  }

  /** `setUserDisabled` sends `disabled` as the API's `disableUser` field and
      reports the request's payload unchanged. */
  lemma SetUserDisabledTrace(localId: string, disabled: bool, api: Value, v0: Value, v2: Value, v3: Value)
    ensures Run(Start(SetUserDisabled(localId, disabled)), [ResumeWith(v0), ResumeWith(api), ResumeWith(v2), ResumeWith(v3)])
         == [Yield(CallConfigureAuthSaga),
             Yield(Call(api, UpdateUserCall(UserPatch(Some(localId), NoFields, Some(disabled))))),
             Yield(Put(SetUserDisabledSuccess(localId, disabled))),
             Return(Undefined)]
  {
    var g0 := Start(SetUserDisabled(localId, disabled));
    var g1 := Step(g0, ResumeWith(v0)).0;
    var g2 := Step(g1, ResumeWith(api)).0;
    var g3 := Step(g2, ResumeWith(v2)).0;
    RunCons(g3, ResumeWith(v3), []);
    RunCons(g2, ResumeWith(v2), [ResumeWith(v3)]);
    RunCons(g1, ResumeWith(api), [ResumeWith(v2), ResumeWith(v3)]);
    RunCons(g0, ResumeWith(v0), [ResumeWith(api), ResumeWith(v2), ResumeWith(v3)]);
  }

  lemma NukeUsersTrace(api: Value, v0: Value, v2: Value, v3: Value)
    ensures Run(Start(NukeUsers), [ResumeWith(v0), ResumeWith(api), ResumeWith(v2), ResumeWith(v3)])
         == [Yield(CallConfigureAuthSaga), Yield(Call(api, NukeUsersCall)), Yield(Put(NukeUsersSuccess)), Return(Undefined)]
  {
    var g0 := Start(NukeUsers);
    var g1 := Step(g0, ResumeWith(v0)).0;
    var g2 := Step(g1, ResumeWith(api)).0;
    var g3 := Step(g2, ResumeWith(v2)).0;
    RunCons(g3, ResumeWith(v3), []);
    RunCons(g2, ResumeWith(v2), [ResumeWith(v3)]);
    RunCons(g1, ResumeWith(api), [ResumeWith(v2), ResumeWith(v3)]);
    RunCons(g0, ResumeWith(v0), [ResumeWith(api), ResumeWith(v2), ResumeWith(v3)]);
  }

  /** The flag goes to the API unchanged, and on to the success action. */
  lemma SetAllowDuplicateEmailsTrace(allow: bool, api: Value, v0: Value, v2: Value)
    ensures Run(Start(SetAllowDuplicateEmails(allow)), [ResumeWith(v0), ResumeWith(api), ResumeWith(v2)])
         == [Yield(CallConfigureAuthSaga), Yield(Call(api, UpdateConfig(allow))), Yield(Put(SetAllowDuplicateEmailsSuccess(Flag(allow))))]
  {
    var g0 := Start(SetAllowDuplicateEmails(allow));
    var g1 := Step(g0, ResumeWith(v0)).0;
    var g2 := Step(g1, ResumeWith(api)).0;
    RunCons(g2, ResumeWith(v2), []);
    RunCons(g1, ResumeWith(api), [ResumeWith(v2)]);
    RunCons(g0, ResumeWith(v0), [ResumeWith(api), ResumeWith(v2)]);
  }

  /** The flag the API returns goes to the success action unchanged. */
  lemma GetAllowDuplicateEmailsTrace(allow: bool, api: Value, v0: Value)
    ensures Run(Start(GetAllowDuplicateEmails), [ResumeWith(v0), ResumeWith(api), ResumeWith(Flag(allow))])
         == [Yield(CallConfigureAuthSaga), Yield(Call(api, GetConfig)), Yield(Put(SetAllowDuplicateEmailsSuccess(Flag(allow))))]
  {
    var g0 := Start(GetAllowDuplicateEmails);
    var g1 := Step(g0, ResumeWith(v0)).0;
    var g2 := Step(g1, ResumeWith(api)).0;
    RunCons(g2, ResumeWith(Flag(allow)), []);
    RunCons(g1, ResumeWith(api), [ResumeWith(Flag(allow))]);
    RunCons(g0, ResumeWith(v0), [ResumeWith(api), ResumeWith(Flag(allow))]);
  }

  // ---------------------------------------------------------------------
  // Every API call goes to the API that configureAuthSaga handed back.

  /** From here on the saga's API no longer changes. */
  predicate ApiFixed(g: GenState) {
    g.done || g.pc >= 2 || !IsUserSaga(g.saga)
  }

  lemma StepKeepsApi(g: GenState, r: Resume)
    requires ApiFixed(g)
    ensures var (g', y) := Step(g, r);
      && ApiFixed(g') && g'.api == g.api && g'.saga == g.saga && (g.done ==> g'.done)
      && (y.Yield? && y.effect.Call? ==> y.effect.api == g.api && !g.done && IsUserSaga(g.saga))
  {
  }

  lemma {:induction false} CallsUseFixedApi(g: GenState, inputs: seq<Resume>)
    requires ApiFixed(g)
    ensures var ys := Run(g, inputs);
      forall i :: 0 <= i < |ys| && ys[i].Yield? && ys[i].effect.Call? ==>
        ys[i].effect.api == g.api && !g.done && IsUserSaga(g.saga)
    decreases |inputs|
  {
    if inputs != [] {
      var (g', y) := Step(g, inputs[0]);
      var ys := Run(g, inputs);
      assert ys[0] == y && ys[1..] == Run(g', inputs[1..]);
      StepKeepsApi(g, inputs[0]);
      CallsUseFixedApi(g', inputs[1..]);
      forall i | 0 <= i < |ys| && ys[i].Yield? && ys[i].effect.Call?
        ensures ys[i].effect.api == g.api && !g.done && IsUserSaga(g.saga)
      {
        if i > 0 {
          assert ys[i] == Run(g', inputs[1..])[i - 1];
        }
      }
    }
  }

  /** Whatever a saga is resumed with, every API call it yields is made on
      the value its `call(configureAuthSaga)` was resumed with. */
  lemma {:induction false} ApiCallsGoToConfiguredApi(s: Saga, inputs: seq<Resume>)
    ensures var ys := Run(Start(s), inputs);
      forall i :: 0 <= i < |ys| && ys[i].Yield? && ys[i].effect.Call? ==>
        1 <= i && inputs[1] == ResumeWith(ys[i].effect.api)
  {
    var ys := Run(Start(s), inputs);
    if |inputs| >= 2 {
      var g0 := Start(s);
      var g1 := Step(g0, inputs[0]).0;
      var g2 := Step(g1, inputs[1]).0;
      RunCons(g0, inputs[0], inputs[1..]);
      assert inputs == [inputs[0]] + inputs[1..];
      assert inputs[1..] == [inputs[1]] + inputs[2..];
      RunCons(g1, inputs[1], inputs[2..]);
      assert ys == [Step(g0, inputs[0]).1, Step(g1, inputs[1]).1] + Run(g2, inputs[2..]);
      assert ApiFixed(g2);
      CallsUseFixedApi(g2, inputs[2..]);
      assert !g2.done && IsUserSaga(s) ==> inputs[1] == ResumeWith(g2.api);
    } else if |inputs| == 1 {
      RunCons(Start(s), inputs[0], []);
      assert inputs == [inputs[0]];
    }
  }

  // ---------------------------------------------------------------------
  // createUser turns the dialog's loading on and off once and reports one outcome.

  const LoadingOn := Yield(Put(SetAuthUserDialogLoading(true)))
  const LoadingOff := Yield(Put(SetAuthUserDialogLoading(false)))

  function Occurrences(ys: seq<IterResult>, y: IterResult): nat {
    if ys == [] then 0 else (if ys[0] == y then 1 else 0) + Occurrences(ys[1..], y)
  }

  /** The success action or the error effect of `createUser`. */
  predicate IsOutcome(y: IterResult) {
    y.Yield? && ((y.effect.Put? && y.effect.action.CreateUserSuccess?) || y.effect.ReportError?)
  }

  function Outcomes(ys: seq<IterResult>): nat {
    if ys == [] then 0 else (if IsOutcome(ys[0]) then 1 else 0) + Outcomes(ys[1..])
  }

  /** The generator finished normally at some point of the run. */
  predicate Returns(ys: seq<IterResult>) {
    ys != [] && (ys[0].Return? || Returns(ys[1..]))
  }

  /** No error escaped the generator during the run. */
  predicate NoneRaised(ys: seq<IterResult>) {
    ys == [] || (!ys[0].Raised? && NoneRaised(ys[1..]))
  }

  /** What is still to come from a `createUser` generator in this state. */
  function LoadingOnPending(g: GenState): nat {
    if !g.done && g.pc <= 1 then 1 else 0
  }

  function OutcomePending(g: GenState): nat {
    if !g.done && g.pc <= 4 then 1 else 0
  }

  function LoadingOffPending(g: GenState): nat {
    if !g.done && (g.pc <= 6 || g.pc == 8) then 1 else 0
  }

  lemma {:induction false} FinishedRunYieldsNothing(g: GenState, inputs: seq<Resume>)
    requires g.done
    ensures var ys := Run(g, inputs);
      Occurrences(ys, LoadingOn) == 0 && Occurrences(ys, LoadingOff) == 0 && Outcomes(ys) == 0
    decreases |inputs|
  {
    if inputs != [] {
      FinishedRunYieldsNothing(Step(g, inputs[0]).0, inputs[1..]);
    }
  }

  lemma {:induction false} CreateUserSettles(g: GenState, inputs: seq<Resume>)
    requires g.saga.CreateUser?
    requires Returns(Run(g, inputs)) && NoneRaised(Run(g, inputs))
    ensures var ys := Run(g, inputs);
      && Occurrences(ys, LoadingOn) == LoadingOnPending(g)
      && Occurrences(ys, LoadingOff) == LoadingOffPending(g)
      && Outcomes(ys) == OutcomePending(g)
    decreases |inputs|
  {
    var ys := Run(g, inputs);
    var (g', y) := Step(g, inputs[0]);
    assert ys[0] == y && ys[1..] == Run(g', inputs[1..]);
    if y.Return? {
      FinishedRunYieldsNothing(g', inputs[1..]);
    } else {
      CreateUserSettles(g', inputs[1..]);
    }
  }

  /** Every run of `createUser` that finishes without an error escaping
      yields loading-on once, loading-off once, and exactly one of the
      success action and the error effect. */
  lemma CreateUserBalanced(user: UserPayload, keepDialogOpen: Option<bool>, inputs: seq<Resume>)
    requires var ys := Run(Start(CreateUser(user, keepDialogOpen)), inputs); Returns(ys) && NoneRaised(ys)
    ensures var ys := Run(Start(CreateUser(user, keepDialogOpen)), inputs);
      Occurrences(ys, LoadingOn) == 1 && Occurrences(ys, LoadingOff) == 1 && Outcomes(ys) == 1
  {
    CreateUserSettles(Start(CreateUser(user, keepDialogOpen)), inputs);
  }
}
