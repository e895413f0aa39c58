/** POST /api/auth (functions/api/auth.ts): login-or-register and change-password. */
module AuthApi {
  import opened Wrappers
  import opened Types
  import opened KvStore

  /** The `action` query parameter and the JSON body fields the handler reads. */
  datatype AuthRequest = AuthRequest(
    action: Option<string>,
    username: Field<string>,
    password: Field<string>,
    oldPassword: Field<string>,
    newPassword: Field<string>)

  /** The record a registration writes: name and password, no config. */
  function NewUser(name: string, password: string): Value {
    EmptyObj.(username := Present(name), passwordHash := Present(password))
  }

  /** `?action=change-password`. */
  function ChangePassword(req: AuthRequest, store: Store): (r: Step)
    ensures r.response.Error? ==> r.store == store
    ensures (!Truthy(req.username) || !Truthy(req.oldPassword) || !Truthy(req.newPassword))
              ==> r.response == Error(400, "Missing required fields")
    ensures Truthy(req.username) && Truthy(req.oldPassword) && Truthy(req.newPassword) ==>
              var k := UserKey(req.username.value);
              && (k !in store ==> r.response == Error(404, "User not found"))
              && (k in store && PasswordOf(store[k]) != req.oldPassword ==> r.response == Error(401, "Incorrect old password"))
    ensures r.response.Json? <==>
              Truthy(req.username) && Truthy(req.oldPassword) && Truthy(req.newPassword)
              && UserKey(req.username.value) in store
              && PasswordOf(store[UserKey(req.username.value)]) == req.oldPassword
    ensures r.response.Json? ==>
              var k := UserKey(req.username.value);
              && r.store.Keys == store.Keys
              && (forall k' :: k' in store && k' != k ==> r.store[k'] == store[k'])
              && r.store[k].Obj?
              && r.store[k].passwordHash == req.newPassword
              && r.store[k].(passwordHash := store[k].passwordHash) == store[k]
  {
    if !Truthy(req.username) || !Truthy(req.oldPassword) || !Truthy(req.newPassword) then
      Step(Error(400, "Missing required fields"), store)
    else
      var k := UserKey(req.username.value);
      if k !in store then Step(Error(404, "User not found"), store)
      else if PasswordOf(store[k]) != req.oldPassword then Step(Error(401, "Incorrect old password"), store)
      else Step(Json(Message("Password changed successfully")), store[k := WithPassword(store[k], req.newPassword.value)])
  }

  /** Default action: log in an existing user, or register an unknown one. */
  function LoginOrRegister(req: AuthRequest, store: Store): (r: Step)
    ensures (!Truthy(req.username) || !Truthy(req.password))
              ==> r == Step(Error(400, "Username and password are required"), store)
    ensures Truthy(req.username) && Truthy(req.password) && UserKey(req.username.value) in store ==>
              var v := store[UserKey(req.username.value)];
              && r.store == store
              && (PasswordOf(v) == req.password <==> r.response.Json?)
              && (r.response.Json? ==> r.response.body == LoginOk(LoginView(v).0, LoginView(v).1))
              && (r.response.Error? ==> r.response.status == 401)
    ensures Truthy(req.username) && Truthy(req.password) && UserKey(req.username.value) !in store ==>
              r.store == store[UserKey(req.username.value) := NewUser(req.username.value, req.password.value)]
              && r.response == Json(Registered(req.username.value))
  {
    if !Truthy(req.username) || !Truthy(req.password) then
      Step(Error(400, "Username and password are required"), store)
    else
      var k := UserKey(req.username.value);
      if k in store then
        var existing := store[k];
        if PasswordOf(existing) == req.password then
          Step(Json(LoginOk(LoginView(existing).0, LoginView(existing).1)), store)
        else Step(Error(401, "Invalid password"), store)
      else
        Step(Json(Registered(req.username.value)), store[k := NewUser(req.username.value, req.password.value)])
  }

  /** `{username: existingUser.username, config: existingUser.config}`. */
  function LoginView(v: Value): (Field<string>, Field<UserConfig>) {
    if v.Obj? then (v.username, v.config) else (Absent, Absent)
  }

  /** `onRequestPost`: dispatch on the `action` query parameter. */
  function HandleAuth(req: AuthRequest, store: Store): (r: Step)
    ensures req.action == Some("change-password") ==> r == ChangePassword(req, store)
    ensures req.action != Some("change-password") ==> r == LoginOrRegister(req, store)
  {
    if req.action == Some("change-password") then ChangePassword(req, store) else LoginOrRegister(req, store)
  }

  function LoginRequest(name: string, password: string): AuthRequest {
    AuthRequest(None, Present(name), Present(password), Absent, Absent)
  }

  /** Registering and then repeating the same credentials logs in, with no config yet. */
  lemma RegisterThenLogin(store: Store, name: string, password: string)
    requires name != "" && password != ""
    requires UserKey(name) !in store
    ensures var s1 := HandleAuth(LoginRequest(name, password), store);
            var s2 := HandleAuth(LoginRequest(name, password), s1.store);
            && s1.response == Json(Registered(name))
            && s2.response == Json(LoginOk(Present(name), Absent))
            && s2.store == s1.store
  {
  }

  /**
   * After a successful change of password the new password logs in and,
   * when it differs, the old one is refused.
   */
  lemma ChangeThenLogin(store: Store, name: string, oldPw: string, newPw: string)
    requires name != "" && oldPw != "" && newPw != ""
    requires UserKey(name) in store && store[UserKey(name)].Obj?
    requires store[UserKey(name)].passwordHash == Present(oldPw)
    ensures var changed := HandleAuth(AuthRequest(Some("change-password"), Present(name), Absent, Present(oldPw), Present(newPw)), store);
            && changed.response.Json?
            && HandleAuth(LoginRequest(name, newPw), changed.store).response.Json?
            && (oldPw != newPw ==> HandleAuth(LoginRequest(name, oldPw), changed.store).response == Error(401, "Invalid password"))
  {
  }

  /** Neither action of the handler can make the store ill typed. */
  lemma AuthKeepsWellTyped(req: AuthRequest, store: Store)
    requires WellTyped(store)
    ensures WellTyped(HandleAuth(req, store).store)
  {
    if Truthy(req.username) {
      KeyKinds(req.username.value);
    }
  }
}
