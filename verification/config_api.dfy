/** POST /api/config (functions/api/config.ts): save provider settings on the user and the profile. */
module ConfigApi {
  import opened Types
  import opened KvStore

  datatype ConfigRequest = ConfigRequest(username: Field<string>, config: Field<UserConfig>)

  /** The profile created for a user who has none: no points, no badges, level null. */
  function NewProfile(name: string): Value {
    EmptyObj.(username := Present(name), points := Present(0), badges := Present([]), level := Null)
  }

  function SaveConfig(req: ConfigRequest, store: Store): (r: Step)
    ensures (!Truthy(req.username) || !req.config.Present?)
              ==> r == Step(Error(400, "Username and config are required"), store)
    ensures (Truthy(req.username) && req.config.Present? && UserKey(req.username.value) !in store)
              ==> r == Step(Error(404, "User not found"), store)
    ensures r.response.Json? <==> Truthy(req.username) && req.config.Present? && UserKey(req.username.value) in store
    ensures r.response.Json? ==>
              var name := req.username.value;
              var c := req.config.value;
              var uk := UserKey(name);
              var pk := ProfileKey(name);
              && r.response.body == ConfigSaved(c)
              && r.store.Keys == store.Keys + {pk}
              && (forall k :: k in store && k != uk && k != pk ==> r.store[k] == store[k])
              && (store[uk].Obj? ==>
                    r.store[uk].Obj? && r.store[uk].config == Present(c)
                    && r.store[uk].(config := store[uk].config) == store[uk])
              && (pk in store && store[pk].Obj? ==>
                    r.store[pk].Obj? && r.store[pk].config == Present(c)
                    && r.store[pk].(config := store[pk].config) == store[pk])
              && (pk !in store ==> r.store[pk] == NewProfile(name).(config := Present(c)))
  {
    if !Truthy(req.username) || !req.config.Present? then
      Step(Error(400, "Username and config are required"), store)
    else
      var name := req.username.value;
      var c := req.config.value;
      var uk := UserKey(name);
      if uk !in store then Step(Error(404, "User not found"), store)
      else
        var withUser := store[uk := WithConfig(store[uk], c)];
        var pk := ProfileKey(name);
        KeysDistinct(name, name);
        var profile := if pk in withUser then withUser[pk] else NewProfile(name);
        Step(Json(ConfigSaved(c)), withUser[pk := WithConfig(profile, c)])
  }

  /** On a well-typed store, a saved config is readable from the user, the profile and the reply alike. */
  lemma SavedConfigAgrees(req: ConfigRequest, store: Store)
    requires WellTyped(store)
    requires SaveConfig(req, store).response.Json?
    ensures var r := SaveConfig(req, store);
            var name := req.username.value;
            && ConfigOf(r.store[UserKey(name)]) == req.config
            && ConfigOf(r.store[ProfileKey(name)]) == req.config
            && r.response.body.savedConfig == req.config.value
            && WellTyped(r.store)
  {
    KeyKinds(req.username.value);
  }
}
