/**
 * /api/admin (functions/api/admin.ts): list users, reset a password, delete a user.
 * The admin secret is an environment value; `listing` is what
 * `WRITING_KV.list({prefix: 'user:'})` returns, in the store's own order.
 */
module AdminApi {
  import opened Wrappers
  import opened Types
  import opened Strings
  import opened KvStore

  datatype AdminRequest = AdminRequest(
    verb: string,     // the HTTP method
    adminKey: Option<string>,   // the `x-admin-key` header, `None` when missing
    action: Field<string>,
    targetUsername: Field<string>)

  const ResetPasswordValue: string := "123456"

  function IndexOf(s: string, c: char): (r: Option<nat>)
    ensures r.Some? ==> r.value < |s| && s[r.value] == c && forall k :: 0 <= k < r.value ==> s[k] != c
    ensures r.None? ==> forall k :: 0 <= k < |s| ==> s[k] != c
    decreases |s|
  {
    if |s| == 0 then None
    else if s[0] == c then Some(0)
    else match IndexOf(s[1..], c)
      case Some(i) => Some(i + 1)
      case None => None
  }

  /** `seg` sits right after the first colon of `key`, at `i`, and runs to the next colon or the end. */
  predicate SegmentAt(key: string, i: int, seg: string) {
    && 0 <= i && i + 1 + |seg| <= |key| && key[i] == ':'
    && key[i + 1..i + 1 + |seg|] == seg
    && (forall m :: 0 <= m < i ==> key[m] != ':')
    && (i + 1 + |seg| == |key| || key[i + 1 + |seg|] == ':')
  }

  /** `key.split(':')[1]`: the text between the first and second colon; `None` when there is no colon. */
  function SecondSegment(key: string): (r: Option<string>)
    ensures r.None? <==> forall k :: 0 <= k < |key| ==> key[k] != ':'
    ensures r.Some? ==> forall k :: 0 <= k < |r.value| ==> r.value[k] != ':'
    ensures r.Some? ==> exists i :: SegmentAt(key, i, r.value)
  {
    match IndexOf(key, ':')
    case None => None
    case Some(i) =>
      var rest := key[i + 1..];
      match IndexOf(rest, ':')
      case None =>
        assert key[i + 1..i + 1 + |rest|] == rest;
        assert SegmentAt(key, i, rest);
        Some(rest)
      case Some(j) =>
        assert key[i + 1..i + 1 + j] == rest[..j];
        assert SegmentAt(key, i, rest[..j]);
        Some(rest[..j])
  }

  /** A user key whose name has no colon gives back exactly that name. */
  lemma SecondSegmentOfUserKey(name: string)
    requires forall k :: 0 <= k < |name| ==> name[k] != ':'
    ensures SecondSegment(UserKey(name)) == Some(name)
  {
    var key := UserKey(name);
    assert IndexOf(key, ':') == Some(4) by {
      assert key[4] == ':';
      assert forall k :: 0 <= k < 4 ==> key[k] != ':';
    }
    assert key[5..] == name;
  }

  /** A name containing a colon is listed under its part before the first colon. */
  lemma ColonNameIsCut(a: string, b: string)
    requires forall k :: 0 <= k < |a| ==> a[k] != ':'
    ensures SecondSegment(UserKey(a + ":" + b)) == Some(a)
  {
    var key := UserKey(a + ":" + b);
    assert IndexOf(key, ':') == Some(4) by {
      assert key[4] == ':';
      assert forall k :: 0 <= k < 4 ==> key[k] != ':';
    }
    var rest := key[5..];
    assert rest == a + ":" + b;
    assert IndexOf(rest, ':') == Some(|a|) by {
      assert rest[|a|] == ':';
      assert forall k :: 0 <= k < |a| ==> rest[k] == a[k];
    }
    assert rest[..|a|] == a;
  }

  /** The list row for one user: `|| 0` and `|| 'N/A'` defaults over the profile, if any. */
  function Summarize(name: Option<string>, store: Store): (r: UserSummary)
    ensures r.username == name
    ensures var k := ProfileKey(if name.Some? then name.value else "undefined");
            && (k in store && store[k].Obj? && store[k].points.Present? ==> r.points == store[k].points.value)
            && (k in store && store[k].Obj? && store[k].badges.Present? ==> r.badgesCount == |store[k].badges.value|)
            && (k in store && store[k].Obj? && store[k].level.Present? ==> r.level == LevelValue(store[k].level.value))
            && (!(k in store && store[k].Obj? && store[k].points.Present?) ==> r.points == 0)
            && (!(k in store && store[k].Obj? && store[k].badges.Present?) ==> r.badgesCount == 0)
            && (!(k in store && store[k].Obj? && store[k].level.Present?) ==> r.level == "N/A")
  {
    var k := ProfileKey(if name.Some? then name.value else "undefined");
    var profile := if k in store then store[k] else EmptyObj.(points := Present(0), badges := Present([]));
    if profile.Arr? then UserSummary(name, 0, 0, "N/A")
    else
      UserSummary(
        name,
        if profile.points.Present? then profile.points.value else 0,
        if profile.badges.Present? then |profile.badges.value| else 0,
        if profile.level.Present? then LevelValue(profile.level.value) else "N/A")
  }

  /** One row per listed key, in listing order. */
  function Summaries(listing: seq<string>, store: Store): (r: seq<UserSummary>)
    ensures |r| == |listing|
    ensures forall i :: 0 <= i < |listing| ==> r[i] == Summarize(SecondSegment(listing[i]), store)
  {
    if listing == [] then []
    else [Summarize(SecondSegment(listing[0]), store)] + Summaries(listing[1..], store)
  }

  /** `listing` is a faithful KV listing: every key of the store with `prefix`, each once. */
  ghost predicate ListsPrefix(store: Store, prefix: string, listing: seq<string>) {
    && (forall k :: k in listing <==> k in store && StartsWith(k, prefix))
    && (forall i, j :: 0 <= i < j < |listing| ==> listing[i] != listing[j])
  }

  /** delete_user: drop the user and profile keys and every key starting with `history:<t>`. */
  function DeleteUser(store: Store, t: string): (r: Store)
    ensures forall k :: k in r <==>
              k in store && k != UserKey(t) && k != ProfileKey(t) && !StartsWith(k, HistoryKey(t))
    ensures forall k :: k in r ==> r[k] == store[k]
  {
    map k | k in store && k != UserKey(t) && k != ProfileKey(t) && !StartsWith(k, HistoryKey(t)) :: store[k]
  }

  /** `onRequest`: authenticate, then dispatch on method and action. */
  function HandleAdmin(secret: Option<string>, req: AdminRequest, listing: seq<string>, store: Store): (r: Step)
    ensures (secret.None? || secret.value == "") ==> r.response.Status() == 500 && r.store == store
    ensures (secret.Some? && secret.value != "" && req.adminKey != secret)
              ==> r == Step(Error(401, "Unauthorized"), store)
    ensures r.store != store ==> req.verb == "POST" && req.adminKey == secret && Truthy(req.targetUsername)
    ensures (secret.Some? && secret.value != "" && req.adminKey == secret && req.verb == "GET")
              ==> r == Step(Json(UserList(Summaries(listing, store))), store)
    ensures (secret.Some? && secret.value != "" && req.adminKey == secret && req.verb == "POST")
              ==> r == AdminAction(req, store)
    ensures (secret.Some? && secret.value != "" && req.adminKey == secret && req.verb != "GET" && req.verb != "POST")
              ==> r == Step(Error(405, "Method not allowed"), store)
  {
    if secret.None? || secret.value == "" then
      Step(Error(500, "Server configuration error: ADMIN_SECRET environment variable is not set."), store)
    else if req.adminKey != secret then Step(Error(401, "Unauthorized"), store)
    else if req.verb == "GET" then Step(Json(UserList(Summaries(listing, store))), store)
    else if req.verb == "POST" then AdminAction(req, store)
    else Step(Error(405, "Method not allowed"), store)
  }

  /** The POST branch: reset_password or delete_user for `targetUsername`. */
  function AdminAction(req: AdminRequest, store: Store): (r: Step)
    ensures !Truthy(req.targetUsername) ==> r == Step(Error(400, "Missing targetUsername"), store)
    ensures (Truthy(req.targetUsername) && req.action != Present("reset_password") && req.action != Present("delete_user"))
              ==> r == Step(Error(400, "Invalid action"), store)
    ensures (Truthy(req.targetUsername) && req.action == Present("reset_password")) ==>
              var k := UserKey(req.targetUsername.value);
              && (k !in store ==> r == Step(Error(404, "User not found"), store))
              && (k in store ==> r.response.Json? && r.store == store[k := WithPassword(store[k], ResetPasswordValue)])
    ensures (Truthy(req.targetUsername) && req.action == Present("delete_user")) ==>
              r.response.Json? && r.store == DeleteUser(store, req.targetUsername.value)
  {
    if !Truthy(req.targetUsername) then Step(Error(400, "Missing targetUsername"), store)
    else
      var t := req.targetUsername.value;
      if req.action == Present("reset_password") then
        var k := UserKey(t);
        if k !in store then Step(Error(404, "User not found"), store)
        else Step(Json(Message("Password for " + t + " reset to 123456")), store[k := WithPassword(store[k], ResetPasswordValue)])
      else if req.action == Present("delete_user") then
        Step(Json(Message("User " + t + " deleted")), DeleteUser(store, t))
      else Step(Error(400, "Invalid action"), store)
  }

  /** With a faithful listing there is exactly one row per stored user key. */
  lemma OneRowPerUser(store: Store, listing: seq<string>)
    requires ListsPrefix(store, UserPrefix, listing)
    ensures |Summaries(listing, store)| == |set k | k in store && StartsWith(k, UserPrefix)|
  {
    var keys := set k | k in store && StartsWith(k, UserPrefix);
    assert keys == set i | 0 <= i < |listing| :: listing[i];
    DistinctCard(listing);
  }

  lemma {:induction false} DistinctCard(s: seq<string>)
    requires forall i, j :: 0 <= i < j < |s| ==> s[i] != s[j]
    ensures |set i | 0 <= i < |s| :: s[i]| == |s|
  {
    if s != [] {
      var rest := s[1..];
      DistinctCard(rest);
      var whole := set i | 0 <= i < |s| :: s[i];
      var tail := set i | 0 <= i < |rest| :: rest[i];
      assert whole == {s[0]} + tail by {
        forall x | x in whole ensures x in {s[0]} + tail {
          var i :| 0 <= i < |s| && s[i] == x;
          if i > 0 { assert rest[i - 1] == x; }
        }
      }
      assert s[0] !in tail;
    }
  }

  /**
   * Deleting `t` also deletes the history of every user whose name extends
   * `t`, since history keys are matched by plain prefix; their user and
   * profile keys stay.
   */
  lemma DeleteReachesLongerNames(store: Store, t: string, u: string)
    requires StartsWith(u, t) && u != t
    ensures HistoryKey(u) !in DeleteUser(store, t)
    ensures UserKey(u) in store ==> UserKey(u) in DeleteUser(store, t)
    ensures ProfileKey(u) in store ==> ProfileKey(u) in DeleteUser(store, t)
  {
    assert HistoryKey(u)[..|HistoryKey(t)|] == HistoryKey(t);
    KeyKinds(u);
    KeyKinds(t);
    KeysDistinct(u, t);
  }

  /** Reset and delete keep the store well typed. */
  lemma AdminKeepsWellTyped(secret: Option<string>, req: AdminRequest, listing: seq<string>, store: Store)
    requires WellTyped(store)
    ensures WellTyped(HandleAdmin(secret, req, listing, store).store)
  {
    if Truthy(req.targetUsername) {
      KeyKinds(req.targetUsername.value);
    }
  }
}
