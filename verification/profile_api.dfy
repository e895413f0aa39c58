/** GET and POST /api/profile (functions/api/profile.ts). */
module ProfileApi {
  import opened Wrappers
  import opened Types
  import opened KvStore

  /** `{"points":0,"badges":[],"level":null}`: what is served, and merged into, when no profile is stored. */
  const DefaultProfile: Value := EmptyObj.(points := Present(0), badges := Present([]), level := Null)

  /** GET: the stored document unchanged, or the default; `username` is the query parameter. */
  function GetProfile(username: Option<string>, store: Store): (r: Response)
    ensures (username.None? || username.value == "") <==> r == Error(400, "Username is required")
    ensures (username.Some? && username.value != "" && ProfileKey(username.value) in store)
              ==> r == Json(Document(store[ProfileKey(username.value)]))
    ensures (username.Some? && username.value != "" && ProfileKey(username.value) !in store)
              ==> r == Json(Document(DefaultProfile))
  {
    if username.None? || username.value == "" then Error(400, "Username is required")
    else
      var k := ProfileKey(username.value);
      Json(Document(if k in store then store[k] else DefaultProfile))
  }

  /** The body fields POST reads; anything else in the body, `config` included, is ignored. */
  datatype ProfileUpdate = ProfileUpdate(
    username: Field<string>,
    points: Field<int>,
    badges: Field<seq<string>>,
    level: Field<Level>)

  /** `x !== undefined ? x : current`. */
  function Defined<T>(requested: Field<T>, current: Field<T>): Field<T> {
    if requested.Absent? then current else requested
  }

  /**
   * `{...currentProfile, points, badges, level}` with each of the three taken
   * from the request when it is defined.
   */
  function Merge(current: Value, req: ProfileUpdate): (r: Value)
    ensures r.Obj?
    ensures req.points.Absent? ==> r.points == (if current.Obj? then current.points else Absent)
    ensures !req.points.Absent? ==> r.points == req.points
    ensures req.badges.Absent? ==> r.badges == (if current.Obj? then current.badges else Absent)
    ensures !req.badges.Absent? ==> r.badges == req.badges
    ensures req.level.Absent? ==> r.level == (if current.Obj? then current.level else Absent)
    ensures !req.level.Absent? ==> r.level == req.level
    ensures current.Obj? ==> r.username == current.username && r.passwordHash == current.passwordHash
                             && r.config == current.config
  {
    var base := if current.Obj? then current else EmptyObj;
    base.(points := Defined(req.points, base.points),
          badges := Defined(req.badges, base.badges),
          level := Defined(req.level, base.level))
  }

  /** POST: merge the request into the stored (or default) profile, store it and echo it. */
  function PostProfile(req: ProfileUpdate, store: Store): (r: Step)
    ensures !Truthy(req.username) ==> r == Step(Error(400, "Username is required"), store)
    ensures Truthy(req.username) ==>
              var k := ProfileKey(req.username.value);
              && r.response.Json? && r.response.body.Document?
              && r.store == store[k := r.response.body.value]
              && r.response.body.value == Merge(if k in store then store[k] else DefaultProfile, req)
  {
    if !Truthy(req.username) then Step(Error(400, "Username is required"), store)
    else
      var k := ProfileKey(req.username.value);
      var merged := Merge(if k in store then store[k] else DefaultProfile, req);
      Step(Json(Document(merged)), store[k := merged])
  }

  /** A POST carrying only a username changes nothing but materialises the defaults. */
  lemma NameOnlyPostIsIdempotent(store: Store, name: string)
    requires name != ""
    ensures var r := PostProfile(ProfileUpdate(Present(name), Absent, Absent, Absent), store);
            var k := ProfileKey(name);
            && (k in store && store[k].Obj? ==> r.store == store)
            && (k !in store ==> r.store == store[k := DefaultProfile])
            && PostProfile(ProfileUpdate(Present(name), Absent, Absent, Absent), r.store).store == r.store
  {
    var k := ProfileKey(name);
    if k in store && store[k].Obj? {
      assert store[k := store[k]] == store;
    }
  }

  /** After a POST, a GET serves exactly what the POST answered. */
  lemma PostThenGet(req: ProfileUpdate, store: Store)
    requires Truthy(req.username)
    ensures var r := PostProfile(req, store);
            GetProfile(Some(req.username.value), r.store) == r.response
  {
  }

  lemma PostKeepsWellTyped(req: ProfileUpdate, store: Store)
    requires WellTyped(store)
    ensures WellTyped(PostProfile(req, store).store)
  {
    if Truthy(req.username) {
      KeyKinds(req.username.value);
    }
  }
}
