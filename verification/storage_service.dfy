/**
 * The browser-side storage client (services/storageService.ts). The client
 * keeps the profile document exactly as /api/profile served it, so a profile
 * here is a `KvStore.Value`.
 */
module StorageService {
  import opened Wrappers
  import opened Types
  import opened Http
  import opened Constants
  import opened KvStore
  import ProfileApi
  import QueryString

  /** The ids of a badge table, in table order. */
  function Ids(table: seq<BadgeDef>): (r: seq<string>)
    ensures |r| == |table| && forall i :: 0 <= i < |table| ==> r[i] == table[i].id
  {
    if table == [] then [] else [table[0].id] + Ids(table[1..])
  }

  /** `a` is `b` with some elements left out, the rest kept in order. */
  predicate IsSubsequence(a: seq<string>, b: seq<string>)
    decreases |b|
  {
    if b == [] then a == []
    else (a != [] && a[0] == b[0] && IsSubsequence(a[1..], b[1..])) || IsSubsequence(a, b[1..])
  }

  predicate NoDuplicates(s: seq<string>) {
    forall i, j :: 0 <= i < j < |s| ==> s[i] != s[j]
  }

  /** A badge is due when the new total reaches its threshold and the id is not held yet. */
  predicate Due(b: BadgeDef, points: int, held: seq<string>) {
    points >= b.threshold && b.id !in held
  }

  /** The `BADGES.forEach` loop: ids of the due badges. */
  function NewBadges(table: seq<BadgeDef>, points: int, held: seq<string>): (r: seq<string>)
    ensures forall id :: id in r <==> exists i :: 0 <= i < |table| && table[i].id == id && Due(table[i], points, held)
    ensures forall id :: id in r ==> id !in held
    ensures |r| <= |table|
  {
    if table == [] then []
    else
      var rest := NewBadges(table[1..], points, held);
      assert forall i :: 1 <= i < |table| ==> table[i] == table[1..][i - 1];
      if Due(table[0], points, held) then [table[0].id] + rest else rest
  }

  /** The new badges come in table order. */
  lemma {:induction false} NewBadgesInTableOrder(table: seq<BadgeDef>, points: int, held: seq<string>)
    ensures IsSubsequence(NewBadges(table, points, held), Ids(table))
  {
    if table != [] {
      NewBadgesInTableOrder(table[1..], points, held);
      assert Ids(table)[1..] == Ids(table[1..]);
      var r := NewBadges(table, points, held);
      if Due(table[0], points, held) {
        assert r[1..] == NewBadges(table[1..], points, held);
      }
    }
  }

  /** With distinct table ids the loop never pushes the same id twice. */
  lemma {:induction false} NewBadgesDistinct(table: seq<BadgeDef>, points: int, held: seq<string>)
    requires DistinctIds(table)
    ensures NoDuplicates(NewBadges(table, points, held))
  {
    if table != [] {
      var tail := table[1..];
      assert DistinctIds(tail) by {
        forall i, j | 0 <= i < j < |tail| ensures tail[i].id != tail[j].id {
          assert tail[i] == table[i + 1] && tail[j] == table[j + 1];
        }
      }
      NewBadgesDistinct(tail, points, held);
      var rest := NewBadges(tail, points, held);
      if Due(table[0], points, held) {
        assert table[0].id !in rest by {
          if table[0].id in rest {
            assert false;
          }
        }
        var r := [table[0].id] + rest;
        forall i, j | 0 <= i < j < |r| ensures r[i] != r[j] {
          if i == 0 {
            assert r[j] == rest[j - 1];
          } else {
            assert r[i] == rest[i - 1] && r[j] == rest[j - 1];
          }
        }
      }
    }
  }

  /** The body `saveProfile` posts, and the badges newly awarded. */
  datatype Award = Award(request: ProfileApi.ProfileUpdate, newBadges: seq<string>)

  /** A profile as the `UserProfile` type promises it: an object with points and badges. */
  predicate Awardable(profile: Value) {
    profile.Obj? && profile.points.Present? && profile.badges.Present?
  }

  /** `updatePointsAndBadges` up to the network call. */
  function AwardRequest(profile: Value, add: int): (r: Award)
    requires Awardable(profile)
    ensures r.request.points == Present(profile.points.value + add)
    ensures r.request.badges.Present?
    ensures var saved := r.request.badges.value; var held := profile.badges.value;
            && |saved| == |held| + |r.newBadges|
            && saved[..|held|] == held
            && saved[|held|..] == r.newBadges
    ensures r.newBadges == NewBadges(Badges, profile.points.value + add, profile.badges.value)
    ensures r.request.username == profile.username && r.request.level == profile.level
  {
    var total := profile.points.value + add;
    var earned := NewBadges(Badges, total, profile.badges.value);
    var saved := profile.badges.value + earned;
    Award(ProfileApi.ProfileUpdate(profile.username, Present(total), Present(saved), profile.level), earned)
  }

  /** Holding distinct badges before, the saved list still holds each badge once. */
  lemma AwardKeepsBadgesDistinct(profile: Value, add: int)
    requires Awardable(profile) && NoDuplicates(profile.badges.value)
    ensures NoDuplicates(AwardRequest(profile, add).request.badges.value)
  {
    var r := AwardRequest(profile, add);
    var held := profile.badges.value;
    var saved := r.request.badges.value;
    BadgeTableWellFormed();
    NewBadgesDistinct(Badges, profile.points.value + add, held);
    forall i, j | 0 <= i < j < |saved| ensures saved[i] != saved[j] {
      if j >= |held| {
        assert saved[j] == r.newBadges[j - |held|];
        if i < |held| {
          assert saved[i] == held[i];
          assert r.newBadges[j - |held|] in r.newBadges;
        } else {
          assert saved[i] == r.newBadges[i - |held|];
        }
      } else {
        assert saved[i] == held[i] && saved[j] == held[j];
      }
    }
  }

  /** After an award every badge whose threshold the new total reaches is held. */
  lemma AwardCoversEarned(profile: Value, add: int)
    requires Awardable(profile)
    ensures forall b :: b in Badges && b.threshold <= profile.points.value + add ==>
              b.id in AwardRequest(profile, add).request.badges.value
  {
    var r := AwardRequest(profile, add);
    var saved := r.request.badges.value;
    var held := profile.badges.value;
    forall b | b in Badges && b.threshold <= profile.points.value + add ensures b.id in saved {
      if b.id in held {
        var k :| 0 <= k < |held| && held[k] == b.id;
        assert saved[k] == held[k];
      } else {
        assert b.id in r.newBadges;
        var k :| 0 <= k < |r.newBadges| && r.newBadges[k] == b.id;
        assert saved[|held| + k] == r.newBadges[k];
      }
    }
  }

  /**
   * Posting the award to /api/profile stores exactly the new total and the
   * extended badge list, and keeps the stored config and password.
   */
  lemma AwardStored(profile: Value, add: int, store: Store)
    requires Awardable(profile) && Truthy(profile.username)
    requires ProfileKey(profile.username.value) in store ==> store[ProfileKey(profile.username.value)].Obj?
    ensures var k := ProfileKey(profile.username.value);
            var r := ProfileApi.PostProfile(AwardRequest(profile, add).request, store);
            && r.store[k].points == Present(profile.points.value + add)
            && r.store[k].badges == AwardRequest(profile, add).request.badges
            && (k in store ==> r.store[k].config == store[k].config && r.store[k].username == store[k].username)
            && r.response == Json(Document(r.store[k]))
  {
  }

  /** `getProfile`: the served document, or null on a non-ok answer or any failure. */
  function FetchProfile(res: Fetched<Value>): (r: Option<Value>)
    ensures r.Some? <==> res.Responded? && res.ok && res.body.Some?
    ensures r.Some? ==> r.value == res.body.value
  {
    match res
    case Responded(ok, _, body) => if ok then body else None
    case Threw(_) => None
  }

  /** The document GET /api/profile serves for a non-empty query name. */
  function ProfileDoc(q: string, store: Store): Value {
    if ProfileKey(q) in store then store[ProfileKey(q)] else ProfileApi.DefaultProfile
  }

  /**
   * What `fetch(`/api/profile?username=${name}`)` yields when the handler
   * answers from `store`. The name is not encoded, so the handler reads
   * `QueryString.SentName(name)`, which can be another name or empty.
   */
  function ServedProfile(name: string, store: Store): (r: Fetched<Value>)
    ensures var q := QueryString.SentName(name);
            && r.Responded? && (r.ok <==> q != "")
            && (!r.ok ==> r.status == 400 && r.body.None?)
            && (r.ok ==> r.body == Some(ProfileDoc(q, store)))
  {
    match ProfileApi.GetProfile(Some(QueryString.SentName(name)), store)
    case Error(status, _) => Responded(false, status, None)
    case Json(body) => if body.Document? then Responded(true, 200, Some(body.value)) else Responded(true, 200, None)
  }

  /** The same request with the name passed through `encodeURIComponent`. */
  function ServedProfileEncoded(name: string, store: Store): (r: Fetched<Value>)
    ensures r.Responded? && (r.ok <==> name != "")
    ensures r.ok ==> r.body == Some(ProfileDoc(name, store))
  {
    QueryString.EncodedNameArrives(name);
    ServedProfile(QueryString.Encode(name), store)
  }

  /**
   * As written, a user whose name is another user's name followed by `&` or
   * `#` loads that other user's stored profile, config included. A name
   * starting with `&` or `#` is refused with 400 and loads nothing.
   */
  lemma CrossUserRead(a: string, sep: char, b: string, store: Store)
    requires sep == '&' || sep == '#'
    requires QueryString.Literal(a)
    ensures a != "" ==> FetchProfile(ServedProfile(a + [sep] + b, store)) == Some(ProfileDoc(a, store))
    ensures a == "" ==> FetchProfile(ServedProfile(a + [sep] + b, store)).None?
  {
    QueryString.NameCutAtSeparator(a, sep, b);
  }

  /** A first login finds no profile and receives the defaults, which carry no username. */
  lemma FreshUserProfileHasNoName(name: string, store: Store)
    requires QueryString.QuerySafe(name)
    requires name != "" && ProfileKey(name) !in store
    ensures FetchProfile(ServedProfile(name, store)) == Some(ProfileApi.DefaultProfile)
    ensures ProfileApi.DefaultProfile.username.Absent?
  {
    QueryString.SafeNameArrives(name);
  }

  const ChangePasswordFallback: string := "Failed to change password"

  /** `changePassword`: `None` when it resolves, else the message it rejects with. */
  function ChangePasswordOutcome(res: Fetched<Field<string>>): (r: Option<string>)
    ensures r.None? <==> res.Responded? && res.ok
    ensures res.Threw? ==> r == Some(res.message)
    ensures res.Responded? && !res.ok && res.body.Some? && Truthy(res.body.value) ==> r == Some(res.body.value.value)
    ensures res.Responded? && !res.ok && !(res.body.Some? && Truthy(res.body.value)) ==> r == Some(ChangePasswordFallback)
  {
    match res
    case Threw(m) => Some(m)
    case Responded(ok, _, body) =>
      if ok then None
      else if body.Some? && Truthy(body.value) then Some(body.value.value)
      else Some(ChangePasswordFallback)
  }

  /** The `error` field of a handler's JSON answer as the client reads it. */
  function Delivered(resp: Response): (r: Fetched<Field<string>>)
    ensures r.Responded? && r.body.Some?
    ensures r.ok <==> resp.Json?
    ensures resp.Error? ==> r.status == resp.status && r.body.value == Present(resp.message)
  {
    match resp
    case Error(status, message) => Responded(false, status, Some(Present(message)))
    case Json(_) => Responded(true, 200, Some(Absent))
  }
}
