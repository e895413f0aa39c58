/**
 * The Workers KV namespace shared by the server handlers under functions/api/,
 * as one map from key to stored document. Keys are `user:<name>`,
 * `profile:<name>` and `history:<name>`.
 *
 * A stored value is JSON text in the source; here it is the parsed document:
 * an object with the fields the handlers read and write (each possibly
 * missing or null), or an array of history records.
 */
module KvStore {
  import opened Wrappers
  import opened Types
  import opened Strings

  datatype Value =
    | Obj(username: Field<string>, passwordHash: Field<string>, config: Field<UserConfig>,
          points: Field<int>, badges: Field<seq<string>>, level: Field<Level>)
    | Arr(records: seq<HistoryRecord>)

  type Store = map<string, Value>

  const EmptyObj: Value := Obj(Absent, Absent, Absent, Absent, Absent, Absent)

  const UserPrefix: string := "user:"
  const ProfilePrefix: string := "profile:"
  const HistoryPrefix: string := "history:"

  function UserKey(name: string): string { UserPrefix + name }
  function ProfileKey(name: string): string { ProfilePrefix + name }
  function HistoryKey(name: string): string { HistoryPrefix + name }

  /** One row of the admin user list; `username` is `None` where the source yields `undefined`. */
  datatype UserSummary = UserSummary(username: Option<string>, points: int, badgesCount: nat, level: string)

  /** The JSON body of a successful (200) response. */
  datatype Payload =
    | Message(text: string)
    | LoginOk(storedName: Field<string>, storedConfig: Field<UserConfig>)
    | Registered(newName: string)
    | ConfigSaved(savedConfig: UserConfig)
    | Document(value: Value)
    | Success
    | UserList(users: seq<UserSummary>)

  /** A handler's response: an error status with its `error` text, or 200 with a body. */
  datatype Response = Error(status: int, message: string) | Json(body: Payload) {
    function Status(): int {
      if Error? then status else 200
    }
  }

  /** The result of one request: the response and the store afterwards. */
  datatype Step = Step(response: Response, store: Store)

  /** `obj.passwordHash` of a parsed document (`undefined` on an array). */
  function PasswordOf(v: Value): Field<string> {
    if v.Obj? then v.passwordHash else Absent
  }

  /** `obj.config` of a parsed document (`undefined` on an array). */
  function ConfigOf(v: Value): Field<UserConfig> {
    if v.Obj? then v.config else Absent
  }

  /** Assigning `config` and re-serialising: an array drops the named property. */
  function WithConfig(v: Value, c: UserConfig): (r: Value)
    ensures v.Obj? ==> r.Obj? && r.config == Present(c)
    ensures v.Obj? ==> r.(config := v.config) == v
    ensures v.Arr? ==> r == v
  {
    if v.Obj? then v.(config := Present(c)) else v
  }

  /** Assigning `passwordHash` and re-serialising: an array drops the named property. */
  function WithPassword(v: Value, h: string): (r: Value)
    ensures v.Obj? ==> r.Obj? && r.passwordHash == Present(h)
    ensures v.Obj? ==> r.(passwordHash := v.passwordHash) == v
    ensures v.Arr? ==> r == v
  {
    if v.Obj? then v.(passwordHash := Present(h)) else v
  }

  predicate IsUserKey(k: string) { StartsWith(k, UserPrefix) }
  predicate IsProfileKey(k: string) { StartsWith(k, ProfilePrefix) }
  predicate IsHistoryKey(k: string) { StartsWith(k, HistoryPrefix) }

  /** Every key the handlers write holds the kind of document its prefix promises. */
  predicate WellTyped(store: Store) {
    forall k :: k in store ==>
      (IsUserKey(k) ==> store[k].Obj?) && (IsProfileKey(k) ==> store[k].Obj?) && (IsHistoryKey(k) ==> store[k].Arr?)
  }

  lemma KeyKinds(name: string)
    ensures IsUserKey(UserKey(name)) && !IsProfileKey(UserKey(name)) && !IsHistoryKey(UserKey(name))
    ensures IsProfileKey(ProfileKey(name)) && !IsUserKey(ProfileKey(name)) && !IsHistoryKey(ProfileKey(name))
    ensures IsHistoryKey(HistoryKey(name)) && !IsUserKey(HistoryKey(name)) && !IsProfileKey(HistoryKey(name))
  {
    assert UserKey(name)[..5] == UserPrefix;
    assert ProfileKey(name)[..8] == ProfilePrefix;
    assert HistoryKey(name)[..8] == HistoryPrefix;
    FirstCharDiffers(UserKey(name), ProfilePrefix);
    FirstCharDiffers(UserKey(name), HistoryPrefix);
    FirstCharDiffers(ProfileKey(name), UserPrefix);
    FirstCharDiffers(ProfileKey(name), HistoryPrefix);
    FirstCharDiffers(HistoryKey(name), UserPrefix);
    FirstCharDiffers(HistoryKey(name), ProfilePrefix);
  }

  lemma FirstCharDiffers(s: string, prefix: string)
    requires |s| > 0 && |prefix| > 0 && s[0] != prefix[0]
    ensures !StartsWith(s, prefix)
  {
  }

  /** Keys of different users, or of different kinds, never collide. */
  lemma KeysDistinct(a: string, b: string)
    ensures UserKey(a) == UserKey(b) ==> a == b
    ensures ProfileKey(a) == ProfileKey(b) ==> a == b
    ensures HistoryKey(a) == HistoryKey(b) ==> a == b
    ensures UserKey(a) != ProfileKey(b) && UserKey(a) != HistoryKey(b) && ProfileKey(a) != HistoryKey(b)
  {
    KeyKinds(a);
    KeyKinds(b);
    if UserKey(a) == UserKey(b) { assert a == UserKey(a)[5..]; }
    if ProfileKey(a) == ProfileKey(b) { assert a == ProfileKey(a)[8..]; }
    if HistoryKey(a) == HistoryKey(b) { assert a == HistoryKey(a)[8..]; }
  }

  /** Writing a document of the right kind keeps the store well typed. */
  lemma PutKeepsWellTyped(store: Store, k: string, v: Value)
    requires WellTyped(store)
    requires (IsUserKey(k) || IsProfileKey(k)) ==> v.Obj?
    requires IsHistoryKey(k) ==> v.Arr?
    ensures WellTyped(store[k := v])
  {
  }
}
