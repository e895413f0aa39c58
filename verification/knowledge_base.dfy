/**
 * The per-level knowledge base loader (services/knowledgeBaseService.ts):
 * a fixed level-to-file table and a module-wide memo of loaded files, where
 * a failed load is remembered as `null` too. The file contents are of an
 * arbitrary type `K`; the fetch is the parameter `fetch`.
 */
module KnowledgeBase {
  import opened Wrappers
  import opened Types
  import opened Http
  import opened Constants

  /** `levelToFilenameMap`. */
  function Filename(l: Level): string {
    match l
    case Primary1_2 => "primary1_2"
    case Primary3_4 => "primary3_4"
    case Primary5_6 => "primary5_6"
    case Junior1 => "junior1"
    case Junior2 => "junior2"
    case Junior3 => "junior3"
    case Senior1 => "senior1"
    case Senior2 => "senior2"
    case Senior3 => "senior3"
    case University1_2 => "university1_2"
    case University3_4 => "university3_4"
    case Graduate => "graduate"
    case Toefl => "toefl"
    case Ielts => "ielts"
  }

  /** No two levels share a file. */
  lemma FilenameInjective(a: Level, b: Level)
    requires Filename(a) == Filename(b)
    ensures a == b
  {
  }

  /** The level whose enum value is `v`, searching `levels` in order. */
  function LevelNamed(v: string, levels: seq<Level>): (r: Option<Level>)
    ensures r.Some? ==> r.value in levels && LevelValue(r.value) == v
    ensures r.None? ==> forall l :: l in levels ==> LevelValue(l) != v
  {
    if levels == [] then None
    else if LevelValue(levels[0]) == v then Some(levels[0])
    else LevelNamed(v, levels[1..])
  }

  /** `levelToFilenameMap[level]` for a level arriving as its enum value; `None` for any other text. */
  function FilenameFor(v: string): (r: Option<string>)
    ensures r.Some? <==> exists l: Level :: LevelValue(l) == v
    ensures forall l: Level :: LevelValue(l) == v ==> r == Some(Filename(l))
  {
    LevelsEnumerateAll();
    match LevelNamed(v, Levels)
    case None => None
    case Some(l) =>
      assert forall l': Level :: LevelValue(l') == v ==> l' == l by {
        forall l': Level | LevelValue(l') == v ensures l' == l {
          LevelValueInjective(l', l);
        }
      }
      Some(Filename(l))
  }

  type Cache<K> = map<string, Option<K>>

  function Url(filename: string): string {
    "/knowledge_base/" + filename + ".json"
  }

  /** One call's result, the cache afterwards, and the file fetched if any. */
  datatype Load<K> = Load(result: Option<K>, cache: Cache<K>, fetched: Option<string>)

  /** `getKnowledgeBase`. */
  function GetKnowledgeBase<K>(v: string, cache: Cache<K>, fetch: string -> Fetched<K>): (r: Load<K>)
    ensures FilenameFor(v).None? ==> r == Load(None, cache, None)
    ensures FilenameFor(v).Some? && FilenameFor(v).value in cache ==>
              r == Load(cache[FilenameFor(v).value], cache, None)
    ensures FilenameFor(v).Some? && FilenameFor(v).value !in cache ==>
              var f := FilenameFor(v).value;
              && r.fetched == Some(Url(f))
              && r.cache == cache[f := r.result]
              && (r.result.Some? <==> fetch(Url(f)).Responded? && fetch(Url(f)).ok && fetch(Url(f)).body.Some?)
              && (r.result.Some? ==> r.result.value == fetch(Url(f)).body.value)
  {
    match FilenameFor(v)
    case None => Load(None, cache, None)
    case Some(f) =>
      if f in cache then Load(cache[f], cache, None)
      else
        var loaded := match fetch(Url(f))
          case Threw(_) => None
          case Responded(ok, _, body) => if ok then body else None;
        Load(loaded, cache[f := loaded], Some(Url(f)))
  }

  /** The cache only grows, and entries once written never change. */
  lemma CacheOnlyGrows<K>(v: string, cache: Cache<K>, fetch: string -> Fetched<K>)
    ensures var r := GetKnowledgeBase(v, cache, fetch);
            forall f :: f in cache ==> f in r.cache && r.cache[f] == cache[f]
  {
  }

  /** Results of successive calls for one level, each with whatever fetch is current. */
  function Calls<K>(v: string, cache: Cache<K>, fetches: seq<string -> Fetched<K>>): (rs: seq<Option<K>>)
    ensures |rs| == |fetches|
    decreases |fetches|
  {
    if fetches == [] then []
    else
      var r := GetKnowledgeBase(v, cache, fetches[0]);
      [r.result] + Calls(v, r.cache, fetches[1..])
  }

  /** Once a level is cached, every further call returns the cached value and fetches nothing. */
  lemma {:induction false} CachedStaysPut<K>(v: string, cache: Cache<K>, fetches: seq<string -> Fetched<K>>)
    requires FilenameFor(v).Some? && FilenameFor(v).value in cache
    ensures forall i :: 0 <= i < |fetches| ==> Calls(v, cache, fetches)[i] == cache[FilenameFor(v).value]
  {
    if fetches != [] {
      CachedStaysPut(v, GetKnowledgeBase(v, cache, fetches[0]).cache, fetches[1..]);
    }
  }

  /** After the first call for a level, every later call returns the same value. */
  lemma RepeatedCallsAgree<K>(v: string, cache: Cache<K>, fetches: seq<string -> Fetched<K>>)
    requires |fetches| > 0
    ensures forall i :: 0 <= i < |fetches| ==> Calls(v, cache, fetches)[i] == Calls(v, cache, fetches)[0]
  {
    var rs := Calls(v, cache, fetches);
    var first := GetKnowledgeBase(v, cache, fetches[0]);
    if FilenameFor(v).Some? {
      CachedStaysPut(v, first.cache, fetches[1..]);
      forall i | 1 <= i < |fetches| ensures rs[i] == rs[0] {
        assert rs[i] == Calls(v, first.cache, fetches[1..])[i - 1];
      }
    } else {
      NoFileNeverFetches(v, cache, fetches);
    }
  }

  /** Text that names no level yields null from every call. */
  lemma {:induction false} NoFileNeverFetches<K>(v: string, cache: Cache<K>, fetches: seq<string -> Fetched<K>>)
    requires FilenameFor(v).None?
    ensures forall i :: 0 <= i < |fetches| ==> Calls(v, cache, fetches)[i] == None
  {
    if fetches != [] {
      NoFileNeverFetches(v, cache, fetches[1..]);
    }
  }
}
