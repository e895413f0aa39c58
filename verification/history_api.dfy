/** GET and POST /api/history (functions/api/history.ts). */
module HistoryApi {
  import opened Wrappers
  import opened Types
  import opened KvStore

  /** GET: the stored list unchanged, or `[]`; `username` is the query parameter. */
  function GetHistory(username: Option<string>, store: Store): (r: Response)
    ensures (username.None? || username.value == "") <==> r == Error(400, "Username is required")
    ensures (username.Some? && username.value != "" && HistoryKey(username.value) in store)
              ==> r == Json(Document(store[HistoryKey(username.value)]))
    ensures (username.Some? && username.value != "" && HistoryKey(username.value) !in store)
              ==> r == Json(Document(Arr([])))
  {
    if username.None? || username.value == "" then Error(400, "Username is required")
    else
      var k := HistoryKey(username.value);
      Json(Document(if k in store then store[k] else Arr([])))
  }

  datatype HistoryPost = HistoryPost(username: Field<string>, record: Field<HistoryRecord>)

  /**
   * POST: `unshift` the record onto the stored list. A stored object has no
   * `unshift`, so the handler throws and the platform answers 500.
   */
  function PostHistory(req: HistoryPost, store: Store): (r: Step)
    ensures (!Truthy(req.username) || !req.record.Present?)
              ==> r == Step(Error(400, "Username and record are required"), store)
    ensures r.response.Error? ==> r.store == store
    ensures r.response.Json? ==>
              var k := HistoryKey(req.username.value);
              && r.response.body == Success
              && (k in store ==> store[k].Arr? && r.store == store[k := Arr([req.record.value] + store[k].records)])
              && (k !in store ==> r.store == store[k := Arr([req.record.value])])
    ensures (Truthy(req.username) && req.record.Present?
             && (HistoryKey(req.username.value) !in store || store[HistoryKey(req.username.value)].Arr?))
              ==> r.response.Json?
  {
    if !Truthy(req.username) || !req.record.Present? then
      Step(Error(400, "Username and record are required"), store)
    else
      var k := HistoryKey(req.username.value);
      var current := if k in store then store[k] else Arr([]);
      if current.Obj? then Step(Error(500, "currentHistory.unshift is not a function"), store)
      else
        assert [req.record.value] + [] == [req.record.value];
        Step(Json(Success), store[k := Arr([req.record.value] + current.records)])
  }

  /** A GET after a successful POST serves the posted record first and the older ones after it, in order. */
  lemma PostThenGet(req: HistoryPost, store: Store)
    requires PostHistory(req, store).response.Json?
    ensures var g := GetHistory(Some(req.username.value), PostHistory(req, store).store);
            var k := HistoryKey(req.username.value);
            && g.Json? && g.body.Document? && g.body.value.Arr?
            && |g.body.value.records| >= 1
            && g.body.value.records[0] == req.record.value
            && (k in store ==> g.body.value.records[1..] == store[k].records)
            && (k !in store ==> g.body.value.records[1..] == [])
  {
  }

  lemma PostKeepsWellTyped(req: HistoryPost, store: Store)
    requires WellTyped(store)
    ensures WellTyped(PostHistory(req, store).store)
  {
    if Truthy(req.username) {
      KeyKinds(req.username.value);
    }
  }
}
