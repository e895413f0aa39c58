/** What a `fetch` call yields, taken as an input wherever the source awaits one. */
module Http {
  import opened Wrappers

  /**
   * `Threw(m)`: the fetch promise rejected with message `m`.
   * `Responded(ok, status, body)`: a response arrived; `body` is `None` when
   * `res.json()` rejects (the body is not JSON).
   */
  datatype Fetched<+T> = Threw(message: string) | Responded(ok: bool, status: int, body: Option<T>)
}
