/**
 * What both server versions define in the same way: the random choice from a
 * fallback pool, and the outcome of one request to the completion provider.
 */
module ServerCommon {
  import opened Wrappers

  /** `pick(arr)`, with the random index `Math.floor(Math.random() * arr.length)`
      passed in as `i`. */
  function Pick<T>(arr: seq<T>, i: nat): (r: T)
    requires i < |arr|
    ensures r in arr
  {
    arr[i]
  }

  /** How one `fetch` to the completion provider ended. `Thrown` covers a
      network error, a response body that is not JSON, and a content field that
      is not a string (its `trim` throws). `content` is
      `data?.choices?.[0]?.message?.content`, `None` when any step is missing. */
  datatype ProviderOutcome =
    | Thrown
    | Responded(ok: bool, content: Option<string>)
}
