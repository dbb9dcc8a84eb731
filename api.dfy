/**
 * What a time-series fetch can come back with, and how loadAllData sorts it into
 * its three outcomes. The network call itself is not modelled: its result is an input.
 */
module Api {
  import opened Common
  import opened Series

  /** The JSON body of a time-series response: `status`, `values` when present, `message` when present. */
  datatype Payload = Payload(status: string, values: Option<seq<Record>>, message: Option<string>)

  /** A fetch either throws (network failure, unreadable JSON) or returns a payload. */
  datatype FetchResult = Thrown | Returned(payload: Payload)

  /** One time-series request: the query parameters the page puts in the URL. */
  datatype Request = Request(symbol: string, interval: string, startDate: string, endDate: string, apiKey: string)

  /** The three error banners loadAllData can show. */
  datatype Banner =
    | MissingApiKey            // no key entered yet; nothing is fetched
    | LoadFailed(detail: string)  // a payload came back without usable values
    | FetchFailed              // the fetch or the update threw

  /** The detail text shown when a payload has no message. */
  const NoDataText: string := "找不到數據"

  /** `data.message || '找不到數據'`: the upstream message unless it is missing or empty. */
  function FailureDetail(message: Option<string>): (d: string)
    ensures message.Some? && message.value != "" ==> d == message.value
    ensures message.None? || message.value == "" ==> d == NoDataText
    ensures d != ""
  {
    if message.Some? && message.value != "" then message.value else NoDataText
  }

  /** The three ways a load ends once past the key check. */
  datatype LoadOutcome = Apply(values: seq<Record>) | Reject(detail: string) | Fail

  /**
   * The branch loadAllData takes on a fetch result: apply the values when the
   * status is "ok" and there is at least one; fail as a thrown error when the
   * fetch threw or an "ok" payload has no `values` (reading its length throws);
   * reject with the message otherwise.
   */
  function Classify(fetch: FetchResult): (o: LoadOutcome)
    ensures o.Apply? <==> && fetch.Returned? && fetch.payload.status == "ok"
                          && fetch.payload.values.Some? && |fetch.payload.values.value| > 0
    ensures o.Apply? ==> o.values == fetch.payload.values.value
    ensures o.Fail? <==> fetch.Thrown? || (fetch.payload.status == "ok" && fetch.payload.values.None?)
    ensures o.Reject? ==> o.detail == FailureDetail(fetch.payload.message)
  {
    match fetch
    case Thrown => Fail
    case Returned(data) =>
      if data.status != "ok" then Reject(FailureDetail(data.message))
      else if data.values.None? then Fail
      else if |data.values.value| > 0 then Apply(data.values.value)
      else Reject(FailureDetail(data.message))
  }
}
