/** What the module sees of the IPX800: its configuration, the records of the
    device's I/O table, and the outcome of one HTTP request. */
module Device {
  import opened Strings

  /** The instance configuration. `host` and `apiKey` are absent when the
      object has no such key; `others` holds every further field, which the
      code carries along without reading. */
  datatype Config = Config(host: Option<string>, apiKey: Option<string>, others: map<string, string>)

  /** `config.host && config.apiKey`: the guard in front of every device request
      (main.js:136, main.js:183, feedbacks.js:10). */
  predicate Complete(c: Config) {
    Truthy(c.host) && Truthy(c.apiKey)
  }

  /** A device `_id` as JSON parsing delivers it: a non-negative integer that
      a JavaScript number holds exactly (below 2^53). In that range
      `String(_id)` is the plain decimal text. */
  type DeviceId = n: nat | n < 0x20_0000_0000_0000

  /** One element of the array returned by `GET /api/core/io`: the device's
      numeric `_id`, its `name` (possibly missing) and the truthiness of `on`. */
  datatype IoRecord = IoRecord(id: DeviceId, name: Option<string>, on: bool)

  /** The body of a response as `response.json()` sees it. */
  datatype Body =
    | JsonArray(items: seq<IoRecord>)
    | OtherJson                       // parses, but is not an array
    | NotJson(parseError: string)     // `response.json()` rejects with this message

  /** The outcome of one `fetch`: a response, or a rejection (connection
      refused, timeout, abort) with its message. */
  datatype Reply =
    | Response(status: nat, statusText: string, body: Body)
    | Threw(message: string)
  {
    /** `response.ok`: a response whose status is in 200..299. */
    predicate Ok() {
      Response? && 200 <= status <= 299
    }
  }

  /** The device as seen from the module: what each URL answers. */
  type Network = string -> Reply

  /** `http://${host}/api/core/io?ApiKey=${apiKey}`, the full I/O table
      (main.js:142, main.js:196, feedbacks.js:12). */
  function IoUrl(c: Config): string {
    "http://" + Interpolate(c.host) + "/api/core/io?ApiKey=" + Interpolate(c.apiKey)
  }

  /** The request a read of the I/O table issues: none when host or apiKey is
      missing. */
  function IoRequests(c: Config): seq<string> {
    if Complete(c) then [IoUrl(c)] else []
  }

  /** The I/O table a reply delivers to `data.filter(...)`: only an ok response
      whose body is a JSON array; every other reply ends in the `catch` or the
      `else` branch of the caller. */
  function IoTable(reply: Reply): Option<seq<IoRecord>> {
    if reply.Ok() && reply.body.JsonArray? then Some(reply.body.items) else None
  }
}
