/**
 * The `HTTPError` JSON body of http.go and xerr/http.go (both packages
 * declare the same record), what `encoding/json` keeps of it on the wire,
 * and the response that `ToHTTP` writes.
 */
module HttpWire {
  import opened Wrappers

  /** The record; `reason` and `metadata` are tagged `omitempty`. */
  datatype HTTPError = HTTPError(
    code: string, message: string, reason: string, metadata: Option<map<string, string>>)

  /** The keys `json.Marshal` writes: `omitempty` drops an empty reason and a nil or empty map. */
  function WireKeys(h: HTTPError): (keys: set<string>)
    ensures "code" in keys && "message" in keys
    ensures "reason" in keys <==> h.reason != ""
    ensures "metadata" in keys <==> h.metadata.Some? && |h.metadata.value| > 0
  {
    {"code", "message"}
    + (if h.reason != "" then {"reason"} else {})
    + (if h.metadata.Some? && |h.metadata.value| > 0 then {"metadata"} else {})
  }

  /**
   * `json.Unmarshal` of the marshalled record into a zero `HTTPError`: every
   * key on the wire is read back, and a missing key leaves its zero value.
   */
  function JsonTransit(h: HTTPError): HTTPError {
    var keys := WireKeys(h);
    HTTPError(h.code, h.message,
              if "reason" in keys then h.reason else "",
              if "metadata" in keys then h.metadata else None)
  }

  /**
   * The round trip through JSON keeps code, message, reason and a nonempty
   * map; an empty map comes back nil. A second trip changes nothing.
   */
  lemma JsonTransitKeeps(h: HTTPError)
    ensures JsonTransit(h).code == h.code && JsonTransit(h).message == h.message
    ensures JsonTransit(h).reason == h.reason
    ensures JsonTransit(h).metadata == if h.metadata.Some? && |h.metadata.value| > 0 then h.metadata else None
    ensures JsonTransit(JsonTransit(h)) == JsonTransit(h)
  {
  }

  /** What `ToHTTP` writes: the Content-Type header, the status code and the body. */
  datatype Response = Response(contentType: string, status: int, body: HTTPError)

  const JsonContentType: string := "application/json"
}
