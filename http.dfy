/**
 * The HTTP adapter of http.go: a `StructuredError` becomes an `HTTPError`
 * body and a status code, and a decoded body and a status code become a
 * fresh `StructuredError`.
 */
module HttpAdapter {
  import opened Wrappers
  import opened Converter
  import opened Reasons
  import opened StructuredErrors
  import opened HttpWire

  /** The body `ToHTTPJSON` and `ToHTTP` build. GRPCCode, Domain and Cause are not carried. */
  function Body(e: StructuredError): (h: HTTPError)
    reads e, e.reason.Objects()
    ensures h.code == e.GetCode() && h.message == e.GetMessage() && h.reason == e.GetUserReason()
    ensures h.metadata == e.Metadata
  {
    HTTPError(e.GetCode(), e.GetMessage(), e.GetUserReason(), e.Metadata)
  }

  /** `ToHTTPJSON`: the body, standing for its JSON bytes, and `e.HTTPCode`. */
  function ToHTTPJSON(e: StructuredError): (r: (HTTPError, int))
    reads e, e.reason.Objects()
    ensures r.0 == Body(e) && r.1 == e.HTTPCode
  {
    (Body(e), e.HTTPCode)
  }

  /** The response `ToHTTP` writes. */
  function ToHTTP(e: StructuredError): (resp: Response)
    reads e, e.reason.Objects()
    ensures resp.contentType == JsonContentType && resp.status == e.HTTPCode && resp.body == Body(e)
  {
    Response(JsonContentType, e.HTTPCode, Body(e))
  }

  /** `httpToGRPCCode`, the adapter's own copy of the HTTP-to-gRPC table. */
  function HttpToGrpcCode(httpCode: int): (c: GrpcCode)
    ensures c == OK <==> 200 <= httpCode < 300
    ensures !c.Other?
  {
    if 200 <= httpCode < 300 then OK
    else if httpCode == 400 then InvalidArgument
    else if httpCode == 401 then Unauthenticated
    else if httpCode == 403 then PermissionDenied
    else if httpCode == 404 then NotFound
    else if httpCode == 409 then Aborted
    else if httpCode == 422 then FailedPrecondition
    else if httpCode == 429 then ResourceExhausted
    else if httpCode == 499 then Canceled
    else if httpCode == 500 then Internal
    else if httpCode == 501 then Unimplemented
    else if httpCode == 503 then Unavailable
    else if httpCode == 504 then DeadlineExceeded
    else if 400 <= httpCode < 500 then InvalidArgument
    else Unknown
  }

  /** The adapter's table agrees with the default converter on every status. */
  lemma HttpToGrpcCodeMatchesConverter(httpCode: int)
    ensures HttpToGrpcCode(httpCode) == DefaultConverter.httpToGrpc(httpCode)
    ensures HttpToGrpcCode(httpCode) == HTTPToGRPC(httpCode)
  {
  }

  /** What the error `FromHTTPJSON` builds from a decoded body reports. */
  function BodyState(h: HTTPError, statusCode: int): ErrorState {
    ErrorState(h.code, h.message, h.reason, HttpToGrpcCode(statusCode), statusCode, h.metadata, "", None)
  }

  /**
   * `FromHTTPJSON`, given the outcome of `json.Unmarshal`: a decode error is
   * returned as is with no error; otherwise code and message come from the
   * body, the reason is set only when nonempty, the metadata is the body's,
   * the HTTP code is the status code and the gRPC code is derived from it.
   */
  method FromHTTPJSON<E>(decoded: Result<HTTPError, E>, statusCode: int) returns (r: Result<StructuredError, E>)
    ensures decoded.Failure? <==> r.Failure?
    ensures decoded.Failure? ==> r.error == decoded.error
    ensures r.Success? ==> fresh(r.value) && r.value.reason.Default? && fresh(r.value.reason.d)
    ensures r.Success? ==> r.value.State() == BodyState(decoded.value, statusCode)
  {
    if decoded.Failure? {
      return Failure(decoded.error);
    }
    var h := decoded.value;
    var reason := new DefaultReason(h.code, h.message);
    if h.reason != "" {
      var _ := reason.WithReason(h.reason);
    }
    var e := new StructuredError(Default(reason), HttpToGrpcCode(statusCode), statusCode, h.metadata, "", None);
    r := Success(e);
  }

  /**
   * The round trip through JSON keeps code, message, user reason, the HTTP
   * code and nonempty metadata; empty metadata comes back nil, the gRPC code
   * is derived from the HTTP code, and domain and cause are lost.
   */
  lemma HttpRoundTrip(e: StructuredError)
    ensures BodyState(JsonTransit(ToHTTPJSON(e).0), ToHTTPJSON(e).1) == ErrorState(
      e.GetCode(), e.GetMessage(), e.GetUserReason(), HTTPToGRPC(e.HTTPCode), e.HTTPCode,
      if e.Metadata.Some? && |e.Metadata.value| > 0 then e.Metadata else None, "", None)
  {
    JsonTransitKeeps(Body(e));
    HttpToGrpcCodeMatchesConverter(e.HTTPCode);
  }

  /**
   * `WriteHTTPError`: the error it builds, whose gRPC code is derived from
   * the HTTP code, and the response that error writes.
   */
  method WriteHTTPError(code: string, message: string, httpCode: int) returns (built: StructuredError, resp: Response)
    ensures built.State() == ErrorState(code, message, "", HttpToGrpcCode(httpCode), httpCode, None, "", None)
    ensures resp == Response(JsonContentType, httpCode, HTTPError(code, message, "", None))
  {
    built := NewWithHTTPAndGRPC(code, message, httpCode, HttpToGrpcCode(httpCode));
    resp := ToHTTP(built);
  }

  /**
   * `WriteStandardHTTPError`: it goes through `New`, not the registry, so
   * the response status is always 500 and the gRPC code Unknown.
   */
  method WriteStandardHTTPError(code: string, message: string) returns (built: StructuredError, resp: Response)
    ensures built.State() == ErrorState(code, message, "", Unknown, 500, None, "", None)
    ensures resp == Response(JsonContentType, 500, HTTPError(code, message, "", None))
  {
    built := New(code, message);
    resp := ToHTTP(built);
  }
}
