/**
 * The gRPC <-> HTTP status code tables of converter.go.
 *
 * gRPC codes are Go's `codes.Code` (a uint32): the seventeen named codes and,
 * so that the `default:` arm of every switch stays reachable, any other value.
 */
module Converter {

  /** A `codes.Code` value that is none of the seventeen named ones. */
  type UnnamedCode = n: int | 17 <= n < 0x1_0000_0000 witness 17

  datatype GrpcCode =
    | OK | Canceled | Unknown | InvalidArgument | DeadlineExceeded | NotFound
    | AlreadyExists | PermissionDenied | ResourceExhausted | FailedPrecondition
    | Aborted | OutOfRange | Unimplemented | Internal | Unavailable | DataLoss
    | Unauthenticated
    | Other(value: UnnamedCode)

  /** Every status `GRPCToHTTP` can produce. */
  const HttpRange: set<int> := {200, 400, 401, 403, 404, 409, 429, 499, 500, 501, 503, 504}

  /** The gRPC codes that survive gRPC -> HTTP -> gRPC. */
  const GrpcRoundTripCodes: set<GrpcCode> :=
    {OK, Canceled, InvalidArgument, DeadlineExceeded, NotFound, PermissionDenied,
     ResourceExhausted, Aborted, Unimplemented, Internal, Unavailable, Unauthenticated}

  /** `DefaultCodeConverter.HTTPToGRPC`: total over every int. */
  function HTTPToGRPC(httpCode: int): (c: GrpcCode)
    ensures c == OK <==> 200 <= httpCode < 300
    ensures c == InvalidArgument <==> 400 <= httpCode < 500 && httpCode !in {401, 403, 404, 409, 422, 429, 499}
    ensures c == Unknown <==> !(200 <= httpCode < 300) && !(400 <= httpCode < 500) && httpCode !in {500, 501, 503, 504}
    ensures !c.Other?
  {
    if 200 <= httpCode < 300 then OK
    else if httpCode == 400 then InvalidArgument
    else if httpCode == 401 then Unauthenticated
    else if httpCode == 403 then PermissionDenied
    else if httpCode == 404 then NotFound
    else if httpCode == 409 then Aborted
    else if httpCode == 422 then FailedPrecondition
    else if httpCode == 429 then ResourceExhausted
    else if httpCode == 499 then Canceled
    else if httpCode == 500 then Internal
    else if httpCode == 501 then Unimplemented
    else if httpCode == 503 then Unavailable
    else if httpCode == 504 then DeadlineExceeded
    else if 400 <= httpCode < 500 then InvalidArgument
    else Unknown
  }

  /** `DefaultCodeConverter.GRPCToHTTP`: total over every code value. */
  function GRPCToHTTP(code: GrpcCode): (h: int)
    ensures h in HttpRange
    ensures code.Other? ==> h == 500
  {
    match code
    case OK => 200
    case Canceled => 499
    case Unknown => 500
    case InvalidArgument => 400
    case DeadlineExceeded => 504
    case NotFound => 404
    case AlreadyExists => 409
    case PermissionDenied => 403
    case ResourceExhausted => 429
    case FailedPrecondition => 400
    case Aborted => 409
    case OutOfRange => 400
    case Unimplemented => 501
    case Internal => 500
    case Unavailable => 503
    case DataLoss => 500
    case Unauthenticated => 401
    case Other(_) => 500
  }

  /**
   * The `CodeConverter` interface: a pair of total, side-effect-free
   * conversions. Any pair of functions is an implementation.
   */
  datatype CodeConverter = CodeConverter(httpToGrpc: int -> GrpcCode, grpcToHttp: GrpcCode -> int)

  /** The `DefaultConverter` variable's initial value. */
  const DefaultConverter: CodeConverter := CodeConverter(HTTPToGRPC, GRPCToHTTP)

  /** The mapping documented in the comment above `DefaultCodeConverter`. */
  lemma DocumentedHttpToGrpc()
    ensures forall h :: 200 <= h < 300 ==> HTTPToGRPC(h) == OK
    ensures HTTPToGRPC(400) == InvalidArgument && HTTPToGRPC(401) == Unauthenticated
    ensures HTTPToGRPC(403) == PermissionDenied && HTTPToGRPC(404) == NotFound
    ensures HTTPToGRPC(409) == Aborted && HTTPToGRPC(422) == FailedPrecondition
    ensures HTTPToGRPC(429) == ResourceExhausted && HTTPToGRPC(499) == Canceled
    ensures HTTPToGRPC(500) == Internal && HTTPToGRPC(501) == Unimplemented
    ensures HTTPToGRPC(503) == Unavailable && HTTPToGRPC(504) == DeadlineExceeded
  {
  }

  /** Unlisted 4xx statuses fall back to InvalidArgument, everything else unlisted to Unknown. */
  lemma HttpToGrpcFallbacks(h: int)
    ensures 400 <= h < 500 && h !in {400, 401, 403, 404, 409, 422, 429, 499} ==> HTTPToGRPC(h) == InvalidArgument
    ensures (h < 200 || 300 <= h < 400) ==> HTTPToGRPC(h) == Unknown
    ensures 500 <= h < 600 && h !in {500, 501, 503, 504} ==> HTTPToGRPC(h) == Unknown
    ensures h >= 600 ==> HTTPToGRPC(h) == Unknown
  {
  }

  /** Every status in `HttpRange` is produced by some gRPC code, so the range is exact. */
  lemma GrpcToHttpRangeExact(h: int)
    ensures h in HttpRange <==> exists c :: GRPCToHTTP(c) == h
  {
    if h in HttpRange {
      var c :=
        if h == 200 then OK else if h == 400 then InvalidArgument
        else if h == 401 then Unauthenticated else if h == 403 then PermissionDenied
        else if h == 404 then NotFound else if h == 409 then Aborted
        else if h == 429 then ResourceExhausted else if h == 499 then Canceled
        else if h == 500 then Internal else if h == 501 then Unimplemented
        else if h == 503 then Unavailable else DeadlineExceeded;
      assert GRPCToHTTP(c) == h;
    }
  }

  /** gRPC -> HTTP -> gRPC returns the code exactly for the twelve codes of `GrpcRoundTripCodes`. */
  lemma GrpcRoundTrip(c: GrpcCode)
    ensures HTTPToGRPC(GRPCToHTTP(c)) == c <==> c in GrpcRoundTripCodes
  {
  }

  /** Unknown, AlreadyExists, FailedPrecondition, OutOfRange and DataLoss are not recovered. */
  lemma GrpcRoundTripLosses()
    ensures HTTPToGRPC(GRPCToHTTP(Unknown)) == Internal
    ensures HTTPToGRPC(GRPCToHTTP(AlreadyExists)) == Aborted
    ensures HTTPToGRPC(GRPCToHTTP(FailedPrecondition)) == InvalidArgument
    ensures HTTPToGRPC(GRPCToHTTP(OutOfRange)) == InvalidArgument
    ensures HTTPToGRPC(GRPCToHTTP(DataLoss)) == Internal
  {
  }

  /** HTTP -> gRPC -> HTTP returns the status exactly for the statuses of `HttpRange`; 422 comes back as 400. */
  lemma HttpRoundTrip(h: int)
    ensures GRPCToHTTP(HTTPToGRPC(h)) == h <==> h in HttpRange
    ensures GRPCToHTTP(HTTPToGRPC(422)) == 400
  {
  }
}
