/**
 * The standard application codes of codes.go, their registry of gRPC and HTTP
 * codes, and `NewStandardError`, which builds a flat error from the registry.
 */
module StandardCodes {
  import opened Wrappers
  import opened Converter
  import FlatErrors

  const UNKNOWN: string := "UNKNOWN"
  const INTERNAL: string := "INTERNAL"
  const UNAVAILABLE: string := "UNAVAILABLE"
  const TIMEOUT: string := "TIMEOUT"
  const CANCELLED: string := "CANCELLED"
  const INVALID_ARGUMENT: string := "INVALID_ARGUMENT"
  const FAILED_PRECONDITION: string := "FAILED_PRECONDITION"
  const OUT_OF_RANGE: string := "OUT_OF_RANGE"
  const UNAUTHENTICATED: string := "UNAUTHENTICATED"
  const PERMISSION_DENIED: string := "PERMISSION_DENIED"
  const NOT_FOUND: string := "NOT_FOUND"
  const ALREADY_EXISTS: string := "ALREADY_EXISTS"
  const RESOURCE_EXHAUSTED: string := "RESOURCE_EXHAUSTED"
  const ABORTED: string := "ABORTED"
  const DATA_LOSS: string := "DATA_LOSS"
  const DATA_VALIDATION: string := "DATA_VALIDATION"
  const BUSINESS_RULE: string := "BUSINESS_RULE"
  const CONFLICT: string := "CONFLICT"

  /** One registry entry. */
  datatype Mapping = Mapping(grpcCode: GrpcCode, httpCode: int)

  /** `StandardErrorMapping`. */
  const StandardErrorMapping: map<string, Mapping> := map[
    UNKNOWN := Mapping(Unknown, 500),
    INTERNAL := Mapping(Internal, 500),
    UNAVAILABLE := Mapping(Unavailable, 503),
    TIMEOUT := Mapping(DeadlineExceeded, 504),
    CANCELLED := Mapping(Canceled, 499),
    INVALID_ARGUMENT := Mapping(InvalidArgument, 400),
    FAILED_PRECONDITION := Mapping(FailedPrecondition, 400),
    OUT_OF_RANGE := Mapping(OutOfRange, 400),
    UNAUTHENTICATED := Mapping(Unauthenticated, 401),
    PERMISSION_DENIED := Mapping(PermissionDenied, 403),
    NOT_FOUND := Mapping(NotFound, 404),
    ALREADY_EXISTS := Mapping(AlreadyExists, 409),
    RESOURCE_EXHAUSTED := Mapping(ResourceExhausted, 429),
    ABORTED := Mapping(Aborted, 409),
    DATA_LOSS := Mapping(DataLoss, 500),
    DATA_VALIDATION := Mapping(InvalidArgument, 422),
    BUSINESS_RULE := Mapping(FailedPrecondition, 422),
    CONFLICT := Mapping(Aborted, 409)
  ]

  /**
   * The eighteen standard codes, listed by length and then by first letter,
   * which already tells them apart.
   */
  const StandardCodeList: seq<string> := [
    ABORTED,
    TIMEOUT,
    UNKNOWN,
    CONFLICT,
    INTERNAL,
    CANCELLED,
    DATA_LOSS,
    NOT_FOUND,
    UNAVAILABLE,
    OUT_OF_RANGE,
    BUSINESS_RULE,
    ALREADY_EXISTS,
    DATA_VALIDATION,
    UNAUTHENTICATED,
    INVALID_ARGUMENT,
    PERMISSION_DENIED,
    RESOURCE_EXHAUSTED,
    FAILED_PRECONDITION
  ]

  const StandardCodeNames: set<string> := set c | c in StandardCodeList

  /**
   * The lookup of `NewStandardError` in any value the registry variable may
   * hold: the entry for the code, else the UNKNOWN entry, else Go's zero
   * value for a missing key (code OK, HTTP 0).
   */
  function LookupIn(registry: map<string, Mapping>, code: string): (m: Mapping)
    ensures code in registry ==> m == registry[code]
    ensures code !in registry && UNKNOWN in registry ==> m == registry[UNKNOWN]
    ensures code !in registry && UNKNOWN !in registry ==> m == Mapping(OK, 0)
  {
    if code in registry then registry[code]
    else if UNKNOWN in registry then registry[UNKNOWN]
    else Mapping(OK, 0)
  }

  /** The lookup in the registry as declared, with the UNKNOWN fallback. */
  function Lookup(code: string): (m: Mapping)
    ensures code in StandardErrorMapping ==> m == StandardErrorMapping[code]
    ensures code !in StandardErrorMapping ==> m == Mapping(Unknown, 500)
  {
    LookupIn(StandardErrorMapping, code)
  }

  /**
   * `NewStandardError`: the code and message are stored verbatim, the two
   * status codes come from the registry, and there is no user reason, no
   * metadata and no cause.
   */
  method NewStandardError(code: string, message: string) returns (e: FlatErrors.StructuredError)
    ensures fresh(e)
    ensures e.State() == FlatErrors.FlatState(code, message, "", Lookup(code).grpcCode, Lookup(code).httpCode, None, None)
  {
    var mapping := Lookup(code);
    e := new FlatErrors.StructuredError(code, message, "", mapping.grpcCode, mapping.httpCode, None, None);
  }

  /** The registry holds exactly the eighteen standard codes, all distinct. */
  lemma RegistryKeys()
    ensures StandardErrorMapping.Keys == StandardCodeNames
  {
  }

  /** Length and first letter of a nonempty string. */
  function Tag(s: string): int
    requires |s| > 0
  {
    |s| * 256 + s[0] as int
  }

  /** Strings listed with strictly increasing tags. */
  ghost predicate TagSorted(s: seq<string>) {
    (forall i :: 0 <= i < |s| ==> |s[i]| > 0)
    && forall i :: 0 <= i < |s| - 1 ==> Tag(s[i]) < Tag(s[i + 1])
  }

  /** In such a list the first string's tag is below every later one. */
  lemma {:induction false} TagSortedHead(s: seq<string>)
    requires TagSorted(s) && |s| > 0
    ensures forall j :: 0 < j < |s| ==> Tag(s[0]) < Tag(s[j])
  {
    if |s| > 1 {
      TagSortedHead(s[1..]);
      forall j | 0 < j < |s| ensures Tag(s[0]) < Tag(s[j]) {
        if j > 1 { assert s[j] == s[1..][j - 1]; }
      }
    }
  }

  /** A list with strictly increasing tags has no repeated element. */
  lemma {:induction false} TagSortedCount(s: seq<string>)
    requires TagSorted(s)
    ensures |set c | c in s| == |s|
  {
    if s != [] {
      TagSortedHead(s);
      TagSortedCount(s[1..]);
      assert (set c | c in s) == {s[0]} + (set c | c in s[1..]);
    }
  }

  /** There are eighteen distinct standard codes. */
  lemma StandardCodeCount()
    ensures |StandardCodeNames| == 18
  {
    StandardCodeListSorted();
    TagSortedCount(StandardCodeList);
  }

  /** The list of standard codes is sorted by tag. */
  lemma StandardCodeListSorted()
    ensures TagSorted(StandardCodeList)
  {
    assert Tag(ABORTED) == 1857;
    assert Tag(TIMEOUT) == 1876;
    assert Tag(UNKNOWN) == 1877;
    assert Tag(CONFLICT) == 2115;
    assert Tag(INTERNAL) == 2121;
    assert Tag(CANCELLED) == 2371;
    assert Tag(DATA_LOSS) == 2372;
    assert Tag(NOT_FOUND) == 2382;
    assert Tag(UNAVAILABLE) == 2901;
    assert Tag(OUT_OF_RANGE) == 3151;
    assert Tag(BUSINESS_RULE) == 3394;
    assert Tag(ALREADY_EXISTS) == 3649;
    assert Tag(DATA_VALIDATION) == 3908;
    assert Tag(UNAUTHENTICATED) == 3925;
    assert Tag(INVALID_ARGUMENT) == 4169;
    assert Tag(PERMISSION_DENIED) == 4432;
    assert Tag(RESOURCE_EXHAUSTED) == 4690;
    assert Tag(FAILED_PRECONDITION) == 4934;
  }

  /** Every registry HTTP code is a client or server error status. */
  lemma RegistryHttpCodes(code: string)
    requires code in StandardErrorMapping
    ensures 400 <= StandardErrorMapping[code].httpCode < 600
  {
  }

  /**
   * Every entry's HTTP code is what the default converter gives for its gRPC
   * code, except DATA_VALIDATION and BUSINESS_RULE, which use 422 where the
   * converter yields 400.
   */
  lemma RegistryAgreesWithConverter(code: string)
    requires code in StandardErrorMapping
    ensures StandardErrorMapping[code].httpCode == GRPCToHTTP(StandardErrorMapping[code].grpcCode)
            <==> code != DATA_VALIDATION && code != BUSINESS_RULE
    ensures code == DATA_VALIDATION || code == BUSINESS_RULE ==>
            StandardErrorMapping[code].httpCode == 422 && GRPCToHTTP(StandardErrorMapping[code].grpcCode) == 400
  {
  }

  /** An unregistered code keeps its own string but gets the UNKNOWN entry's codes. */
  lemma UnregisteredFallsBack(code: string)
    requires code !in StandardCodeNames
    ensures Lookup(code) == StandardErrorMapping[UNKNOWN]
  {
    RegistryKeys();
  }
}
