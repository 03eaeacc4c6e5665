/**
 * The gRPC adapter of grpc.go: a `StructuredError` becomes a status carrying
 * an `ErrorInfo` and a `LocalizedMessage` detail, and a status becomes a fresh
 * `StructuredError` again.
 */
module GrpcAdapter {
  import opened Wrappers
  import opened Converter
  import opened ErrorDetails
  import opened Reasons
  import opened StructuredErrors
  import GoMaps

  /** A detail a status carries, as `Details()` returns it once unpacked. */
  datatype Detail =
    | InfoDetail(info: ErrorInfo)
    | LocalizedDetail(localized: LocalizedMessage)
    | OtherDetail(typeUrl: string)

  /** A `*status.Status` that is not nil. */
  datatype Status = Status(code: GrpcCode, message: string, details: seq<Detail>)

  /**
   * The status library's `WithDetails`, which is not part of this model: it
   * either accepts a detail for a status with a given code and returns a copy
   * with the detail appended, or refuses it and returns `onFailure` with an error.
   */
  datatype DetailsLibrary = DetailsLibrary(accepts: (GrpcCode, Detail) -> bool, onFailure: Option<Status>)

  /** `st.WithDetails(d)`: the new `*status.Status`, and whether the error was nil. */
  function WithDetails(lib: DetailsLibrary, st: Status, d: Detail): (r: (Option<Status>, bool))
    ensures r.1 <==> lib.accepts(st.code, d)
    ensures r.1 ==> r.0 == Some(st.(details := st.details + [d]))
    ensures !r.1 ==> r.0 == lib.onFailure
  {
    if lib.accepts(st.code, d) then (Some(st.(details := st.details + [d])), true)
    else (lib.onFailure, false)
  }

  /** The `ErrorInfo` the adapter attaches for `e`. */
  function InfoOf(e: StructuredError): Detail
    reads e, e.reason.Objects()
  {
    InfoDetail(ErrorInfo(e.GetCode(), LibraryDomain, e.Metadata.GetOr(map[])))
  }

  /** The `LocalizedMessage` the adapter attaches for `e`. */
  function LocalizedOf(e: StructuredError): Detail
    reads e, e.reason.Objects()
  {
    LocalizedDetail(LocalizedMessage("en-US", e.GetUserReason()))
  }

  /** The second half of `ToGRPCStatus`: attach the user reason when there is one. */
  function AddLocalized(lib: DetailsLibrary, st: Status, e: StructuredError): Option<Status>
    reads e, e.reason.Objects()
  {
    if e.GetUserReason() != "" then WithDetails(lib, st, LocalizedOf(e)).0 else Some(st)
  }

  /**
   * `ToGRPCStatus`. A nil metadata map has length zero, like an empty one.
   * Either the library refused a detail and its result is returned, or the
   * status keeps the error's gRPC code and message; the four lemmas below
   * give the result in every case.
   */
  function ToGRPCStatus(e: StructuredError, lib: DetailsLibrary): (r: Option<Status>)
    reads e, e.reason.Objects()
    ensures r == lib.onFailure || (r.Some? && r.value.code == e.GRPCCode && r.value.message == e.GetMessage())
  {
    var st := Status(e.GRPCCode, e.GetMessage(), []);
    if |e.Metadata.GetOr(map[])| > 0 then
      var (st1, ok) := WithDetails(lib, st, InfoOf(e));
      if !ok then st1 else AddLocalized(lib, st1.value, e)
    else
      AddLocalized(lib, st, e)
  }

  /** The details `ToGRPCStatus` attaches when the library accepts them. */
  function ExpectedDetails(e: StructuredError): seq<Detail>
    reads e, e.reason.Objects()
  {
    (if |e.Metadata.GetOr(map[])| > 0 then [InfoOf(e)] else [])
    + (if e.GetUserReason() != "" then [LocalizedOf(e)] else [])
  }

  /**
   * The library accepts the details `ToGRPCStatus` attaches for `e`: the
   * `ErrorInfo` when there is metadata, the `LocalizedMessage` when there is
   * a user reason. The status library refuses every detail on an OK status,
   * so this does not hold for every pair of code and detail.
   */
  predicate Accepted(e: StructuredError, lib: DetailsLibrary)
    reads e, e.reason.Objects()
  {
    (|e.Metadata.GetOr(map[])| > 0 ==> lib.accepts(e.GRPCCode, InfoOf(e)))
    && (e.GetUserReason() != "" ==> lib.accepts(e.GRPCCode, LocalizedOf(e)))
  }

  /**
   * When the library accepts the details it is given, the status keeps the gRPC code and
   * the message, and carries an `ErrorInfo` (reason = code, the library
   * domain, the metadata) exactly when there is metadata, followed by a
   * `LocalizedMessage` in "en-US" exactly when there is a user reason.
   */
  lemma ToGRPCStatusAccepted(e: StructuredError, lib: DetailsLibrary)
    requires Accepted(e, lib)
    ensures ToGRPCStatus(e, lib) == Some(Status(e.GRPCCode, e.GetMessage(), ExpectedDetails(e)))
  {
    var st := Status(e.GRPCCode, e.GetMessage(), []);
    if |e.Metadata.GetOr(map[])| > 0 {
      var st1 := st.(details := [InfoOf(e)]);
      assert st.details + [InfoOf(e)] == [InfoOf(e)];
      assert ToGRPCStatus(e, lib) == AddLocalized(lib, st1, e);
      if e.GetUserReason() != "" {
        assert ExpectedDetails(e) == [InfoOf(e)] + [LocalizedOf(e)];
      } else {
        assert ExpectedDetails(e) == [InfoOf(e)];
      }
    } else {
      assert st.details + [LocalizedOf(e)] == [LocalizedOf(e)];
      if e.GetUserReason() != "" {
        assert ExpectedDetails(e) == [LocalizedOf(e)];
      } else {
        assert ExpectedDetails(e) == [];
      }
    }
  }

  /** A refused `ErrorInfo` ends the conversion with what the library returned. */
  lemma ToGRPCStatusInfoRefused(e: StructuredError, lib: DetailsLibrary)
    requires |e.Metadata.GetOr(map[])| > 0 && !lib.accepts(e.GRPCCode, InfoOf(e))
    ensures ToGRPCStatus(e, lib) == lib.onFailure
  {
  }

  /** A refused `LocalizedMessage` also yields what the library returned; its error is dropped. */
  lemma ToGRPCStatusLocalizedRefused(e: StructuredError, lib: DetailsLibrary)
    requires |e.Metadata.GetOr(map[])| == 0 && e.GetUserReason() != ""
    requires !lib.accepts(e.GRPCCode, LocalizedOf(e))
    ensures ToGRPCStatus(e, lib) == lib.onFailure
  {
  }

  /**
   * An accepted `ErrorInfo` followed by a refused `LocalizedMessage` also
   * yields what the library returned for the second call.
   */
  lemma ToGRPCStatusLocalizedRefusedAfterInfo(e: StructuredError, lib: DetailsLibrary)
    requires |e.Metadata.GetOr(map[])| > 0 && lib.accepts(e.GRPCCode, InfoOf(e))
    requires e.GetUserReason() != "" && !lib.accepts(e.GRPCCode, LocalizedOf(e))
    ensures ToGRPCStatus(e, lib) == lib.onFailure
  {
  }

  /** What the detail loop of `FromGRPCStatus` has collected so far. */
  datatype Scan = Scan(code: string, userReason: string, metadata: map<string, string>)

  /** One iteration of the detail loop; other detail types are skipped. */
  function Step(s: Scan, d: Detail): Scan {
    match d
    case InfoDetail(info) => s.(code := info.reason, metadata := s.metadata + info.metadata)
    case LocalizedDetail(lm) => s.(userReason := lm.message)
    case OtherDetail(_) => s
  }

  /** The detail loop over `ds`, from the defaults "UNKNOWN", "" and an empty map. */
  function ScanSpec(ds: seq<Detail>): Scan
    decreases |ds|
  {
    if ds == [] then Scan("UNKNOWN", "", map[])
    else Step(ScanSpec(ds[..|ds| - 1]), ds[|ds| - 1])
  }

  /** No `ErrorInfo` after position `i`. */
  ghost predicate LastInfo(ds: seq<Detail>, i: int) {
    0 <= i < |ds| && ds[i].InfoDetail? && forall j :: i < j < |ds| ==> !ds[j].InfoDetail?
  }

  /** No `LocalizedMessage` after position `i`. */
  ghost predicate LastLocalized(ds: seq<Detail>, i: int) {
    0 <= i < |ds| && ds[i].LocalizedDetail? && forall j :: i < j < |ds| ==> !ds[j].LocalizedDetail?
  }

  /** The code comes from the last `ErrorInfo`, and is "UNKNOWN" without one. */
  lemma {:induction false} ScanCode(ds: seq<Detail>)
    ensures (forall i :: 0 <= i < |ds| ==> !ds[i].InfoDetail?) ==> ScanSpec(ds).code == "UNKNOWN"
    ensures forall i :: LastInfo(ds, i) ==> ScanSpec(ds).code == ds[i].info.reason
    decreases |ds|
  {
    if ds != [] {
      var init := ds[..|ds| - 1];
      var last := ds[|ds| - 1];
      ScanCode(init);
      assert ScanSpec(ds) == Step(ScanSpec(init), last);
      if last.InfoDetail? {
        assert ScanSpec(ds).code == last.info.reason;
        forall i | LastInfo(ds, i) ensures i == |ds| - 1 {
        }
      } else {
        assert ScanSpec(ds).code == ScanSpec(init).code;
        forall i | 0 <= i < |init| ensures init[i] == ds[i] {
        }
        forall i | LastInfo(ds, i) ensures LastInfo(init, i) {
          forall j | i < j < |init| ensures !init[j].InfoDetail? {
            assert init[j] == ds[j];
          }
        }
      }
    }
  }

  /** The user reason comes from the last `LocalizedMessage`, and is "" without one. */
  lemma {:induction false} ScanUserReason(ds: seq<Detail>)
    ensures (forall i :: 0 <= i < |ds| ==> !ds[i].LocalizedDetail?) ==> ScanSpec(ds).userReason == ""
    ensures forall i :: LastLocalized(ds, i) ==> ScanSpec(ds).userReason == ds[i].localized.message
    decreases |ds|
  {
    if ds != [] {
      var init := ds[..|ds| - 1];
      var last := ds[|ds| - 1];
      ScanUserReason(init);
      assert ScanSpec(ds) == Step(ScanSpec(init), last);
      if last.LocalizedDetail? {
        assert ScanSpec(ds).userReason == last.localized.message;
        forall i | LastLocalized(ds, i) ensures i == |ds| - 1 {
        }
      } else {
        assert ScanSpec(ds).userReason == ScanSpec(init).userReason;
        forall i | 0 <= i < |init| ensures init[i] == ds[i] {
        }
        forall i | LastLocalized(ds, i) ensures LastLocalized(init, i) {
          forall j | i < j < |init| ensures !init[j].LocalizedDetail? {
            assert init[j] == ds[j];
          }
        }
      }
    }
  }

  /** Some `ErrorInfo` in `ds` has key `k`. */
  ghost predicate HasKey(ds: seq<Detail>, k: string) {
    exists i :: 0 <= i < |ds| && ds[i].InfoDetail? && k in ds[i].info.metadata
  }

  /** No `ErrorInfo` after position `i` has key `k`. */
  ghost predicate LastWithKey(ds: seq<Detail>, i: int, k: string) {
    0 <= i < |ds| && ds[i].InfoDetail? && k in ds[i].info.metadata
    && forall j :: i < j < |ds| && ds[j].InfoDetail? ==> k !in ds[j].info.metadata
  }

  /**
   * The metadata merges every `ErrorInfo`: its keys are exactly theirs, and
   * each key holds the value from the last `ErrorInfo` that has it.
   */
  lemma {:induction false} ScanMetadata(ds: seq<Detail>)
    ensures forall k :: k in ScanSpec(ds).metadata <==> HasKey(ds, k)
    ensures forall i, k :: LastWithKey(ds, i, k) ==>
      k in ScanSpec(ds).metadata && ScanSpec(ds).metadata[k] == ds[i].info.metadata[k]
    decreases |ds|
  {
    if ds != [] {
      var init := ds[..|ds| - 1];
      var last := ds[|ds| - 1];
      ScanMetadata(init);
      forall k ensures k in ScanSpec(ds).metadata <==> HasKey(ds, k) {
        if HasKey(ds, k) && !(last.InfoDetail? && k in last.info.metadata) {
          var i :| 0 <= i < |ds| && ds[i].InfoDetail? && k in ds[i].info.metadata;
          assert init[i] == ds[i];
        }
        if HasKey(init, k) {
          var i :| 0 <= i < |init| && init[i].InfoDetail? && k in init[i].info.metadata;
          assert ds[i] == init[i];
        }
      }
      forall i, k | LastWithKey(ds, i, k) && i < |ds| - 1 ensures LastWithKey(init, i, k) {
        forall j | i < j < |init| && init[j].InfoDetail? ensures k !in init[j].info.metadata {
          assert init[j] == ds[j];
        }
      }
    }
  }

  /** A status with no recognised details yields the defaults. */
  lemma NoRecognisedDetails(ds: seq<Detail>)
    requires forall i :: 0 <= i < |ds| ==> ds[i].OtherDetail?
    ensures ScanSpec(ds) == Scan("UNKNOWN", "", map[])
  {
    ScanCode(ds);
    ScanUserReason(ds);
    ScanMetadata(ds);
    assert ScanSpec(ds).metadata == map[];
  }

  /** The detail loop of `FromGRPCStatus`. */
  method ScanDetails(ds: seq<Detail>) returns (code: string, userReason: string, metadata: map<string, string>)
    ensures Scan(code, userReason, metadata) == ScanSpec(ds)
  {
    code, userReason, metadata := "UNKNOWN", "", map[];
    var i := 0;
    while i < |ds|
      invariant 0 <= i <= |ds|
      invariant Scan(code, userReason, metadata) == ScanSpec(ds[..i])
    {
      assert ds[..i + 1][..i] == ds[..i];
      match ds[i] {
        case InfoDetail(info) =>
          code := info.reason;
          metadata := GoMaps.CopyEntries(metadata, info.metadata);
        case LocalizedDetail(lm) =>
          userReason := lm.message;
        case OtherDetail(_) =>
      }
      i := i + 1;
    }
    assert ds[..i] == ds;
  }

  /** `grpcToHTTPCode`, the adapter's own copy of the gRPC-to-HTTP table. */
  function GrpcToHttpCode(code: GrpcCode): (h: int)
    ensures h == 200 <==> code == OK
    ensures code != OK ==> 400 <= h < 600
  {
    match code
    case OK => 200
    case Canceled => 499
    case Unknown => 500
    case InvalidArgument => 400
    case DeadlineExceeded => 504
    case NotFound => 404
    case AlreadyExists => 409
    case PermissionDenied => 403
    case ResourceExhausted => 429
    case FailedPrecondition => 400
    case Aborted => 409
    case OutOfRange => 400
    case Unimplemented => 501
    case Internal => 500
    case Unavailable => 503
    case DataLoss => 500
    case Unauthenticated => 401
    case Other(_) => 500
  }

  /** The adapter's table agrees with the default converter on every code. */
  lemma GrpcToHttpCodeMatchesConverter(code: GrpcCode)
    ensures GrpcToHttpCode(code) == DefaultConverter.grpcToHttp(code)
    ensures GrpcToHttpCode(code) == GRPCToHTTP(code)
  {
  }

  /** What the error built by `FromGRPCStatus(st)` reports. */
  function StatusState(st: Status): ErrorState {
    var s := ScanSpec(st.details);
    ErrorState(s.code, st.message, s.userReason, st.code, GrpcToHttpCode(st.code),
               Some(s.metadata), "", None)
  }

  /** `FromGRPCStatus`: nil for a nil status, otherwise a fresh error. */
  method FromGRPCStatus(st: Option<Status>) returns (r: Option<StructuredError>)
    ensures st.None? <==> r.None?
    ensures r.Some? ==> fresh(r.value) && r.value.reason.Default? && fresh(r.value.reason.d)
    ensures r.Some? ==> r.value.State() == StatusState(st.value)
  {
    if st.None? {
      return None;
    }
    var code, userReason, metadata := ScanDetails(st.value.details);
    var reason := new DefaultReason(code, st.value.message);
    if userReason != "" {
      var _ := reason.WithReason(userReason);
    }
    var e := new StructuredError(Default(reason), st.value.code, GrpcToHttpCode(st.value.code),
                                 Some(metadata), "", None);
    r := Some(e);
  }

  /** The detail loop over one detail. */
  lemma ScanSingle(d: Detail)
    ensures ScanSpec([d]) == Step(Scan("UNKNOWN", "", map[]), d)
  {
    assert [d][..0] == [];
  }

  /** The detail loop over two details. */
  lemma ScanPair(d1: Detail, d2: Detail)
    ensures ScanSpec([d1, d2]) == Step(Step(Scan("UNKNOWN", "", map[]), d1), d2)
  {
    assert [d1, d2][..1] == [d1];
    ScanSingle(d1);
  }

  /**
   * The detail loop over what `ToGRPCStatus` attaches finds the code when
   * there is metadata (otherwise "UNKNOWN"), the user reason and the metadata.
   */
  lemma ScanExpected(e: StructuredError)
    ensures ScanSpec(ExpectedDetails(e)) == Scan(
      if |e.Metadata.GetOr(map[])| > 0 then e.GetCode() else "UNKNOWN",
      e.GetUserReason(), e.Metadata.GetOr(map[]))
  {
    var md := e.Metadata.GetOr(map[]);
    var init := Scan("UNKNOWN", "", map[]);
    var info := InfoOf(e);
    var loc := LocalizedOf(e);
    assert Step(init, info) == Scan(e.GetCode(), "", md) by {
      assert map[] + md == md;
    }
    if |md| > 0 {
      if e.GetUserReason() != "" {
        assert ExpectedDetails(e) == [info, loc];
        ScanPair(info, loc);
      } else {
        assert ExpectedDetails(e) == [info];
        ScanSingle(info);
      }
    } else {
      assert md == map[];
      if e.GetUserReason() != "" {
        assert ExpectedDetails(e) == [loc];
        ScanSingle(loc);
      } else {
        assert ExpectedDetails(e) == [];
      }
    }
  }

  /**
   * The round trip through a status whose library accepts the attached
   * details: message, user
   * reason and gRPC code come back; the code comes back only when there was
   * metadata to carry it (otherwise "UNKNOWN"); the metadata comes back as a
   * non-nil map; the HTTP code is recomputed from the gRPC code; the domain
   * and the cause are lost.
   */
  lemma GrpcRoundTrip(e: StructuredError, lib: DetailsLibrary)
    requires Accepted(e, lib)
    ensures ToGRPCStatus(e, lib).Some?
    ensures StatusState(ToGRPCStatus(e, lib).value) == ErrorState(
      if |e.Metadata.GetOr(map[])| > 0 then e.GetCode() else "UNKNOWN",
      e.GetMessage(), e.GetUserReason(), e.GRPCCode, GRPCToHTTP(e.GRPCCode),
      Some(e.Metadata.GetOr(map[])), "", None)
  {
    ToGRPCStatusAccepted(e, lib);
    ScanExpected(e);
    GrpcToHttpCodeMatchesConverter(e.GRPCCode);
  }
}
