# xerr in Dafny

A model of the Go library xerr (github.com/nduyhai/xerr), proved in Dafny.
xerr gives services one structured error type. It carries an application
code and a developer message, plus a user-facing reason, a gRPC status code,
an HTTP status code, string metadata, a domain and a wrapped cause. It adds
adapters that turn such an error into a gRPC status or an HTTP JSON body,
and back again.

The repository ships three variants of the error type, and each is modelled:

- **The Reason-based `StructuredError`** of structured_error.go, in
  module `StructuredErrors`. Code, message and user reason live in a
  `Reason` value, by default a shared, mutable `*DefaultReason` (module
  `Reasons`). The gRPC adapter of grpc.go (`GrpcAdapter`) and the HTTP
  adapter of http.go (`HttpAdapter`) work on this type.
- **The flat `StructuredError`** of xerr.go, in module `FlatErrors`. Code,
  message and reason are plain fields here. The registry `NewStandardError`
  of codes.go (`StandardCodes`) and `Wrap`/`WrapDefault` of wrap.go
  (`Wrapping`) use this type because they write `Code` and `Message`
  directly.
- **The subpackage `StructuredError`** of xerr/xerr.go, in module
  `SubXerr`. It is flat and has no cause. The detail codec of
  xerr/details.go (`SubDetails`) and the HTTP adapter of xerr/http.go
  (`SubHttp`) work on it.

The supporting modules are:

- `Converter`: the gRPC/HTTP status tables of converter.go.
- `GoMaps`: Go's lazily allocated map writes and its `range` copy loops.
- `Render`: the `"[code] message"` rendering every variant uses.
- `ErrorDetails`: the proto payload shapes.
- `HttpWire`: the JSON record, including what `omitempty` drops.
- `Wrappers`: `Option` and `Result`.

How Go's shapes are modelled:

- **Types used through `*T` are classes.** Their fluent setters are methods that change only their own field and return the receiver. The one exception is `StructuredErrors.StructuredError.WithReason`: it updates a `DefaultReason` in place, and that reason may be shared with other errors.
- **A Go `error` is a datatype.** It is either a `*StructuredError` or a foreign error, given by the text its `Error()` returns and the error its `Unwrap()` returns. A nil map or nil error is `None`, so nil and empty stay distinct.
- **Map loops are `while` loops.** Go visits map keys in no fixed order, so each loop picks its next key nondeterministically, and results built from a map are stated as sets.

Code versus comments: the comment at converter.go:10-16 says that
`FromHTTPJSON`, `WriteHTTPError` and `FromGRPCStatus` use the
`CodeConverter`. The code does not: http.go, grpc.go and xerr/http.go each
carry their own copy of the tables. The model follows the code. It proves
that each copy equals the default converter (`HttpAdapter.HttpToGrpcCodeMatchesConverter`,
`GrpcAdapter.GrpcToHttpCodeMatchesConverter`, `SubHttp.HttpToGrpcCodeMatchesConverter`),
so replacing `DefaultConverter` has no effect on them.

## Model

| member | source | states |
|---|---|---|
| Converter.HTTPToGRPC | converter.go:48-82 | OK exactly for 2xx; InvalidArgument exactly for 400 and the unlisted 4xx statuses; Unknown exactly for statuses outside 2xx/4xx other than 500, 501, 503, 504; never an unnamed code |
| Converter.GRPCToHTTP | converter.go:85-124 | every code, named or not, maps into the twelve-status `HttpRange`; an unnamed code maps to 500 |
| Converter.DocumentedHttpToGrpc | converter.go:29-42 | every row of the documented HTTP-to-gRPC mapping holds |
| Converter.HttpToGrpcFallbacks | converter.go:76-81 | for every status: a 4xx other than 400, 401, 403, 404, 409, 422, 429 and 499 gives InvalidArgument; every status below 200, every 3xx, every 5xx other than 500, 501, 503 and 504, and every status from 600 up gives Unknown |
| Converter.GrpcToHttpRangeExact | converter.go:85-124 | a status is produced by some gRPC code exactly when it is in `HttpRange` |
| Converter.GrpcRoundTrip | converter.go:48-124 | gRPC -> HTTP -> gRPC returns the code for exactly the twelve codes of `GrpcRoundTripCodes` |
| Converter.GrpcRoundTripLosses | converter.go:48-124 | Unknown and DataLoss come back as Internal; AlreadyExists comes back as Aborted; FailedPrecondition and OutOfRange come back as InvalidArgument |
| Converter.HttpRoundTrip | converter.go:48-124 | HTTP -> gRPC -> HTTP returns the status exactly for the statuses in `HttpRange`; 422 comes back as 400 |
| StandardCodes.LookupIn | codes.go:70-74 | for any registry value: the code's entry when registered, else the UNKNOWN entry, else the zero entry (OK, 0) when UNKNOWN is missing too |
| StandardCodes.Lookup | codes.go:70-74 | a registered code gets its registry entry; any other code gets (Unknown, 500) |
| StandardCodes.NewStandardError | codes.go:69-82 | a fresh flat error with the code and message verbatim, the looked-up gRPC and HTTP codes, and no reason, metadata or cause |
| StandardCodes.RegistryKeys | codes.go:11-64 | the registry's keys are exactly the eighteen standard code constants |
| StandardCodes.TagSortedCount | codes.go:11-34 | a list of strings with strictly increasing (length, first letter) tags has no repeats |
| StandardCodes.StandardCodeListSorted | codes.go:11-34 | the list of the eighteen standard codes has strictly increasing tags |
| StandardCodes.StandardCodeCount | codes.go:11-34 | the eighteen standard codes are pairwise distinct |
| StandardCodes.RegistryHttpCodes | codes.go:43-63 | every registered HTTP code lies in [400, 600) |
| StandardCodes.RegistryAgreesWithConverter | codes.go:43-63 | an entry's HTTP code equals the converter's status for its gRPC code, except for DATA_VALIDATION and BUSINESS_RULE, which use 422 where the converter gives 400 |
| StandardCodes.UnregisteredFallsBack | codes.go:70-74 | a code outside the standard set gets the UNKNOWN entry |
| Reasons.DefaultReason.constructor | reason_default.go:12-17 | code and message as given, empty user reason |
| Reasons.DefaultReason.Code | reason_default.go:20-22 | the stored code, as the constructor and `WithReason` state it |
| Reasons.DefaultReason.Message | reason_default.go:25-27 | the stored message, as the constructor and `WithReason` state it |
| Reasons.DefaultReason.Reason | reason_default.go:30-32 | the stored user reason, as the constructor and `WithReason` state it |
| Reasons.DefaultReason.WithReason | reason_default.go:35-38 | sets the user reason in place, keeps code and message, returns the receiver |
| Reasons.LastWithReasonWins | reason_default.go:35-38 | after two `WithReason` calls the reason set last remains; code and message are unchanged |
| StructuredErrors.StructuredError.constructor | structured_error.go:12-19 | every field holds the value given |
| StructuredErrors.StructuredError.GetReason | structured_error.go:24-26 | the reason reference itself, so a shared `DefaultReason` is returned, not copied |
| StructuredErrors.StructuredError.GetCode | structured_error.go:29-34 | "" with no reason, otherwise the reason's code (`NilReasonAccessors`) |
| StructuredErrors.StructuredError.GetMessage | structured_error.go:37-42 | "" with no reason, otherwise the reason's message (`NilReasonAccessors`) |
| StructuredErrors.StructuredError.GetUserReason | structured_error.go:45-50 | "" with no reason, otherwise the reason's user reason (`NilReasonAccessors`) |
| StructuredErrors.StructuredError.GetGRPCCode | structured_error.go:53-55 | the stored gRPC code |
| StructuredErrors.StructuredError.GetHTTPCode | structured_error.go:58-60 | the stored HTTP code |
| StructuredErrors.StructuredError.GetMetadata | structured_error.go:63-65 | the stored map, nil kept distinct from empty |
| StructuredErrors.StructuredError.GetCause | structured_error.go:68-70 | the stored cause, nil kept as `None` |
| StructuredErrors.StructuredError.Error | structured_error.go:73-78 | "unknown error" exactly when there is no reason; otherwise '[', the reason's code, "] ", then the reason's message |
| StructuredErrors.StructuredError.WithReason | structured_error.go:87-96 | a `DefaultReason` is updated in place; any other reason is replaced by a fresh `DefaultReason` keeping the old code and message; the user reason becomes the argument; every other field is unchanged |
| StructuredErrors.StructuredError.WithCustomReason | structured_error.go:100-103 | replaces the reason only and returns the receiver |
| StructuredErrors.StructuredError.WithGRPCCode | structured_error.go:106-109 | sets the gRPC code only and returns the receiver |
| StructuredErrors.StructuredError.WithHTTPCode | structured_error.go:112-115 | sets the HTTP code only and returns the receiver |
| StructuredErrors.StructuredError.WithMetadata | structured_error.go:118-124 | allocates the map if nil, sets the key, leaves every other key unchanged |
| StructuredErrors.StructuredError.Unwrap | structured_error.go:135-137 | returns exactly what `GetCause` returns |
| StructuredErrors.StructuredError.Is | structured_error.go:127-132 | a `*StructuredError` target with the same `GetCode()` matches and nothing else does (`IsComparesCodeOnly`, `IsRejectsForeign`, `IsEquivalence`) |
| StructuredErrors.NewWithHTTPAndGRPC | structured_error.go:141-147 | a fresh error with a fresh `DefaultReason`; both status codes are stored as given, with no check against the tables; no metadata, domain or cause |
| StructuredErrors.New | structured_error.go:82-84 | `NewWithHTTPAndGRPC` with HTTP 500 and gRPC Unknown |
| StructuredErrors.WithReasonOnSharedReason | structured_error.go:87-96 | `WithReason` on one error is seen by a second error sharing its `DefaultReason` |
| StructuredErrors.NilReasonAccessors | structured_error.go:29-50 | with no reason, code, message and user reason are "" and `Error()` is "unknown error" |
| StructuredErrors.IsComparesCodeOnly | structured_error.go:127-132 | `Is` on a structured target holds exactly when the codes are equal |
| StructuredErrors.IsRejectsForeign | structured_error.go:127-132 | no foreign error matches |
| StructuredErrors.IsEquivalence | structured_error.go:127-132 | on structured errors `Is` is reflexive, symmetric and transitive |
| GoMaps.Store | structured_error.go:118-124 | the key holds the value; every other key and value is the old map's |
| GoMaps.WithPrefix | xerr/details.go:32 | each entry of the source appears under the prefixed key |
| GoMaps.WithPrefixAt | xerr/details.go:32 | every key of the prefixed copy is a prefixed source key holding that key's value |
| GoMaps.CopyPrefixed | xerr/details.go:31-33 | the copy loop yields the old map overridden by the prefixed source, whatever order it visits the keys in |
| GoMaps.CopyEntries | xerr/details.go:15-17 | the copy loop yields the old map overridden by the source, whatever order it visits the keys in |
| Render.Bracketed | xerr.go:115-117 | the rendering is '[', the code, "] ", then the message |
| Render.BracketedInjective | xerr.go:115-117 | for codes without ']', equal renderings mean equal codes and equal messages |
| FlatErrors.StructuredError.constructor | xerr.go:67-75 | every field holds the value given |
| FlatErrors.StructuredError.GetCode | xerr.go:80-82 | the stored code |
| FlatErrors.StructuredError.GetMessage | xerr.go:85-87 | the stored message |
| FlatErrors.StructuredError.GetReason | xerr.go:90-92 | the stored user reason |
| FlatErrors.StructuredError.GetGRPCCode | xerr.go:95-97 | the stored gRPC code |
| FlatErrors.StructuredError.GetHTTPCode | xerr.go:100-102 | the stored HTTP code |
| FlatErrors.StructuredError.GetMetadata | xerr.go:105-107 | the stored map, nil kept distinct from empty |
| FlatErrors.StructuredError.GetCause | xerr.go:110-112 | the stored cause, nil kept as `None` |
| FlatErrors.StructuredError.Error | xerr.go:115-117 | "[" + Code + "] " + Message, given by its parts |
| FlatErrors.StructuredError.WithReason | xerr.go:131-134 | sets the reason field only and returns the receiver |
| FlatErrors.StructuredError.WithGRPCCode | xerr.go:137-140 | sets the gRPC code only and returns the receiver |
| FlatErrors.StructuredError.WithHTTPCode | xerr.go:143-146 | sets the HTTP code only and returns the receiver |
| FlatErrors.StructuredError.WithMetadata | xerr.go:149-155 | allocates the map if nil and sets the key |
| FlatErrors.StructuredError.Unwrap | xerr.go:166-168 | returns the cause, like `GetCause` |
| FlatErrors.StructuredError.Is | xerr.go:158-163 | a `*StructuredError` target with the same code field matches and nothing else does (`IsComparesCodeOnly`) |
| FlatErrors.New | xerr.go:121-128 | a fresh error with Unknown, 500, and no reason, metadata or cause |
| FlatErrors.NewWithHTTPAndGRPC | xerr.go:172-179 | a fresh error with both status codes as given |
| FlatErrors.IsComparesCodeOnly | xerr.go:158-163 | `Is` holds exactly for structured targets with an equal code; it is an equivalence and rejects foreign errors |
| FlatErrors.ErrorDeterminesCodeAndMessage | xerr.go:115-117 | for codes without ']', two errors render alike exactly when code and message agree |
| Wrapping.FindStructured | wrap.go:16-17 | the `errors.As` walk down plain wrapping errors; what it finds and when it finds nothing is `FindStructuredFirst` |
| Wrapping.FindStructuredFirst | wrap.go:16-17 | what the chain search finds is the first `*StructuredError` down the `Unwrap` chain; it finds nothing only when the chain holds none |
| Wrapping.Wrap | wrap.go:10-28 | nil gives nil; a found structured error gets the new code in place and is returned with every other field unchanged; otherwise a fresh error with the error's text, Unknown, 500 and the error as cause |
| Wrapping.WrapDefault | wrap.go:32-34 | `Wrap` with the UNKNOWN code, with the same three cases |
| Wrapping.FindsDirect | wrap.go:16-17 | a `*StructuredError` itself is found |
| Wrapping.FindsThroughWrappers | wrap.go:16-17 | a `*StructuredError` under any number of plain wrapping errors is found |
| GrpcAdapter.WithDetails | grpc.go:15-29 | an accepted detail is appended to a copy of the status; a refused one yields the library's failure value |
| GrpcAdapter.ToGRPCStatus | grpc.go:11-44 | either the library's failure value or a status with the error's gRPC code and message; the exact result in every case is given by `ToGRPCStatusAccepted`, `ToGRPCStatusInfoRefused`, `ToGRPCStatusLocalizedRefused` and `ToGRPCStatusLocalizedRefusedAfterInfo` |
| GrpcAdapter.ToGRPCStatusAccepted | grpc.go:11-44 | when the library accepts the details attached for this error (not every detail: it refuses all of them on OK), the status keeps the gRPC code and message; it carries an `ErrorInfo` (code, library domain, metadata) exactly when there is metadata, then a "en-US" `LocalizedMessage` exactly when there is a user reason |
| GrpcAdapter.ToGRPCStatusInfoRefused | grpc.go:22-28 | a refused `ErrorInfo` ends the conversion with what the library returned |
| GrpcAdapter.ToGRPCStatusLocalizedRefused | grpc.go:32-41 | with no metadata, a refused `LocalizedMessage` gives what the library returned, and its error is dropped |
| GrpcAdapter.ToGRPCStatusLocalizedRefusedAfterInfo | grpc.go:15-41 | an accepted `ErrorInfo` followed by a refused `LocalizedMessage` gives what the library returned for the second call |
| GrpcAdapter.ScanCode | grpc.go:63-65 | the code is the reason of the last `ErrorInfo`, or "UNKNOWN" without one |
| GrpcAdapter.ScanUserReason | grpc.go:72-74 | the user reason is the message of the last `LocalizedMessage`, or "" without one |
| GrpcAdapter.ScanMetadata | grpc.go:67-70 | the metadata keys are exactly those of all `ErrorInfo` details; each key holds the value of the last `ErrorInfo` that has it |
| GrpcAdapter.NoRecognisedDetails | grpc.go:55-58 | with no recognised detail: code "UNKNOWN", empty user reason, empty non-nil metadata |
| GrpcAdapter.ScanDetails | grpc.go:61-76 | the detail loop computes the specification `ScanSpec` of the details |
| GrpcAdapter.GrpcToHttpCode | grpc.go:104-143 | 200 exactly for OK; every other code, named or not, gives a 4xx or 5xx status |
| GrpcAdapter.GrpcToHttpCodeMatchesConverter | grpc.go:104-143 | the adapter's table equals the default converter on every code |
| GrpcAdapter.FromGRPCStatus | grpc.go:49-90 | nil exactly for nil; otherwise a fresh error: the scanned code, user reason and metadata, the status message and code, the HTTP code from the table, no domain or cause |
| GrpcAdapter.ScanExpected | grpc.go:61-76 | the detail loop over what `ToGRPCStatus` attaches finds the code when there is metadata (else "UNKNOWN"), the user reason and the metadata |
| GrpcAdapter.GrpcRoundTrip | grpc.go:11-90 | when the library accepts the details attached for this error: message, user reason and gRPC code return; the code returns only with nonempty metadata, else "UNKNOWN"; metadata returns non-nil; HTTP is recomputed; domain and cause are lost |
| HttpWire.WireKeys | http.go:12-17 | code and message are always written; reason exactly when nonempty; metadata exactly when non-nil and nonempty |
| HttpWire.JsonTransitKeeps | http.go:12-17 | the JSON round trip keeps code, message, reason and nonempty metadata; empty metadata comes back nil; a second trip changes nothing |
| HttpAdapter.Body | http.go:43-48 | the record holds the code, message, user reason and metadata of the error |
| HttpAdapter.ToHTTPJSON | http.go:42-52 | the record and the error's HTTP code |
| HttpAdapter.ToHTTP | http.go:21-38 | a JSON response with the error's HTTP code and its record |
| HttpAdapter.HttpToGrpcCode | http.go:77-111 | OK exactly for 2xx; always a named code |
| HttpAdapter.HttpToGrpcCodeMatchesConverter | http.go:77-111 | the adapter's table equals the default converter on every status |
| HttpAdapter.FromHTTPJSON | http.go:56-74 | a decode failure is passed through with no error built; otherwise a fresh error with code and message from the body, a user reason only when nonempty, the body's metadata, the status as HTTP code and the derived gRPC code |
| HttpAdapter.HttpRoundTrip | http.go:42-74 | the JSON round trip keeps code, message, user reason, HTTP code and nonempty metadata; the gRPC code is derived from HTTP; domain and cause are lost |
| HttpAdapter.WriteHTTPError | http.go:116-122 | the error's gRPC code is derived from the HTTP code; the response carries that status and the record |
| HttpAdapter.WriteStandardHTTPError | http.go:126-139 | the error is built by `New`, not from the registry, so the status is always 500 and the gRPC code Unknown |
| SubXerr.StructuredError.constructor | xerr/xerr.go:11-18 | every field holds the value given |
| SubXerr.StructuredError.Error | xerr/xerr.go:21-23 | "[" + Code + "] " + Message, given by its parts |
| SubXerr.StructuredError.WithReason | xerr/xerr.go:36-39 | sets the reason only and returns the receiver |
| SubXerr.StructuredError.WithGRPCCode | xerr/xerr.go:42-45 | sets the gRPC code only and returns the receiver |
| SubXerr.StructuredError.WithHTTPCode | xerr/xerr.go:48-51 | sets the HTTP code only and returns the receiver |
| SubXerr.StructuredError.WithMetadata | xerr/xerr.go:54-60 | allocates the map if nil and sets the key |
| SubXerr.New | xerr/xerr.go:26-33 | a fresh error with Unknown, 500, and no reason or metadata |
| SubXerr.NewWithHTTPAndGRPC | xerr/xerr.go:91-98 | a fresh error with both status codes as given |
| SubXerr.Wrap | xerr/xerr.go:63-80 | nil gives nil; a direct `*StructuredError` gets the new code in place and is returned; any other error, even one wrapping a structured error, gives a fresh error with its text, Unknown and 500, without keeping the original |
| SubXerr.IsComparesCodeOnly | xerr/xerr.go:83-88 | `Is` holds exactly for structured targets with an equal code; it is an equivalence and rejects foreign errors |
| SubXerr.StructuredError.Is | xerr/xerr.go:83-88 | a `*StructuredError` target with the same code field matches and nothing else does (`IsComparesCodeOnly`) |
| SubDetails.WithErrorInfo | xerr/details.go:9-21 | nil metadata changes nothing; otherwise every entry is copied in unprefixed, overriding clashes; the domain is ignored |
| SubDetails.WithBadRequest | xerr/details.go:25-37 | nil changes nothing; otherwise each violation is stored under "field:" + its field name over the old metadata |
| SubDetails.WithPreconditionFailure | xerr/details.go:80-92 | nil changes nothing; otherwise each violation is stored under "precondition:" + its subject over the old metadata |
| SubDetails.GetErrorInfo | xerr/details.go:41-47 | the code as reason, the library domain, and the whole metadata map, prefixed keys included |
| SubDetails.GetBadRequest | xerr/details.go:51-76 | nil exactly when there is no metadata or no "field:" key with a nonempty name; otherwise the violations are exactly those keys' (name, value) pairs, none listed twice |
| SubDetails.GetPreconditionFailure | xerr/details.go:96-122 | nil exactly when there is no metadata or no "precondition:" key with a nonempty subject; otherwise exactly those keys as PRECONDITION_FAILURE violations, none listed twice |
| SubDetails.PrefixSplit | xerr/details.go:60-61 | a prefixed key is the prefix followed by the part cut off after it |
| SubDetails.PrefixJoin | xerr/details.go:32 | a nonempty name after the prefix makes a key the unfold recognises and cuts back to the name |
| SubDetails.FoldUnfoldBadRequest | xerr/details.go:25-76 | over metadata without "field:" keys, folding then unfolding yields exactly the entries with a nonempty field name |
| SubDetails.FoldUnfoldPreconditionFailure | xerr/details.go:80-122 | the same for precondition violations, each of type PRECONDITION_FAILURE |
| SubDetails.PrefixesDisjoint | xerr/details.go:60 | no key is both a field key and a precondition key; a bare prefix is neither |
| SubDetails.UnprefixedKeysIgnored | xerr/details.go:60 | a key with neither prefix yields no violation of either kind |
| SubHttp.Body | xerr/http.go:42-47 | the record holds Code, Message, Reason and Metadata verbatim |
| SubHttp.ToHTTPJSON | xerr/http.go:41-51 | the record and the HTTP code |
| SubHttp.ToHTTP | xerr/http.go:20-37 | a JSON response with the HTTP code and the record |
| SubHttp.HttpToGrpcCode | xerr/http.go:71-105 | OK exactly for 2xx; always a named code |
| SubHttp.HttpToGrpcCodeMatchesConverter | xerr/http.go:71-105 | the subpackage's table equals the root `HTTPToGRPC` on every status |
| SubHttp.FromHTTPJSON | xerr/http.go:54-68 | a decode failure is passed through with no error built; otherwise a fresh error with the four body fields verbatim, the status as HTTP code and the derived gRPC code |
| SubHttp.HttpRoundTrip | xerr/http.go:41-68 | the JSON round trip keeps Code, Message, Reason, HTTP code and nonempty metadata; the gRPC code is derived from HTTP |
| SubHttp.WriteHTTPError | xerr/http.go:109-116 | the error keeps the zero gRPC code OK instead of deriving one; the response carries the status and the record |

## Left out

- **Response writing.** `ToHTTP` and the `Write*` helpers write to a response writer, which is I/O. Each is modelled as the `Response` value it writes: content type, status and body.
- **JSON.** `encoding/json` is not part of this model. The `HTTPError` record stands for its bytes. `omitempty` is modelled by `HttpWire.WireKeys`. A decode error is an opaque `Failure` value. Invalid UTF-8 replacement and byte-level formatting are not modelled.
- **The gRPC status library.** `status.New`, `WithDetails`, `Details()` and `Any` packing are not part of this model. `WithDetails` is a parameter that either appends or refuses a detail. What it returns on refusal is left to the parameter, because grpc.go overwrites `st` before checking the error.
- **Proto aliases.** `ToGRPCStatusProto` and `FromGRPCStatusProto` (grpc.go:93-101) only forward to the modelled functions, so they have no members of their own.
- **The `errors.As` chain.** Its walk is modelled over single-`Unwrap` chains. Multi-error `Unwrap() []error` and custom `As` methods are not modelled.
- **The global `DefaultConverter`.** Hot-swapping the variable and concurrency are not modelled. `Converter.DefaultConverter` is its initial value.
- **Interface files.** error.go and reason.go only declare interfaces; they have no behaviour to model.
- **Custom `Reason` types.** A custom implementation is modelled as three fixed strings, because its methods are code that is not part of this model.
- **Map order.** The order in which Go visits map keys is not modelled. Unfolded violation lists are stated as sets, not sequences.
- **xerr/http.go `WriteStandardHTTPError`.** It calls a `NewStandardError` of the xerr/ package whose definition lies outside the modelled files, so the subpackage variant is not modelled.
- **errorinfo_test.go.** It expects `WithErrorInfo` on the root type and a domain that survives the gRPC round trip. The definition of a root-package `WithErrorInfo` lies outside the modelled files. xerr/details.go ignores the domain, and grpc.go fixes it to the library domain and never sets `Domain` on the way back. The model follows the code.
- **Bytes.** Strings are sequences of characters, standing for Go's byte strings. Multi-byte runes are not distinguished.
- **Samples.** The programs under samples/ only print, so they are modelled only as usage.
- **Map aliasing.** A Go map is a reference, but `Metadata` is modelled as a map value. `WithMetadata` of all three variants and `SubDetails.WithErrorInfo`, `WithBadRequest` and `WithPreconditionFailure` update the map in place in Go, and `GetMetadata` and `SubDetails.GetErrorInfo` hand out that same map. So a caller holding the map, or a second error built from it, sees later writes in Go; the model does not capture that sharing, only each error's own map after each call.
- StandardCodes.Lookup and StandardCodes.NewStandardError: they use the registry as declared. Go's `StandardErrorMapping` is a package variable that callers may reassign or edit; that is not modelled, so `Lookup`, `RegistryKeys`, `RegistryAgreesWithConverter` and `UnregisteredFallsBack` speak of the declared table only. `StandardCodes.LookupIn` gives the lookup for any other table value, including one without UNKNOWN.
- Wrapping.Wrap and SubXerr.Wrap: a typed-nil `*StructuredError` stored in a non-nil `error` passes `errors.As` or the type assertion, and the write to its code then panics (wrap.go:16-18, xerr/xerr.go:68-71). A structured `GoError` always holds an object, so that panic is not modelled.
