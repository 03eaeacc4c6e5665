/** The payload shapes of google/rpc/error_details.proto that the adapters use. */
module ErrorDetails {

  /** The domain every `ErrorInfo` built by this library carries. */
  const LibraryDomain: string := "github.com/nduyhai/xerr"

  /** `ErrorInfo`: a proto map field, where nil and empty are the same. */
  datatype ErrorInfo = ErrorInfo(reason: string, domain: string, metadata: map<string, string>)

  datatype LocalizedMessage = LocalizedMessage(locale: string, message: string)

  datatype FieldViolation = FieldViolation(field: string, description: string)

  datatype BadRequest = BadRequest(fieldViolations: seq<FieldViolation>)

  /** `PreconditionFailure.Violation`; its proto field `type` is `violationType` here. */
  datatype PreconditionViolation = PreconditionViolation(violationType: string, subject: string, description: string)

  datatype PreconditionFailure = PreconditionFailure(violations: seq<PreconditionViolation>)
}
