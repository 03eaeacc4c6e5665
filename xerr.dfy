/**
 * The flat-field `StructuredError` of xerr.go: code, message and user reason
 * are plain fields, and the fluent setters update the receiver and return it.
 * codes.go and wrap.go build on this variant.
 */
module FlatErrors {
  import opened Wrappers
  import opened Converter
  import GoMaps
  import Render

  /**
   * A Go `error` value: a `*StructuredError`, or an error of another type,
   * given by what its `Error()` returns and what its `Unwrap()` returns.
   */
  datatype GoError =
    | Foreign(text: string, wrapped: Option<GoError>)
    | Structured(se: StructuredError)
  {
    function Frame(): set<object> {
      if Structured? then {se} else {}
    }

    /** `err.Error()`. */
    function Text(): string
      reads Frame()
    {
      if Foreign? then text else se.Error()
    }
  }

  /** Everything the accessors of a flat `StructuredError` report. */
  datatype FlatState = FlatState(
    code: string, message: string, reason: string,
    grpcCode: GrpcCode, httpCode: int,
    metadata: Option<map<string, string>>, cause: Option<GoError>)

  class StructuredError {
    var Code: string
    var Message: string
    var Reason: string
    var GRPCCode: GrpcCode
    var HTTPCode: int
    var Metadata: Option<map<string, string>>
    var Cause: Option<GoError>

    /** The composite literal `&StructuredError{...}`. */
    constructor (code: string, message: string, reason: string, grpcCode: GrpcCode, httpCode: int,
                 metadata: Option<map<string, string>>, cause: Option<GoError>)
      ensures State() == FlatState(code, message, reason, grpcCode, httpCode, metadata, cause)
    {
      Code := code;
      Message := message;
      Reason := reason;
      GRPCCode := grpcCode;
      HTTPCode := httpCode;
      Metadata := metadata;
      Cause := cause;
    }

    function GetCode(): string reads this { Code }
    function GetMessage(): string reads this { Message }
    function GetReason(): string reads this { Reason }
    function GetGRPCCode(): GrpcCode reads this { GRPCCode }
    function GetHTTPCode(): int reads this { HTTPCode }
    function GetMetadata(): Option<map<string, string>> reads this { Metadata }
    function GetCause(): Option<GoError> reads this { Cause }

    /** What the accessors report, as one value. */
    function State(): FlatState
      reads this
    {
      FlatState(GetCode(), GetMessage(), GetReason(), GetGRPCCode(), GetHTTPCode(), GetMetadata(), GetCause())
    }

    /** `Error()`: "[code] message". */
    function Error(): (s: string)
      reads this
      ensures |s| == |Code| + |Message| + 3 && s[0] == '[' && s[|Code| + 1..|Code| + 3] == "] "
      ensures s[1..|Code| + 1] == Code && s[|Code| + 3..] == Message
    {
      Render.Bracketed(Code, Message)
    }

    /** Sets the user-facing reason only; the message is a separate field. */
    method WithReason(reason: string) returns (self: StructuredError)
      modifies this`Reason
      ensures self == this && Reason == reason
    {
      Reason := reason;
      self := this;
    }

    method WithGRPCCode(code: GrpcCode) returns (self: StructuredError)
      modifies this`GRPCCode
      ensures self == this && GRPCCode == code
    {
      GRPCCode := code;
      self := this;
    }

    method WithHTTPCode(code: int) returns (self: StructuredError)
      modifies this`HTTPCode
      ensures self == this && HTTPCode == code
    {
      HTTPCode := code;
      self := this;
    }

    /** Allocates the map on first use, then sets one key. */
    method WithMetadata(key: string, value: string) returns (self: StructuredError)
      modifies this`Metadata
      ensures self == this
      ensures Metadata == Some(GoMaps.Store(old(Metadata), key, value))
    {
      Metadata := Some(GoMaps.Store(Metadata, key, value));
      self := this;
    }

    /** `Is`: the target is a `*StructuredError` with an equal `Code`. */
    predicate Is(target: GoError)
      reads this, target.Frame()
    {
      target.Structured? && Code == target.se.Code
    }

    /** `Unwrap`: the cause. */
    function Unwrap(): (c: Option<GoError>)
      reads this
      ensures c == GetCause()
    {
      Cause
    }
  }

  /** `New`: Unknown and 500, no user reason, no metadata, no cause. */
  method New(code: string, message: string) returns (e: StructuredError)
    ensures fresh(e)
    ensures e.State() == FlatState(code, message, "", Unknown, 500, None, None)
  {
    e := new StructuredError(code, message, "", Unknown, 500, None, None);
  }

  /** `NewWithHTTPAndGRPC`: both codes stored as given, with no check against the tables. */
  method NewWithHTTPAndGRPC(code: string, message: string, httpCode: int, grpcCode: GrpcCode)
    returns (e: StructuredError)
    ensures fresh(e)
    ensures e.State() == FlatState(code, message, "", grpcCode, httpCode, None, None)
  {
    e := new StructuredError(code, message, "", grpcCode, httpCode, None, None);
  }

  /** `Is` looks at the code alone: an equivalence over structured errors that ignores every other field. */
  lemma IsComparesCodeOnly(a: StructuredError, b: StructuredError, c: StructuredError, text: string, wrapped: Option<GoError>)
    ensures a.Is(Structured(b)) <==> a.State().code == b.State().code
    ensures a.Is(Structured(a))
    ensures a.Is(Structured(b)) <==> b.Is(Structured(a))
    ensures a.Is(Structured(b)) && b.Is(Structured(c)) ==> a.Is(Structured(c))
    ensures !a.Is(Foreign(text, wrapped))
  {
  }

  /** Two errors with a `]`-free code render alike exactly when code and message agree. */
  lemma ErrorDeterminesCodeAndMessage(a: StructuredError, b: StructuredError)
    requires ']' !in a.Code && ']' !in b.Code
    ensures a.Error() == b.Error() <==> a.Code == b.Code && a.Message == b.Message
  {
    if a.Error() == b.Error() {
      Render.BracketedInjective(a.Code, a.Message, b.Code, b.Message);
    }
  }
}
