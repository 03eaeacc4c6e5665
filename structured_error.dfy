/**
 * The Reason-based `StructuredError` of structured_error.go: a `*StructuredError`
 * whose fluent setters update the receiver and return it.
 */
module StructuredErrors {
  import opened Wrappers
  import opened Converter
  import opened Reasons
  import GoMaps
  import Render

  /**
   * What the `reason` field (a `Reason` interface value) can hold: nil, a
   * `*DefaultReason` (possibly shared with other errors), or some other
   * implementation, whose three accessors return fixed strings.
   */
  datatype ReasonRef =
    | NoReason
    | Default(d: DefaultReason)
    | Custom(code: string, message: string, userReason: string)
  {
    /** The objects the accessors read. */
    function Objects(): set<object> {
      if Default? then {d} else {}
    }
  }

  /**
   * A Go `error` value: a `*StructuredError`, or an error of another type,
   * given by what its `Error()` returns and what its `Unwrap()` returns.
   */
  datatype GoError =
    | Foreign(text: string, wrapped: Option<GoError>)
    | Structured(se: StructuredError)
  {
    function Frame(): set<object>
      reads if Structured? then {se} else {}
    {
      if Structured? then {se} + se.reason.Objects() else {}
    }
  }

  /** Everything the accessors of a `StructuredError` report. */
  datatype ErrorState = ErrorState(
    code: string, message: string, userReason: string,
    grpcCode: GrpcCode, httpCode: int,
    metadata: Option<map<string, string>>, domain: string, cause: Option<GoError>)

  class StructuredError {
    var reason: ReasonRef
    var GRPCCode: GrpcCode
    var HTTPCode: int
    var Metadata: Option<map<string, string>>
    var Domain: string
    var Cause: Option<GoError>

    /** The composite literal `&StructuredError{...}`. */
    constructor (reason: ReasonRef, grpcCode: GrpcCode, httpCode: int,
                 metadata: Option<map<string, string>>, domain: string, cause: Option<GoError>)
      ensures this.reason == reason && GRPCCode == grpcCode && HTTPCode == httpCode
      ensures Metadata == metadata && Domain == domain && Cause == cause
    {
      this.reason := reason;
      GRPCCode := grpcCode;
      HTTPCode := httpCode;
      Metadata := metadata;
      Domain := domain;
      Cause := cause;
    }

    function GetReason(): ReasonRef
      reads this
    {
      reason
    }

    function GetCode(): string
      reads this, reason.Objects()
    {
      match reason
      case NoReason => ""
      case Default(d) => d.Code()
      case Custom(code, _, _) => code
    }

    function GetMessage(): string
      reads this, reason.Objects()
    {
      match reason
      case NoReason => ""
      case Default(d) => d.Message()
      case Custom(_, message, _) => message
    }

    function GetUserReason(): string
      reads this, reason.Objects()
    {
      match reason
      case NoReason => ""
      case Default(d) => d.Reason()
      case Custom(_, _, userReason) => userReason
    }

    function GetGRPCCode(): GrpcCode
      reads this
    {
      GRPCCode
    }

    function GetHTTPCode(): int
      reads this
    {
      HTTPCode
    }

    function GetMetadata(): Option<map<string, string>>
      reads this
    {
      Metadata
    }

    function GetCause(): Option<GoError>
      reads this
    {
      Cause
    }

    /** What the accessors report, as one value. */
    function State(): ErrorState
      reads this, reason.Objects()
    {
      ErrorState(GetCode(), GetMessage(), GetUserReason(), GRPCCode, HTTPCode, Metadata, Domain, Cause)
    }

    /**
     * `Error()`: "[code] message", or the placeholder "unknown error" when no
     * reason is set; the placeholder is never the rendering of a reason.
     */
    function Error(): (s: string)
      reads this, reason.Objects()
      ensures s == "unknown error" <==> reason.NoReason?
      ensures !reason.NoReason? ==>
        |s| == |GetCode()| + |GetMessage()| + 3 && s[0] == '[' && s[1..|GetCode()| + 1] == GetCode()
        && s[|GetCode()| + 1..|GetCode()| + 3] == "] " && s[|GetCode()| + 3..] == GetMessage()
    {
      if reason.NoReason? then "unknown error" else Render.Bracketed(GetCode(), GetMessage())
    }

    /**
     * Sets the user-facing reason. A `*DefaultReason` is updated in place, so
     * every error sharing it sees the new reason; any other reason is
     * replaced by a fresh `DefaultReason` carrying the old code and message.
     */
    method WithReason(r: string) returns (self: StructuredError)
      modifies this, reason.Objects()
      ensures self == this
      ensures old(reason).Default? ==> reason == old(reason)
      ensures !old(reason).Default? ==> reason.Default? && fresh(reason.d)
      ensures GetCode() == old(GetCode()) && GetMessage() == old(GetMessage()) && GetUserReason() == r
      ensures GRPCCode == old(GRPCCode) && HTTPCode == old(HTTPCode)
      ensures Metadata == old(Metadata) && Domain == old(Domain) && Cause == old(Cause)
    {
      if reason.Default? {
        var _ := reason.d.WithReason(r);
      } else {
        var d := new DefaultReason(GetCode(), GetMessage());
        var _ := d.WithReason(r);
        reason := Default(d);
      }
      self := this;
    }

    /** Replaces the reason wholesale; nothing else changes. */
    method WithCustomReason(r: ReasonRef) returns (self: StructuredError)
      modifies this`reason
      ensures self == this && reason == r
    {
      reason := r;
      self := this;
    }

    method WithGRPCCode(code: GrpcCode) returns (self: StructuredError)
      modifies this`GRPCCode
      ensures self == this && GRPCCode == code
    {
      GRPCCode := code;
      self := this;
    }

    method WithHTTPCode(code: int) returns (self: StructuredError)
      modifies this`HTTPCode
      ensures self == this && HTTPCode == code
    {
      HTTPCode := code;
      self := this;
    }

    /** Allocates the metadata map on first use, then sets one key. */
    method WithMetadata(key: string, value: string) returns (self: StructuredError)
      modifies this`Metadata
      ensures self == this
      ensures Metadata == Some(GoMaps.Store(old(Metadata), key, value))
    {
      Metadata := Some(GoMaps.Store(Metadata, key, value));
      self := this;
    }

    /** `Is`: a `*StructuredError` target with the same code matches; nothing else does. */
    predicate Is(target: GoError)
      reads this, reason.Objects(), target.Frame()
    {
      target.Structured? && GetCode() == target.se.GetCode()
    }

    /** `Unwrap` reports the same wrapped error as `GetCause`. */
    function Unwrap(): (c: Option<GoError>)
      reads this
      ensures c == GetCause()
    {
      Cause
    }
  }

  /** Stores both status codes as given, with no check against the code tables. */
  method NewWithHTTPAndGRPC(code: string, message: string, httpCode: int, grpcCode: GrpcCode)
    returns (e: StructuredError)
    ensures fresh(e) && e.reason.Default? && fresh(e.reason.d)
    ensures e.State() == ErrorState(code, message, "", grpcCode, httpCode, None, "", None)
  {
    var d := new DefaultReason(code, message);
    e := new StructuredError(Default(d), grpcCode, httpCode, None, "", None);
  }

  /** `New` is `NewWithHTTPAndGRPC` with HTTP 500 and gRPC Unknown. */
  method New(code: string, message: string) returns (e: StructuredError)
    ensures fresh(e) && e.reason.Default? && fresh(e.reason.d)
    ensures e.State() == ErrorState(code, message, "", Unknown, 500, None, "", None)
  {
    e := NewWithHTTPAndGRPC(code, message, 500, Unknown);
  }

  /** Two errors sharing one `DefaultReason`: `WithReason` on one is seen by the other. */
  method WithReasonOnSharedReason(e1: StructuredError, e2: StructuredError, r: string)
    requires e1.reason.Default? && e2.reason == e1.reason
    modifies e1, e1.reason.d
    ensures e2.GetUserReason() == r && e2.reason == old(e2.reason)
    ensures e2.GetCode() == old(e2.GetCode()) && e2.GetMessage() == old(e2.GetMessage())
  {
    var _ := e1.WithReason(r);
  }

  /** With no reason, the three reason accessors report empty strings. */
  lemma NilReasonAccessors(e: StructuredError)
    requires e.reason.NoReason?
    ensures e.GetCode() == "" && e.GetMessage() == "" && e.GetUserReason() == ""
    ensures e.Error() == "unknown error"
  {
  }

  /** `Is` compares exactly the code part of the two errors' states. */
  lemma IsComparesCodeOnly(a: StructuredError, b: StructuredError)
    ensures a.Is(Structured(b)) <==> a.State().code == b.State().code
  {
  }

  /** A foreign error never matches, whatever its text. */
  lemma IsRejectsForeign(e: StructuredError, text: string, wrapped: Option<GoError>)
    ensures !e.Is(Foreign(text, wrapped))
  {
  }

  /** On structured errors `Is` is an equivalence relation. */
  lemma IsEquivalence(a: StructuredError, b: StructuredError, c: StructuredError)
    ensures a.Is(Structured(a))
    ensures a.Is(Structured(b)) <==> b.Is(Structured(a))
    ensures a.Is(Structured(b)) && b.Is(Structured(c)) ==> a.Is(Structured(c))
  {
  }
}
