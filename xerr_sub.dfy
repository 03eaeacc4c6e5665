/**
 * The `StructuredError` of the xerr/ subpackage (xerr/xerr.go): flat fields
 * and no cause. Its `Wrap` recognises a `*StructuredError` only by a direct
 * type assertion and does not keep the wrapped error.
 */
module SubXerr {
  import opened Wrappers
  import opened Converter
  import GoMaps
  import Render

  /** A Go `error` value, as seen by this package. */
  datatype GoError =
    | Foreign(text: string, wrapped: Option<GoError>)
    | Structured(se: StructuredError)
  {
    function Frame(): set<object> {
      if Structured? then {se} else {}
    }
  }

  /** The fields of a subpackage `StructuredError`, as one value. */
  datatype SubState = SubState(
    code: string, message: string, reason: string,
    grpcCode: GrpcCode, httpCode: int, metadata: Option<map<string, string>>)

  class StructuredError {
    var Code: string
    var Message: string
    var Reason: string
    var GRPCCode: GrpcCode
    var HTTPCode: int
    var Metadata: Option<map<string, string>>

    /** The composite literal `&StructuredError{...}`. */
    constructor (code: string, message: string, reason: string, grpcCode: GrpcCode, httpCode: int,
                 metadata: Option<map<string, string>>)
      ensures State() == SubState(code, message, reason, grpcCode, httpCode, metadata)
    {
      Code := code;
      Message := message;
      Reason := reason;
      GRPCCode := grpcCode;
      HTTPCode := httpCode;
      Metadata := metadata;
    }

    function State(): SubState
      reads this
    {
      SubState(Code, Message, Reason, GRPCCode, HTTPCode, Metadata)
    }

    /** `Error()`: "[code] message". */
    function Error(): (s: string)
      reads this
      ensures |s| == |Code| + |Message| + 3 && s[0] == '[' && s[|Code| + 1..|Code| + 3] == "] "
      ensures s[1..|Code| + 1] == Code && s[|Code| + 3..] == Message
    {
      Render.Bracketed(Code, Message)
    }

    method WithReason(reason: string) returns (self: StructuredError)
      modifies this`Reason
      ensures self == this && Reason == reason
    {
      Reason := reason;
      self := this;
    }

    method WithGRPCCode(code: GrpcCode) returns (self: StructuredError)
      modifies this`GRPCCode
      ensures self == this && GRPCCode == code
    {
      GRPCCode := code;
      self := this;
    }

    method WithHTTPCode(code: int) returns (self: StructuredError)
      modifies this`HTTPCode
      ensures self == this && HTTPCode == code
    {
      HTTPCode := code;
      self := this;
    }

    /** Allocates the map on first use, then sets one key. */
    method WithMetadata(key: string, value: string) returns (self: StructuredError)
      modifies this`Metadata
      ensures self == this
      ensures Metadata == Some(GoMaps.Store(old(Metadata), key, value))
    {
      Metadata := Some(GoMaps.Store(Metadata, key, value));
      self := this;
    }

    /** `Is`: the target is a `*StructuredError` with an equal `Code`. */
    predicate Is(target: GoError)
      reads this, target.Frame()
    {
      target.Structured? && Code == target.se.Code
    }
  }

  /** `New`: Unknown and 500, no user reason, no metadata. */
  method New(code: string, message: string) returns (e: StructuredError)
    ensures fresh(e)
    ensures e.State() == SubState(code, message, "", Unknown, 500, None)
  {
    e := new StructuredError(code, message, "", Unknown, 500, None);
  }

  /** `NewWithHTTPAndGRPC`: both codes stored as given. */
  method NewWithHTTPAndGRPC(code: string, message: string, httpCode: int, grpcCode: GrpcCode)
    returns (e: StructuredError)
    ensures fresh(e)
    ensures e.State() == SubState(code, message, "", grpcCode, httpCode, None)
  {
    e := new StructuredError(code, message, "", grpcCode, httpCode, None);
  }

  /** The object `Wrap(err, ...)` may change: `err` itself when it is a `*StructuredError`. */
  function Direct(err: Option<GoError>): set<StructuredError> {
    if err.Some? && err.value.Structured? then {err.value.se} else {}
  }

  /**
   * `Wrap`: nil stays nil; a `*StructuredError` itself has its code set in
   * place and is returned; any other error, even one wrapping a
   * `*StructuredError`, gives a fresh error with its text as the message and
   * Unknown and 500, which does not keep the original.
   */
  method Wrap(err: Option<GoError>, code: string) returns (r: Option<StructuredError>)
    modifies Direct(err)`Code
    ensures err.None? ==> r.None?
    ensures err.Some? && err.value.Structured? ==>
      r == Some(err.value.se) && r.value.State() == old(r.value.State()).(code := code)
    ensures err.Some? && err.value.Foreign? ==>
      r.Some? && fresh(r.value) && r.value.State() == SubState(code, err.value.text, "", Unknown, 500, None)
  {
    if err.None? {
      return None;
    }
    if err.value.Structured? {
      var se := err.value.se;
      se.Code := code;
      return Some(se);
    }
    var e := new StructuredError(code, err.value.text, "", Unknown, 500, None);
    r := Some(e);
  }

  /** `Is` compares codes only, and is an equivalence on structured errors. */
  lemma IsComparesCodeOnly(a: StructuredError, b: StructuredError, c: StructuredError, text: string, wrapped: Option<GoError>)
    ensures a.Is(Structured(b)) <==> a.State().code == b.State().code
    ensures a.Is(Structured(a))
    ensures a.Is(Structured(b)) <==> b.Is(Structured(a))
    ensures a.Is(Structured(b)) && b.Is(Structured(c)) ==> a.Is(Structured(c))
    ensures !a.Is(Foreign(text, wrapped))
  {
  }
}
