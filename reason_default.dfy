/**
 * `DefaultReason`, the plain value holder behind the `Reason` interface
 * (code, developer message, user-facing reason). It is used as `*DefaultReason` in Go,
 * so it is a class: `WithReason` changes the object every holder shares.
 */
module Reasons {

  class DefaultReason {
    var code: string
    var message: string
    var reason: string

    /** `NewDefaultReason(code, message)`: the user-facing reason starts empty. */
    constructor (code: string, message: string)
      ensures Code() == code && Message() == message && Reason() == ""
    {
      this.code := code;
      this.message := message;
      this.reason := "";
    }

    function Code(): string
      reads this
    {
      code
    }

    function Message(): string
      reads this
    {
      message
    }

    function Reason(): string
      reads this
    {
      reason
    }

    /**
     * Sets the user-facing reason in place and returns the receiver. The new
     * reason does not depend on the old one, so the last call wins and
     * repeating a call changes nothing.
     */
    method WithReason(reason: string) returns (self: DefaultReason)
      modifies this`reason
      ensures self == this
      ensures Reason() == reason
      ensures Code() == old(Code()) && Message() == old(Message())
    {
      this.reason := reason;
      self := this;
    }
  }

  /**
   * Two `WithReason` calls on one reason: the reason set last is what
   * remains, and code and message are untouched by both.
   */
  method LastWithReasonWins(d: DefaultReason, r1: string, r2: string)
    modifies d`reason
    ensures d.Reason() == r2
    ensures d.Code() == old(d.Code()) && d.Message() == old(d.Message())
  {
    var _ := d.WithReason(r1);
    var _ := d.WithReason(r2);
  }
}
