/**
 * `Wrap` and `WrapDefault` of wrap.go, on the flat-field errors: an error that
 * is or wraps a `*StructuredError` has that error's code replaced in place;
 * any other error becomes the cause of a fresh one.
 */
module Wrapping {
  import opened Wrappers
  import opened Converter
  import opened FlatErrors
  import StandardCodes

  /**
   * The error reached from `err` after `n` steps down the `Unwrap` chain,
   * stepping only through errors that are not `*StructuredError`.
   */
  function ChainAt(err: GoError, n: nat): Option<GoError> {
    if n == 0 then Some(err)
    else match err
      case Foreign(_, Some(w)) => ChainAt(w, n - 1)
      case _ => None
  }

  /** `se` is the first `*StructuredError` in the chain of `err`, `n` steps down. */
  ghost predicate FirstStructuredAt(err: GoError, n: nat, se: StructuredError) {
    ChainAt(err, n) == Some(Structured(se))
    && forall m: nat :: m < n ==> ChainAt(err, m).Some? && ChainAt(err, m).value.Foreign?
  }

  /** The chain of `err` holds no `*StructuredError`. */
  ghost predicate NoStructured(err: GoError) {
    forall n: nat :: ChainAt(err, n).Some? ==> ChainAt(err, n).value.Foreign?
  }

  /** `errors.As(err, &se)`: walk the chain to the first `*StructuredError`. */
  function FindStructured(err: GoError): Option<StructuredError> {
    match err
    case Structured(se) => Some(se)
    case Foreign(_, None) => None
    case Foreign(_, Some(w)) => FindStructured(w)
  }

  /**
   * What `FindStructured` finds is the first `*StructuredError` of the chain,
   * and it finds nothing only when the chain has none.
   */
  lemma {:induction false} FindStructuredFirst(err: GoError)
    ensures FindStructured(err).Some? ==> exists n: nat :: FirstStructuredAt(err, n, FindStructured(err).value)
    ensures FindStructured(err).None? ==> NoStructured(err)
  {
    match err
    case Structured(se) =>
      assert FirstStructuredAt(err, 0, se);
    case Foreign(_, None) =>
      assert forall n: nat :: n > 0 ==> ChainAt(err, n).None?;
    case Foreign(_, Some(w)) =>
      FindStructuredFirst(w);
      ChainStep(err, w);
      if FindStructured(w).Some? {
        var n: nat :| FirstStructuredAt(w, n, FindStructured(w).value);
        assert FirstStructuredAt(err, n + 1, FindStructured(w).value);
      } else {
        forall n: nat | ChainAt(err, n).Some? ensures ChainAt(err, n).value.Foreign? {
          if n > 0 { assert ChainAt(err, n) == ChainAt(w, n - 1); }
        }
      }
  }

  /** One step down the chain of a wrapping error. */
  lemma ChainStep(err: GoError, w: GoError)
    requires err.Foreign? && err.wrapped == Some(w)
    ensures forall n: nat :: ChainAt(err, n + 1) == ChainAt(w, n)
  {
  }

  /** The errors `Wrap(err, ...)` may change: the structured error it finds, if any. */
  function Found(err: Option<GoError>): set<StructuredError> {
    if err.Some? && FindStructured(err.value).Some? then {FindStructured(err.value).value} else {}
  }

  /**
   * `Wrap`: nil stays nil; an error that is or wraps a `*StructuredError`
   * has that error's code set in place and the same object is returned, with
   * every other field unchanged; any other error becomes the cause of a
   * fresh error carrying its text as the message, with Unknown and 500.
   */
  method Wrap(err: Option<GoError>, code: string) returns (r: Option<StructuredError>)
    modifies Found(err)`Code
    ensures err.None? ==> r.None?
    ensures err.Some? && FindStructured(err.value).Some? ==>
      r == FindStructured(err.value) && r.value.Code == code
      && r.value.State() == old(r.value.State()).(code := code)
    ensures err.Some? && FindStructured(err.value).None? ==>
      err.value.Foreign? && r.Some? && fresh(r.value)
      && r.value.State() == FlatState(code, err.value.text, "", Unknown, 500, None, err)
  {
    if err.None? {
      return None;
    }
    var found := FindStructured(err.value);
    if found.Some? {
      var se := found.value;
      se.Code := code;
      return Some(se);
    }
    FindStructuredFirst(err.value);
    assert ChainAt(err.value, 0) == Some(err.value);
    var e := new StructuredError(code, err.value.Text(), "", Unknown, 500, None, err);
    r := Some(e);
  }

  /** `WrapDefault`: `Wrap` with the UNKNOWN code. */
  method WrapDefault(err: Option<GoError>) returns (r: Option<StructuredError>)
    modifies Found(err)`Code
    ensures err.None? ==> r.None?
    ensures err.Some? && FindStructured(err.value).Some? ==>
      r == FindStructured(err.value)
      && r.value.State() == old(r.value.State()).(code := StandardCodes.UNKNOWN)
    ensures err.Some? && FindStructured(err.value).None? ==>
      err.value.Foreign? && r.Some? && fresh(r.value)
      && r.value.State() == FlatState(StandardCodes.UNKNOWN, err.value.text, "", Unknown, 500, None, err)
  {
    r := Wrap(err, StandardCodes.UNKNOWN);
  }

  /** The error found in a direct `*StructuredError` is that error itself. */
  lemma FindsDirect(se: StructuredError)
    ensures FindStructured(Structured(se)) == Some(se)
  {
  }

  /** A chain of plain errors, each wrapping the next, down to `se`. */
  function WrappedIn(texts: seq<string>, se: StructuredError): GoError
    decreases |texts|
  {
    if texts == [] then Structured(se) else Foreign(texts[0], Some(WrappedIn(texts[1..], se)))
  }

  /** However deep a `*StructuredError` sits under plain errors, it is found. */
  lemma {:induction false} FindsThroughWrappers(texts: seq<string>, se: StructuredError)
    ensures FindStructured(WrappedIn(texts, se)) == Some(se)
    decreases |texts|
  {
    if texts != [] {
      FindsThroughWrappers(texts[1..], se);
    }
  }
}
