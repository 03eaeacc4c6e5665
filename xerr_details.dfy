/**
 * The detail codec of xerr/details.go: bad-request and precondition
 * violations are folded into the flat metadata map under the key prefixes
 * "field:" and "precondition:", and unfolded from it again. Go visits map
 * keys in no fixed order, so the unfolded lists are described as sets.
 */
module SubDetails {
  import opened Wrappers
  import opened ErrorDetails
  import opened SubXerr
  import GoMaps

  const FieldPrefix: string := "field:"
  const PreconditionPrefix: string := "precondition:"
  /** The `Type` every unfolded precondition violation carries. */
  const PreconditionType: string := "PRECONDITION_FAILURE"

  /** `len(k) > len(prefix) && k[:len(prefix)] == prefix`: a nonempty name follows the prefix. */
  predicate HasPrefix(k: string, prefix: string) {
    |k| > |prefix| && k[..|prefix|] == prefix
  }

  /** `md` holds `value` under `prefix + name`, for a nonempty `name`. */
  ghost predicate PrefixedEntry(md: map<string, string>, prefix: string, name: string, value: string) {
    name != "" && prefix + name in md && md[prefix + name] == value
  }

  /** The violations `GetBadRequest` finds in `md`. */
  ghost predicate FieldEntry(md: map<string, string>, v: FieldViolation) {
    PrefixedEntry(md, FieldPrefix, v.field, v.description)
  }

  /** The violations `GetPreconditionFailure` finds in `md`. */
  ghost predicate PreconditionEntry(md: map<string, string>, v: PreconditionViolation) {
    v.violationType == PreconditionType && PrefixedEntry(md, PreconditionPrefix, v.subject, v.description)
  }

  /** A prefixed key is the prefix followed by what `k[len(prefix):]` cuts off. */
  lemma PrefixSplit(k: string, prefix: string)
    requires HasPrefix(k, prefix)
    ensures prefix + k[|prefix|..] == k
  {
    assert k == k[..|prefix|] + k[|prefix|..];
  }

  /** A nonempty name after a prefix makes a prefixed key that cuts back to the name. */
  lemma PrefixJoin(prefix: string, name: string)
    requires name != ""
    ensures HasPrefix(prefix + name, prefix) && (prefix + name)[|prefix|..] == name
  {
    assert (prefix + name)[..|prefix|] == prefix;
  }

  /**
   * `WithErrorInfo`: every entry of `metadata` is copied in unprefixed,
   * overwriting clashes; a nil `metadata` changes nothing. The domain is ignored.
   */
  method WithErrorInfo(e: StructuredError, domain: string, metadata: Option<map<string, string>>)
    returns (self: StructuredError)
    modifies e`Metadata
    ensures self == e
    ensures metadata.None? ==> e.Metadata == old(e.Metadata)
    ensures metadata.Some? ==> e.Metadata == Some(old(e.Metadata).GetOr(map[]) + metadata.value)
  {
    if metadata.Some? {
      if e.Metadata.None? {
        e.Metadata := Some(map[]);
      }
      var m := GoMaps.CopyEntries(e.Metadata.value, metadata.value);
      e.Metadata := Some(m);
    }
    self := e;
  }

  /** `WithBadRequest`: each violation is stored under "field:" + its field name. */
  method WithBadRequest(e: StructuredError, fieldViolations: Option<map<string, string>>)
    returns (self: StructuredError)
    modifies e`Metadata
    ensures self == e
    ensures fieldViolations.None? ==> e.Metadata == old(e.Metadata)
    ensures fieldViolations.Some? ==>
      e.Metadata == Some(old(e.Metadata).GetOr(map[]) + GoMaps.WithPrefix(FieldPrefix, fieldViolations.value))
  {
    if fieldViolations.Some? {
      if e.Metadata.None? {
        e.Metadata := Some(map[]);
      }
      var m := GoMaps.CopyPrefixed(e.Metadata.value, fieldViolations.value, FieldPrefix);
      e.Metadata := Some(m);
    }
    self := e;
  }

  /** `WithPreconditionFailure`: each violation is stored under "precondition:" + its subject. */
  method WithPreconditionFailure(e: StructuredError, violations: Option<map<string, string>>)
    returns (self: StructuredError)
    modifies e`Metadata
    ensures self == e
    ensures violations.None? ==> e.Metadata == old(e.Metadata)
    ensures violations.Some? ==>
      e.Metadata == Some(old(e.Metadata).GetOr(map[]) + GoMaps.WithPrefix(PreconditionPrefix, violations.value))
  {
    if violations.Some? {
      if e.Metadata.None? {
        e.Metadata := Some(map[]);
      }
      var m := GoMaps.CopyPrefixed(e.Metadata.value, violations.value, PreconditionPrefix);
      e.Metadata := Some(m);
    }
    self := e;
  }

  /**
   * `GetErrorInfo`: the code as reason, the library domain whatever domain
   * was passed to `WithErrorInfo`, and the whole metadata map, prefixed keys included.
   */
  function GetErrorInfo(e: StructuredError): (info: ErrorInfo)
    reads e
    ensures info.reason == e.Code && info.domain == LibraryDomain
    ensures forall k :: k in info.metadata <==> e.Metadata.Some? && k in e.Metadata.value
    ensures forall k :: k in info.metadata ==> info.metadata[k] == e.Metadata.value[k]
  {
    ErrorInfo(e.Code, LibraryDomain, e.Metadata.GetOr(map[]))
  }

  /**
   * `GetBadRequest`: nil when there is no metadata or no key of the form
   * "field:" + a nonempty name; otherwise one violation per such key.
   */
  method GetBadRequest(e: StructuredError) returns (r: Option<BadRequest>)
    ensures r.None? <==> e.Metadata.None? || forall k :: k in e.Metadata.value ==> !HasPrefix(k, FieldPrefix)
    ensures r.Some? ==> forall v :: v in r.value.fieldViolations <==> FieldEntry(e.Metadata.value, v)
    ensures r.Some? ==> forall i, j :: 0 <= i < j < |r.value.fieldViolations| ==> r.value.fieldViolations[i] != r.value.fieldViolations[j]
  {
    if e.Metadata.None? {
      return None;
    }
    var md := e.Metadata.value;
    var todo := md.Keys;
    ghost var done: set<string> := {};
    var found: seq<FieldViolation> := [];
    while todo != {}
      invariant todo !! done && todo + done == md.Keys
      invariant forall v :: v in found <==> FieldEntry(md, v) && FieldPrefix + v.field in done
      invariant forall i, j :: 0 <= i < j < |found| ==> found[i] != found[j]
      decreases todo
    {
      var k :| k in todo;
      if |k| > 6 && k[..6] == FieldPrefix {
        var v := FieldViolation(k[6..], md[k]);
        PrefixSplit(k, FieldPrefix);
        forall w: FieldViolation | FieldEntry(md, w) && FieldPrefix + w.field == k ensures w.field == v.field {
          PrefixJoin(FieldPrefix, w.field);
        }
        assert v !in found;
        found := found + [v];
      } else {
        forall w | FieldEntry(md, w) ensures FieldPrefix + w.field != k {
          PrefixJoin(FieldPrefix, w.field);
        }
      }
      done := done + {k};
      todo := todo - {k};
    }
    forall k | k in md && HasPrefix(k, FieldPrefix) ensures FieldViolation(k[6..], md[k]) in found {
      PrefixSplit(k, FieldPrefix);
    }
    if |found| == 0 {
      return None;
    }
    PrefixJoin(FieldPrefix, found[0].field);
    r := Some(BadRequest(found));
  }

  /**
   * `GetPreconditionFailure`: nil when there is no metadata or no key of the
   * form "precondition:" + a nonempty subject; otherwise one violation per
   * such key, of type PRECONDITION_FAILURE.
   */
  method GetPreconditionFailure(e: StructuredError) returns (r: Option<PreconditionFailure>)
    ensures r.None? <==> e.Metadata.None? || forall k :: k in e.Metadata.value ==> !HasPrefix(k, PreconditionPrefix)
    ensures r.Some? ==> forall v :: v in r.value.violations <==> PreconditionEntry(e.Metadata.value, v)
    ensures r.Some? ==> forall i, j :: 0 <= i < j < |r.value.violations| ==> r.value.violations[i] != r.value.violations[j]
  {
    if e.Metadata.None? {
      return None;
    }
    var md := e.Metadata.value;
    var todo := md.Keys;
    ghost var done: set<string> := {};
    var found: seq<PreconditionViolation> := [];
    while todo != {}
      invariant todo !! done && todo + done == md.Keys
      invariant forall v :: v in found <==> PreconditionEntry(md, v) && PreconditionPrefix + v.subject in done
      invariant forall i, j :: 0 <= i < j < |found| ==> found[i] != found[j]
      decreases todo
    {
      var k :| k in todo;
      if |k| > 13 && k[..13] == PreconditionPrefix {
        var v := PreconditionViolation(PreconditionType, k[13..], md[k]);
        PrefixSplit(k, PreconditionPrefix);
        forall w: PreconditionViolation | PreconditionEntry(md, w) && PreconditionPrefix + w.subject == k ensures w.subject == v.subject {
          PrefixJoin(PreconditionPrefix, w.subject);
        }
        assert v !in found;
        found := found + [v];
      } else {
        forall w | PreconditionEntry(md, w) ensures PreconditionPrefix + w.subject != k {
          PrefixJoin(PreconditionPrefix, w.subject);
        }
      }
      done := done + {k};
      todo := todo - {k};
    }
    forall k | k in md && HasPrefix(k, PreconditionPrefix)
      ensures PreconditionViolation(PreconditionType, k[13..], md[k]) in found
    {
      PrefixSplit(k, PreconditionPrefix);
    }
    if |found| == 0 {
      return None;
    }
    PrefixJoin(PreconditionPrefix, found[0].subject);
    r := Some(PreconditionFailure(found));
  }

  /**
   * Folding then unfolding: over metadata without "field:" keys, the
   * violations found after `WithBadRequest(fv)` are exactly the entries of
   * `fv` with a nonempty field name; the one for the empty name is lost.
   */
  lemma FoldUnfoldBadRequest(md0: map<string, string>, fv: map<string, string>, v: FieldViolation)
    requires forall k :: k in md0 ==> !HasPrefix(k, FieldPrefix)
    ensures FieldEntry(md0 + GoMaps.WithPrefix(FieldPrefix, fv), v)
            <==> v.field != "" && v.field in fv && fv[v.field] == v.description
  {
    var w := GoMaps.WithPrefix(FieldPrefix, fv);
    var key := FieldPrefix + v.field;
    if v.field != "" {
      PrefixJoin(FieldPrefix, v.field);
      if key in w {
        GoMaps.WithPrefixAt(FieldPrefix, fv, key);
      }
    }
  }

  /** The same for `WithPreconditionFailure` and `GetPreconditionFailure`. */
  lemma FoldUnfoldPreconditionFailure(md0: map<string, string>, pv: map<string, string>, v: PreconditionViolation)
    requires forall k :: k in md0 ==> !HasPrefix(k, PreconditionPrefix)
    ensures PreconditionEntry(md0 + GoMaps.WithPrefix(PreconditionPrefix, pv), v)
            <==> v.violationType == PreconditionType && v.subject != "" && v.subject in pv && pv[v.subject] == v.description
  {
    var w := GoMaps.WithPrefix(PreconditionPrefix, pv);
    var key := PreconditionPrefix + v.subject;
    if v.subject != "" {
      PrefixJoin(PreconditionPrefix, v.subject);
      if key in w {
        GoMaps.WithPrefixAt(PreconditionPrefix, pv, key);
      }
    }
  }

  /**
   * No key is both a field key and a precondition key, and the bare prefixes
   * are neither (which is why an empty name is lost).
   */
  lemma PrefixesDisjoint(k: string)
    ensures !(HasPrefix(k, FieldPrefix) && HasPrefix(k, PreconditionPrefix))
    ensures !HasPrefix(FieldPrefix, FieldPrefix) && !HasPrefix(PreconditionPrefix, PreconditionPrefix)
  {
    assert HasPrefix(k, FieldPrefix) ==> k[0] == k[..6][0] == 'f';
    assert HasPrefix(k, PreconditionPrefix) ==> k[0] == k[..13][0] == 'p';
  }

  /** A key without either prefix yields no violation of either kind. */
  lemma UnprefixedKeysIgnored(md: map<string, string>, k: string)
    requires !HasPrefix(k, FieldPrefix) && !HasPrefix(k, PreconditionPrefix)
    ensures forall v :: FieldEntry(md, v) ==> FieldPrefix + v.field != k
    ensures forall v :: PreconditionEntry(md, v) ==> PreconditionPrefix + v.subject != k
  {
    forall v | FieldEntry(md, v) ensures FieldPrefix + v.field != k {
      PrefixJoin(FieldPrefix, v.field);
    }
    forall v | PreconditionEntry(md, v) ensures PreconditionPrefix + v.subject != k {
      PrefixJoin(PreconditionPrefix, v.subject);
    }
  }
}
