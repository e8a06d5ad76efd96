/**
 * The registry rewrite `transform`. The mapping is a Go map, so the keys
 * are tried in an unspecified order; the model picks the next key
 * arbitrarily and its contract holds for every order.
 */
module Rewrite {
  import opened Wrappers
  import opened GoStrings
  import opened Reference

  type Mapping = map<string, string>

  /** The mapping keys that are a prefix of the reference string. */
  function MatchingKeys(refStr: string, mapping: Mapping): set<string> {
    set k | k in mapping && HasPrefix(refStr, k)
  }

  /**
   * The strings `transform` may return for image `s` whose reference string
   * is `refStr`: `s` itself when no key matches, otherwise the reference
   * string with every occurrence of one matching key replaced.
   */
  ghost predicate Rewrites(s: string, refStr: string, mapping: Mapping, r: string) {
    if MatchingKeys(refStr, mapping) == {} then r == s
    else exists k :: k in MatchingKeys(refStr, mapping) && r == ReplaceAll(refStr, k, mapping[k])
  }

  /** `refStr` is the reference string of image `s`, or the error that prevents one. */
  predicate ReferenceStringOf(s: string, refStr: Result<string, RefError>) {
    CanonicalString(s) == refStr
  }

  /** The outcomes `transform` may have once the reference string is known. */
  ghost predicate Outcome(s: string, refStr: Result<string, RefError>, mapping: Mapping, out: Result<string, RefError>) {
    match refStr
    case Failure(e) => out == Failure(e)
    case Success(r) => out.Success? && Rewrites(s, r, mapping, out.value)
  }

  /**
   * The outcomes `transform` may have for image `s`. The reference string
   * is bound by a guarded quantifier, so that the parser is only looked at
   * where a proof asks for it (TransformsIff).
   */
  ghost predicate Transforms(s: string, mapping: Mapping, out: Result<string, RefError>) {
    forall refStr {:trigger ReferenceStringOf(s, refStr)} ::
      ReferenceStringOf(s, refStr) ==> Outcome(s, refStr, mapping, out)
  }

  lemma TransformsIff(s: string, mapping: Mapping, out: Result<string, RefError>)
    ensures Transforms(s, mapping, out) <==> Outcome(s, CanonicalString(s), mapping, out)
  {
    assert ReferenceStringOf(s, CanonicalString(s));
  }

  /** `transform(s, mapping)`. */
  method Transform(s: string, mapping: Mapping) returns (out: Result<string, RefError>)
    ensures Transforms(s, mapping, out)
  {
    ReferenceStringIsCanonical(s);
    var normalizedName := ImageNamesWithDigestOrTag(s);
    if normalizedName.Failure? {
      out := Failure(normalizedName.error);
      TransformsIff(s, mapping, out);
      return;
    }
    var ref := DockerParseReference("//" + normalizedName.value);
    if ref.Failure? {
      // The collapsed name always reparses (Reference.CollapseSpec), so
      // `docker.ParseReference` cannot fail here.
      assert false;
    }
    var refStr := RefString(ref.value);
    assert CanonicalString(s) == Success(refStr);
    var remaining := mapping.Keys;
    while remaining != {}
      invariant remaining <= mapping.Keys
      invariant forall k :: k in mapping && k !in remaining ==> !HasPrefix(refStr, k)
      decreases remaining
    {
      var k :| k in remaining;
      if HasPrefix(refStr, k) {
        assert k in MatchingKeys(refStr, mapping);
        out := Success(ReplaceAll(refStr, k, mapping[k]));
        TransformsIff(s, mapping, out);
        return;
      }
      remaining := remaining - {k};
    }
    assert MatchingKeys(refStr, mapping) == {};
    out := Success(s);
    TransformsIff(s, mapping, out);
  }

  /** `transform` fails exactly when the image is not a valid reference. */
  lemma TransformFailsIffInvalid(s: string, mapping: Mapping, out: Result<string, RefError>)
    requires Transforms(s, mapping, out)
    ensures out.Failure? <==> ParseNormalizedNamed(s).Failure?
  {
    TransformsIff(s, mapping, out);
  }

  /**
   * A changed image is the reference string with a matching key replaced,
   * and it starts with that key's replacement.
   */
  lemma ChangedImageStartsWithReplacement(s: string, mapping: Mapping, r: string)
    requires Transforms(s, mapping, Success(r))
    requires r != s
    ensures CanonicalString(s).Success?
    ensures exists k ::
              && k in MatchingKeys(CanonicalString(s).value, mapping)
              && r == ReplaceAll(CanonicalString(s).value, k, mapping[k])
              && HasPrefix(r, mapping[k])
  {
    TransformsIff(s, mapping, Success(r));
    var refStr := CanonicalString(s).value;
    var k :| k in MatchingKeys(refStr, mapping) && r == ReplaceAll(refStr, k, mapping[k]);
    ReplaceAllAtPrefix(refStr, k, mapping[k]);
  }

  /** A mapping whose values equal their keys can only normalise the image. */
  lemma IdentityMappingOnlyNormalizes(s: string, mapping: Mapping, r: string)
    requires forall k :: k in mapping ==> mapping[k] == k
    requires Transforms(s, mapping, Success(r))
    ensures r == s || Success(r) == CanonicalString(s)
  {
    TransformsIff(s, mapping, Success(r));
    var refStr := CanonicalString(s).value;
    if MatchingKeys(refStr, mapping) != {} {
      var k :| k in MatchingKeys(refStr, mapping) && r == ReplaceAll(refStr, k, mapping[k]);
      ReplaceAllIdentity(refStr, k);
    }
  }

  /** Rewriting an already canonical image with an identity mapping leaves it alone. */
  lemma IdentityMappingKeepsCanonical(s: string, mapping: Mapping, r: string)
    requires forall k :: k in mapping ==> mapping[k] == k
    requires CanonicalString(s) == Success(s)
    requires Transforms(s, mapping, Success(r))
    ensures r == s
  {
    IdentityMappingOnlyNormalizes(s, mapping, r);
  }

  /** When at most one key matches, the outcome does not depend on the map order. */
  lemma {:induction false} UniqueMatchIsDeterministic(s: string, refStr: string, mapping: Mapping, r1: string, r2: string)
    requires |MatchingKeys(refStr, mapping)| <= 1
    requires Rewrites(s, refStr, mapping, r1) && Rewrites(s, refStr, mapping, r2)
    ensures r1 == r2
  {
    var keys := MatchingKeys(refStr, mapping);
    if keys != {} {
      var k1 :| k1 in keys && r1 == ReplaceAll(refStr, k1, mapping[k1]);
      var k2 :| k2 in keys && r2 == ReplaceAll(refStr, k2, mapping[k2]);
      if k1 != k2 {
        assert |{k1, k2}| == 2;
        SubsetCardinality({k1, k2}, keys);
      }
    }
  }

  /** When at most one key matches the image, `transform` has one outcome whatever the map order. */
  lemma TransformIsDeterministic(s: string, mapping: Mapping, out1: Result<string, RefError>, out2: Result<string, RefError>)
    requires CanonicalString(s).Success? ==> |MatchingKeys(CanonicalString(s).value, mapping)| <= 1
    requires Transforms(s, mapping, out1) && Transforms(s, mapping, out2)
    ensures out1 == out2
  {
    TransformsIff(s, mapping, out1);
    TransformsIff(s, mapping, out2);
    if CanonicalString(s).Success? {
      UniqueMatchIsDeterministic(s, CanonicalString(s).value, mapping, out1.value, out2.value);
    }
  }

  /** A failure of `transform` carries the parser's error for the image. */
  lemma TransformFailureCause(s: string, mapping: Mapping, e: RefError)
    requires Transforms(s, mapping, Failure(e))
    ensures CanonicalString(s) == Failure(e)
  {
    TransformsIff(s, mapping, Failure(e));
  }

  /** With an empty mapping a valid image comes back exactly as it was written. */
  lemma EmptyMappingKeepsImage(s: string, out: Result<string, RefError>)
    requires Transforms(s, map[], out)
    ensures out.Success? ==> out.value == s
    ensures out.Success? <==> CanonicalString(s).Success?
  {
    TransformsIff(s, map[], out);
    if CanonicalString(s).Success? {
      assert MatchingKeys(CanonicalString(s).value, map[]) == {};
    }
  }

  /** Once the reference string is known, `transform` succeeds and rewrites it. */
  lemma TransformsValid(s: string, refStr: string, mapping: Mapping, out: Result<string, RefError>)
    requires CanonicalString(s) == Success(refStr)
    requires Transforms(s, mapping, out)
    ensures out.Success? && Rewrites(s, refStr, mapping, out.value)
  {
    TransformsIff(s, mapping, out);
  }

  /** Every outcome `Rewrites` allows is one `transform` may return. */
  lemma RewritesAreTransforms(s: string, refStr: string, mapping: Mapping, r: string)
    requires CanonicalString(s) == Success(refStr)
    requires Rewrites(s, refStr, mapping, r)
    ensures Transforms(s, mapping, Success(r))
  {
    TransformsIff(s, mapping, Success(r));
  }

  /** An image that is not a valid reference makes `transform` fail with the parser's error. */
  lemma TransformsInvalid(s: string, e: RefError, mapping: Mapping, out: Result<string, RefError>)
    requires CanonicalString(s) == Failure(e)
    requires Transforms(s, mapping, out)
    ensures out == Failure(e)
  {
    TransformsIff(s, mapping, out);
  }

  /** With exactly one matching key, that key is the one replaced. */
  lemma SingleMatchRewrites(s: string, refStr: string, mapping: Mapping, key: string, r: string)
    requires MatchingKeys(refStr, mapping) == {key}
    requires Rewrites(s, refStr, mapping, r)
    ensures r == ReplaceAll(refStr, key, mapping[key])
  {
  }

  lemma SubsetCardinality<T>(a: set<T>, b: set<T>)
    requires a <= b
    ensures |a| <= |b|
  {
    assert b == a + (b - a);
  }
}
