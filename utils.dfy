/** The expiry normaliser of src/lib/utils.ts. */
module ExpiryUtils {

  /** Largest value still read as seconds; anything above is taken to be milliseconds already. */
  const SecondsLimit: int := 9999999999

  /** Smallest positive value whose millisecond form is above `SecondsLimit`. */
  const ShortestIdempotent: int := 10000000

  /** `parseExp`: converts a raw `exp` value to milliseconds, guessing its unit from its size. */
  function ParseExp(exp: int): (r: int)
    ensures r == exp || r == exp * 1000
    ensures exp >= 0 ==> r >= exp
    ensures exp >= ShortestIdempotent ==> r > SecondsLimit
  {
    if exp > SecondsLimit then exp else exp * 1000
  }

  /** A value above the limit is already in milliseconds and is returned unchanged. */
  lemma AboveLimitUnchanged(exp: int)
    requires exp > SecondsLimit
    ensures ParseExp(exp) == exp
  {
  }

  /** A value at or below the limit is read as seconds and scaled to milliseconds. */
  lemma AtOrBelowLimitScaled(exp: int)
    requires exp <= SecondsLimit
    ensures ParseExp(exp) == exp * 1000
  {
  }

  /** The two values on either side of the limit. */
  lemma LimitBoundary()
    ensures ParseExp(9999999999) == 9999999999000
    ensures ParseExp(10000000000) == 10000000000
  {
  }

  /** Normalising twice is the same as normalising once exactly for 0 and for inputs of at
      least `ShortestIdempotent`: any other input stays below the limit after one step and is
      scaled a second time. */
  lemma IdempotentExactly(exp: int)
    ensures ParseExp(ParseExp(exp)) == ParseExp(exp) <==> (exp == 0 || exp >= ShortestIdempotent)
  {
    if exp < 0 {
      assert ParseExp(exp) == exp * 1000 < 0;
      assert ParseExp(ParseExp(exp)) == exp * 1000000;
    } else if 0 < exp < ShortestIdempotent {
      assert exp * 1000 <= 9999999000;
      assert ParseExp(ParseExp(exp)) == exp * 1000000;
    }
  }
}
