/**
 * The two tests the extractor applies to a dict entry, the key test and the
 * value conversions, related to one another.
 */
module ValueTests {
  import opened Wrappers
  import opened Text
  import opened JsonValue
  import opened DeepScan
  import opened Ltp

  /** Some position of `l` holds `lt`, `last` or `price`. */
  predicate HasPattern(l: string)
  {
    exists i :: 0 <= i <= |l| && (OccursAt(l, "lt", i) || OccursAt(l, "last", i) || OccursAt(l, "price", i))
  }

  /**
   * The key test by position. The pattern `ltp` adds nothing: every key
   * containing `ltp` also contains `lt`.
   */
  lemma KeyMatchesIff(k: string)
    ensures KeyMatches(k) <==> HasPattern(Lower(k))
  {
    var l := Lower(k);
    ContainsIff(l, "ltp");
    ContainsIff(l, "lt");
    ContainsIff(l, "last");
    ContainsIff(l, "price");
    if Contains(l, "ltp") {
      var i :| OccursAt(l, "ltp", i);
      assert l[i..i + 2] == l[i..i + 3][..2];
      assert OccursAt(l, "lt", i);
    }
    if HasPattern(l) {
      var i :| OccursAt(l, "lt", i) || OccursAt(l, "last", i) || OccursAt(l, "price", i);
      assert Contains(l, "lt") || Contains(l, "last") || Contains(l, "price");
    }
  }

  /**
   * The value test: an int, float or bool counts as itself, a string counts
   * exactly when its comma-free, stripped text parses, and nothing else counts.
   */
  lemma NumericValueKinds(v: Json, parse: string -> Option<real>)
    ensures NumericValue(v, parse).Some? <==> v.JInt? || v.JNum? || v.JBool? || (v.JStr? && parse(Strip(RemoveCommas(v.s))).Some?)
    ensures v.JInt? ==> NumericValue(v, parse) == Some(Int(v.i))
    ensures v.JNum? ==> NumericValue(v, parse) == Some(Float(v.r))
    ensures v.JBool? ==> NumericValue(v, parse) == Some(Bool(v.b))
    ensures v.JStr? && NumericValue(v, parse).Some? ==> NumericValue(v, parse).value.Float? && parse(Strip(RemoveCommas(v.s))) == Some(NumericValue(v, parse).value.r)
  {
  }

  /**
   * Of the values the scan collects, only an int can fail `float()`, and
   * only when it is out of the double range.
   */
  lemma CollectedConverts(v: Json, parse: string -> Option<real>)
    requires NumericValue(v, parse).Some?
    ensures FloatOf(NumericValue(v, parse).value).None? <==> v.JInt? && (v.i <= -FloatOverflow || FloatOverflow <= v.i)
  {
  }

  /**
   * The probe's conversion and the scan's agree on an int within the double
   * range, on a float, and on a string whose comma-free text needs no
   * stripping.
   */
  lemma ProbeAgreesWithScan(v: Json, parse: string -> Option<real>)
    requires v.JInt? ==> -FloatOverflow < v.i < FloatOverflow
    requires v.JStr? ==> Strip(RemoveCommas(v.s)) == RemoveCommas(v.s)
    requires v.JInt? || v.JNum? || v.JStr?
    ensures StrFloat(v, parse) == (match NumericValue(v, parse)
                                   case Some(n) => FloatOf(n)
                                   case None => None)
  {
    NumericValueKinds(v, parse);
  }

  /** Commas anywhere in a string value do not change its conversion. */
  lemma {:induction false} StrFloatCommaFree(s: string, parse: string -> Option<real>)
    ensures StrFloat(JStr(s), parse) == StrFloat(JStr(RemoveCommas(s)), parse)
  {
  }
}
