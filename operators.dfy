/**
 * Two single-value constraint operators.
 *
 * The number conversion and PHP's `version_compare` are not part of this
 * model; both are parameters: `convert` maps a string to a number, and
 * `compare` answers -1, 0 or 1 as `version_compare` does.
 */
module Operators {
  /** The search value of a constraint operator: one string, or a list of strings. */
  datatype SearchValue = Single(value: string) | Many(values: seq<string>)

  /**
   * NumberGreaterThanOrEqualsOperatorValidator::validate. The operator is
   * single-valued: the source asserts that the search value is a string.
   */
  function NumberGreaterThanOrEquals(convert: string -> real, current: string, search: SearchValue): (r: bool)
    requires search.Single?
    ensures convert(current) > convert(search.value) ==> r
    ensures convert(current) < convert(search.value) ==> !r
    ensures current == search.value ==> r
  {
    convert(current) >= convert(search.value)
  }

  /** Two values that convert to the same number always satisfy the operator. */
  lemma SameNumberSatisfiesGreaterThanOrEquals(convert: string -> real, a: string, b: string)
    requires convert(a) == convert(b)
    ensures NumberGreaterThanOrEquals(convert, a, Single(b))
    ensures NumberGreaterThanOrEquals(convert, b, Single(a))
  {
  }

  /**
   * The operator reads "the context value is at least the search value":
   * a strictly greater context value passes, and with the roles swapped the
   * same pair fails.
   */
  lemma GreaterContextValueWins(convert: string -> real, a: string, b: string)
    requires convert(a) > convert(b)
    ensures NumberGreaterThanOrEquals(convert, a, Single(b))
    ensures !NumberGreaterThanOrEquals(convert, b, Single(a))
  {
  }

  /** Numbers are totally ordered: for any two values at least one direction holds. */
  lemma GreaterThanOrEqualsIsTotal(convert: string -> real, a: string, b: string)
    ensures NumberGreaterThanOrEquals(convert, a, Single(b)) || NumberGreaterThanOrEquals(convert, b, Single(a))
    ensures NumberGreaterThanOrEquals(convert, a, Single(b)) && NumberGreaterThanOrEquals(convert, b, Single(a))
            <==> convert(a) == convert(b)
  {
  }

  /** What `version_compare` promises of its three-way answer: swapping the arguments negates it. */
  ghost predicate IsVersionComparison(compare: (string, string) -> int) {
    forall a, b :: -1 <= compare(a, b) <= 1 && compare(a, b) == -compare(b, a)
  }

  /**
   * VersionLowerThanOperatorValidator::validate: `version_compare` with the
   * `lt` operator. The search value must be a single string.
   */
  function VersionLowerThan(compare: (string, string) -> int, current: string, search: SearchValue): (r: bool)
    requires search.Single?
    ensures compare(current, search.value) == -1 ==> r
    ensures compare(current, search.value) >= 0 ==> !r
    ensures IsVersionComparison(compare) ==> (r <==> compare(search.value, current) == 1)
    ensures IsVersionComparison(compare) && current == search.value ==> !r
  {
    compare(current, search.value) < 0
  }

  /**
   * The operator reads "the context version is lower than the search
   * version": it holds exactly when `version_compare(current, search)`
   * answers -1, and then the swapped pair fails.
   */
  lemma LowerContextVersionWins(compare: (string, string) -> int, a: string, b: string)
    requires IsVersionComparison(compare)
    ensures VersionLowerThan(compare, a, Single(b)) <==> compare(a, b) == -1
    ensures VersionLowerThan(compare, a, Single(b)) ==> !VersionLowerThan(compare, b, Single(a))
  {
    assert compare(a, b) == -compare(b, a);
  }

  /** `lt(a, b)` and `lt(b, a)` never both hold; when the versions differ, exactly one does. */
  lemma VersionLowerThanIsAsymmetric(compare: (string, string) -> int, a: string, b: string)
    requires IsVersionComparison(compare)
    ensures !(VersionLowerThan(compare, a, Single(b)) && VersionLowerThan(compare, b, Single(a)))
    ensures compare(a, b) != 0
            ==> VersionLowerThan(compare, a, Single(b)) != VersionLowerThan(compare, b, Single(a))
  {
    assert compare(a, b) == -compare(b, a);
  }
}
