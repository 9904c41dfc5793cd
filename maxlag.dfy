/**
 * The `maxlag` setter's three-way decision.  A value below 1 is read as a
 * fraction of the maximum pairwise distance, which is passed in.
 */
module MaxLag {
  import opened Common

  /** The value the setter stores: absent, a fraction of the maximum distance, or absolute. */
  function ResolveMaxlag(value: Option<real>, maxDistance: real): (r: Option<real>)
    ensures r.None? <==> value.None?
    ensures value.Some? && value.value >= 1.0 ==> r == value
    ensures value.Some? && 0.0 <= value.value < 1.0 && maxDistance >= 0.0 ==> 0.0 <= r.value <= maxDistance
    ensures value.Some? && 0.0 <= value.value < 1.0 && maxDistance > 0.0 ==> r.value < maxDistance
  {
    match value
    case None => None
    case Some(v) =>
      if v < 1.0 then
        FractionBelow(v, maxDistance);
        Some(v * maxDistance)
      else Some(v)
  }

  /** A fraction in [0, 1) of a non-negative distance lies between 0 and that distance. */
  lemma FractionBelow(v: real, m: real)
    ensures 0.0 <= v < 1.0 && m >= 0.0 ==> 0.0 <= v * m <= m
    ensures 0.0 <= v < 1.0 && m > 0.0 ==> v * m < m
  {
    if 0.0 <= v < 1.0 && m >= 0.0 {
      assert m - v * m == (1.0 - v) * m;
    }
  }

  /**
   * Writing back what the getter returns leaves the setting unchanged exactly
   * when the stored value is absent, at least 1, zero, or the maximum
   * distance is 1; a stored value in (0, 1) is otherwise rescaled again.
   */
  lemma MaxlagReassign(value: Option<real>, maxDistance: real)
    ensures var r := ResolveMaxlag(value, maxDistance);
      ResolveMaxlag(r, maxDistance) == r <==>
        (r.None? || r.value >= 1.0 || r.value == 0.0 || maxDistance == 1.0)
  {
    var r := ResolveMaxlag(value, maxDistance);
    if r.Some? && r.value < 1.0 {
      var x := r.value;
      assert ResolveMaxlag(r, maxDistance).value == x * maxDistance;
      assert x * maxDistance - x == x * (maxDistance - 1.0);
      if x != 0.0 && x * maxDistance == x {
        assert (x * (maxDistance - 1.0)) / x == maxDistance - 1.0;
      }
    }
  }

  /**
   * The setter as written multiplies by `np.max(self.dm)`, an attribute the
   * class never sets: every value below 1 raises an AttributeError.
   */
  function MaxlagAsWritten(value: Option<real>): (r: Result<Option<real>>)
    ensures r.Failure? <==> value.Some? && value.value < 1.0
    ensures r.Success? ==> r.value == value
  {
    match value
    case None => Success(None)
    case Some(v) => if v < 1.0 then Failure(AttributeError("dm")) else Success(Some(v))
  }

  /** A relative maxlag of 0.5 with maximum distance 10: the code as written raises, the intent is 5. */
  lemma AsWrittenMaxlagRejectsFraction()
    ensures MaxlagAsWritten(Some(0.5)) == Failure(AttributeError("dm"))
    ensures ResolveMaxlag(Some(0.5), 10.0) == Some(5.0)
  {
  }

  /** Apart from fractions, the code as written and the intended setter agree. */
  lemma AsWrittenMaxlagAgreesOtherwise(value: Option<real>, maxDistance: real)
    requires value.None? || value.value >= 1.0
    ensures MaxlagAsWritten(value) == Success(ResolveMaxlag(value, maxDistance))
  {
  }
}
