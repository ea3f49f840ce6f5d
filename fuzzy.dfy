/** A trapezoidal fuzzy membership function: four optional corner points and a
    linguistic term, evaluated to a degree of membership in [0, 1].

    Numbers are mathematical reals; the Java code widens every corner and value
    with doubleValue() before comparing or dividing. */
module Fuzzy {
  import opened Wrappers

  /** The shapes of fuzzy classification; the trapezoid is the only one here. */
  datatype FuzzyClassificationType = Trapezoid

  const ClosedFunctionMessage: string :=
    "null support values only allowed for functions open on the corresponding side"
  const BoundaryMessage: string := "The function needs to have a boundary on at least one side"
  const FieldError: string := "No field exists with name = "

  /** The names of the four corners, in the order getFields reports them. */
  const FieldNames: seq<string> := ["lowerLimit", "lowerSupportLimit", "upperSupportLimit", "upperLimit"]

  /** The argument checks of the constructor, in the order it makes them: an
      outer limit needs the support limit on its side, and at least one outer
      limit must be given. Corner ordering is not checked. */
  function CheckArguments(lowerLimit: Option<real>, lowerSupportLimit: Option<real>,
                          upperSupportLimit: Option<real>, upperLimit: Option<real>): (o: Outcome<string>)
    ensures o.Fail? <==>
      || (lowerLimit.Some? && lowerSupportLimit.None?)
      || (upperLimit.Some? && upperSupportLimit.None?)
      || (lowerLimit.None? && upperLimit.None?)
    ensures o.Fail? ==>
      o.error == if lowerLimit.None? && upperLimit.None? then BoundaryMessage else ClosedFunctionMessage
  {
    if lowerLimit.Some? && lowerSupportLimit.None? then Fail(ClosedFunctionMessage)
    else if upperLimit.Some? && upperSupportLimit.None? then Fail(ClosedFunctionMessage)
    else if lowerLimit.None? && upperLimit.None? then Fail(BoundaryMessage)
    else Pass
  }

  class TrapezoidClassification {
    const literal: string
    const lowerLimit: Option<real>
    const lowerSupportLimit: Option<real>
    const upperSupportLimit: Option<real>
    const upperLimit: Option<real>
    const leftOpen: bool
    const rightOpen: bool
    const isClosed: bool
    var fields: map<string, Option<real>>

    /** The constructor's checks hold of the corners and the openness flags describe them. */
    predicate Configured() {
      && CheckArguments(lowerLimit, lowerSupportLimit, upperSupportLimit, upperLimit).Pass?
      && leftOpen == lowerLimit.None?
      && rightOpen == upperLimit.None?
      && isClosed == (!rightOpen && !leftOpen)
    }

    /** The name-to-corner table that field access reads. */
    ghost function FieldTable(): map<string, Option<real>> {
      map[FieldNames[0] := lowerLimit, FieldNames[1] := lowerSupportLimit,
          FieldNames[2] := upperSupportLimit, FieldNames[3] := upperLimit]
    }

    ghost predicate Valid()
      reads this
    {
      Configured() && fields == FieldTable()
    }

    /** Stores the arguments and derives the openness flags; the checks that
        can make construction fail are those of Create. */
    constructor (literal: string, lowerLimit: Option<real>, lowerSupportLimit: Option<real>,
                 upperSupportLimit: Option<real>, upperLimit: Option<real>)
      requires CheckArguments(lowerLimit, lowerSupportLimit, upperSupportLimit, upperLimit).Pass?
      ensures Valid()
      ensures this.literal == literal
      ensures this.lowerLimit == lowerLimit && this.lowerSupportLimit == lowerSupportLimit
      ensures this.upperSupportLimit == upperSupportLimit && this.upperLimit == upperLimit
    {
      this.lowerLimit := lowerLimit;
      this.lowerSupportLimit := lowerSupportLimit;
      this.upperSupportLimit := upperSupportLimit;
      this.upperLimit := upperLimit;
      this.literal := literal;
      var left := lowerLimit.None?;
      var right := upperLimit.None?;
      leftOpen := left;
      rightOpen := right;
      isClosed := !right && !left;
      new;
      CreateFieldMap();
    }

    /** Construction as the Java constructor does it: it fails, with the message
        of the first check that does not hold, or yields a configured object
        holding exactly the given label and corners. */
    static method Create(literal: string, lowerLimit: Option<real>, lowerSupportLimit: Option<real>,
                         upperSupportLimit: Option<real>, upperLimit: Option<real>)
      returns (r: Result<TrapezoidClassification, string>)
      ensures r.Failure? <==> CheckArguments(lowerLimit, lowerSupportLimit, upperSupportLimit, upperLimit).Fail?
      ensures r.Failure? ==> r.error == CheckArguments(lowerLimit, lowerSupportLimit, upperSupportLimit, upperLimit).error
      ensures r.Success? ==> fresh(r.value) && r.value.Valid()
      ensures r.Success? ==> r.value.GetLinguisticTerm() == literal && r.value.GetType() == Trapezoid
      ensures r.Success? ==> r.value.lowerLimit == lowerLimit && r.value.lowerSupportLimit == lowerSupportLimit
      ensures r.Success? ==> r.value.upperSupportLimit == upperSupportLimit && r.value.upperLimit == upperLimit
    {
      var check := CheckArguments(lowerLimit, lowerSupportLimit, upperSupportLimit, upperLimit);
      if check.Fail? {
        return Failure(check.error);
      }
      var t := new TrapezoidClassification(literal, lowerLimit, lowerSupportLimit, upperSupportLimit, upperLimit);
      return Success(t);
    }

    /** Fills the name-to-corner table, one entry per corner. */
    method CreateFieldMap()
      modifies this
      ensures fields == FieldTable()
    {
      fields := map[];
      fields := fields[FieldNames[0] := lowerLimit];
      fields := fields[FieldNames[1] := lowerSupportLimit];
      fields := fields[FieldNames[2] := upperSupportLimit];
      fields := fields[FieldNames[3] := upperLimit];
    }

    /** The arithmetic mean of the values, accumulated front to back. */
    method GetAverage(values: seq<real>) returns (average: real)
      requires |values| > 0
      ensures average == Sum(values) / |values| as real
    {
      var d := 0.0;
      for i := 0 to |values|
        invariant d == Sum(values[..i])
      {
        assert values[..i + 1][..i] == values[..i];
        d := d + values[i];
      }
      assert values[..|values|] == values;
      average := d / |values| as real;
    }

    /** On the plateau: at or below the upper support limit when open on the
        left, at or above the lower support limit when open on the right, and
        between the two support limits when closed. */
    predicate IsOne(value: real): (b: bool)
      requires Configured()
      ensures b ==> !IsRising(value) && !IsFalling(value)
    {
      || (leftOpen && value <= upperSupportLimit.value)
      || (rightOpen && value >= lowerSupportLimit.value)
      || (isClosed && lowerSupportLimit.value <= value && value <= upperSupportLimit.value)
    }

    /** Strictly inside the rising edge of a function with a lower limit. */
    predicate IsRising(value: real): (b: bool)
      requires Configured()
      ensures b ==> lowerLimit.Some? && lowerSupportLimit.Some? && lowerLimit.value < lowerSupportLimit.value
    {
      (isClosed || rightOpen) && lowerLimit.value < value && value < lowerSupportLimit.value
    }

    /** Strictly inside the falling edge of a function with an upper limit. */
    predicate IsFalling(value: real): (b: bool)
      requires Configured()
      ensures b ==> upperSupportLimit.Some? && upperLimit.Some? && upperSupportLimit.value < upperLimit.value
    {
      (isClosed || leftOpen) && upperSupportLimit.value < value && value < upperLimit.value
    }

    /** Linear interpolation along an edge from lowValue to highValue: the
        fraction of the edge covered up to value, or its complement on a
        falling edge. The divisor is the edge's width, which callers keep positive. */
    static function GetDifference(lowValue: real, highValue: real, value: real, isFalling: bool): (r: real)
      requires lowValue < highValue
      ensures r * (highValue - lowValue) == if isFalling then highValue - value else value - lowValue
      ensures lowValue < value < highValue ==> 0.0 < r < 1.0
    {
      var diff := highValue - lowValue;
      var relValue := value - lowValue;
      QuotientBounds(relValue, diff);
      if isFalling then 1.0 - relValue / diff else relValue / diff
    }

    /** The degree of membership of value: 1 on the plateau, else the rising
        edge, else the falling edge, else 0. */
    function GetClassification(value: real): (r: real)
      requires Configured()
      ensures 0.0 <= r <= 1.0
      ensures r == 1.0 <==> IsOne(value)
      ensures r == 0.0 <==> !IsOne(value) && !IsRising(value) && !IsFalling(value)
    {
      if IsOne(value) then 1.0
      else if IsRising(value) then GetDifference(lowerLimit.value, lowerSupportLimit.value, value, false)
      else if IsFalling(value) then GetDifference(upperSupportLimit.value, upperLimit.value, value, true)
      else 0.0
    }

    /** The degree of every value of the map, under the same key. */
    method GetClassifications(discreteValues: map<string, real>) returns (result: map<string, real>)
      requires Configured()
      ensures result.Keys == discreteValues.Keys
      ensures forall key :: key in result ==> result[key] == GetClassification(discreteValues[key])
    {
      result := map[];
      var pending := discreteValues.Keys;
      while pending != {}
        invariant pending <= discreteValues.Keys
        invariant result.Keys == discreteValues.Keys - pending
        invariant forall key :: key in result ==> result[key] == GetClassification(discreteValues[key])
        decreases pending
      {
        var key :| key in pending;
        result := result[key := GetClassification(discreteValues[key])];
        pending := pending - {key};
      }
    }

    /** The names of the four corners, without repetition. */
    function GetFields(): (r: seq<string>)
      ensures |r| == 4 && forall i, j :: 0 <= i < j < |r| ==> r[i] != r[j]
    {
      FieldNames
    }

    /** The corner stored under a field name, which may be absent; any other
        name is an illegal argument. */
    function GetFieldValue(fieldName: string): (r: Result<Option<real>, string>)
      reads this
      requires Valid()
      ensures r.Failure? <==> fieldName !in FieldNames
      ensures r.Failure? ==> r.error == FieldError + fieldName
      ensures fieldName == "lowerLimit" ==> r == Success(lowerLimit)
      ensures fieldName == "lowerSupportLimit" ==> r == Success(lowerSupportLimit)
      ensures fieldName == "upperSupportLimit" ==> r == Success(upperSupportLimit)
      ensures fieldName == "upperLimit" ==> r == Success(upperLimit)
    {
      if fieldName !in fields then Failure(FieldError + fieldName) else Success(fields[fieldName])
    }

    function GetLinguisticTerm(): string {
      literal
    }

    function GetType(): FuzzyClassificationType {
      Trapezoid
    }

    /** Each present edge rises or falls strictly, and a closed plateau is non-empty. */
    ghost predicate Ordered()
      requires Configured()
    {
      && (lowerLimit.Some? ==> lowerLimit.value < lowerSupportLimit.value)
      && (upperLimit.Some? ==> upperSupportLimit.value < upperLimit.value)
      && (isClosed ==> lowerSupportLimit.value <= upperSupportLimit.value)
    }

    /** The textbook trapezoid, max(0, min(1, rise, fall)), where an open side
        contributes no bound. */
    ghost function TextbookDegree(value: real): real
      requires Configured() && Ordered()
    {
      var rise := if leftOpen then 1.0 else (value - lowerLimit.value) / (lowerSupportLimit.value - lowerLimit.value);
      var fall := if rightOpen then 1.0 else (upperLimit.value - value) / (upperLimit.value - upperSupportLimit.value);
      Max(0.0, Min(1.0, Min(rise, fall)))
    }
  }

  function Min(x: real, y: real): real { if x <= y then x else y }
  function Max(x: real, y: real): real { if x <= y then y else x }

  /** The sum of a sequence, adding its elements from front to back. */
  function Sum(s: seq<real>): real {
    if |s| == 0 then 0.0 else Sum(s[..|s| - 1]) + s[|s| - 1]
  }

  /** Where a quotient by a positive divisor lies against 0 and 1. */
  lemma QuotientBounds(x: real, y: real)
    requires y > 0.0
    ensures x <= 0.0 ==> x / y <= 0.0
    ensures 0.0 < x < y ==> 0.0 < x / y < 1.0
    ensures x >= y ==> x / y >= 1.0
  {
    var q := x / y;
    assert q * y == x;
    ScaleMonotone(q, 1.0, y);
    ScaleMonotone(0.0, q, y);
  }

  /** One minus a fraction of d is the complementary fraction of d. */
  lemma QuotientComplement(x: real, d: real)
    requires d > 0.0
    ensures 1.0 - x / d == (d - x) / d
  {
    var p, q := x / d, (d - x) / d;
    assert p * d == x && q * d == d - x;
    assert (1.0 - p - q) * d == 0.0;
    ScaleMonotone(1.0 - p - q, 0.0, d);
    ScaleMonotone(0.0, 1.0 - p - q, d);
  }

  lemma ScaleMonotone(a: real, b: real, y: real)
    requires y > 0.0
    ensures a >= b ==> a * y >= b * y
    ensures a > b ==> a * y > b * y
  {
  }

  /** A configured function is open on at most one side, and every corner the
      region tests dereference is present on the side they read it. */
  lemma ReadCornersPresent(t: TrapezoidClassification)
    requires t.Configured()
    ensures (t.leftOpen <==> t.lowerLimit.None?) && (t.rightOpen <==> t.upperLimit.None?)
    ensures t.isClosed <==> !t.leftOpen && !t.rightOpen
    ensures !(t.leftOpen && t.rightOpen)
    ensures t.leftOpen || t.isClosed ==> t.upperSupportLimit.Some? && t.upperLimit.Some?
    ensures t.rightOpen || t.isClosed ==> t.lowerLimit.Some? && t.lowerSupportLimit.Some?
  {
  }

  /** The plateau is tested first: on it the degree is 1 whatever the edges say. */
  lemma PlateauTakesPrecedence(t: TrapezoidClassification, v: real)
    requires t.Configured()
    ensures t.leftOpen && v <= t.upperSupportLimit.value ==> t.GetClassification(v) == 1.0
    ensures t.rightOpen && v >= t.lowerSupportLimit.value ==> t.GetClassification(v) == 1.0
    ensures t.isClosed && t.lowerSupportLimit.value <= v <= t.upperSupportLimit.value ==> t.GetClassification(v) == 1.0
  {
  }

  /** Off the plateau the degree interpolates the rising edge, else the falling
      edge, strictly between 0 and 1, and is 0 outside both. */
  lemma EdgeFormulas(t: TrapezoidClassification, v: real)
    requires t.Configured() && !t.IsOne(v)
    ensures t.IsRising(v) ==>
      && t.lowerSupportLimit.value - t.lowerLimit.value > 0.0
      && t.GetClassification(v) == (v - t.lowerLimit.value) / (t.lowerSupportLimit.value - t.lowerLimit.value)
      && 0.0 < t.GetClassification(v) < 1.0
    ensures !t.IsRising(v) && t.IsFalling(v) ==>
      && t.upperLimit.value - t.upperSupportLimit.value > 0.0
      && t.GetClassification(v) == 1.0 - (v - t.upperSupportLimit.value) / (t.upperLimit.value - t.upperSupportLimit.value)
      && 0.0 < t.GetClassification(v) < 1.0
    ensures !t.IsRising(v) && !t.IsFalling(v) ==> t.GetClassification(v) == 0.0
  {
  }

  /** When each present edge rises or falls strictly and a closed plateau is
      non-empty, the regions never overlap. */
  lemma OrderedRegionsDisjoint(t: TrapezoidClassification, v: real)
    requires t.Configured() && t.Ordered()
    ensures !(t.IsOne(v) && t.IsRising(v))
    ensures !(t.IsOne(v) && t.IsFalling(v))
    ensures !(t.IsRising(v) && t.IsFalling(v))
  {
  }

  /** When each present edge rises or falls strictly and a closed plateau is
      non-empty, the degree is the textbook trapezoid
      max(0, min(1, rise, fall)). */
  lemma {:induction false} MatchesTextbookTrapezoid(t: TrapezoidClassification, v: real)
    requires t.Configured() && t.Ordered()
    ensures t.GetClassification(v) == t.TextbookDegree(v)
  {
    var rise := if t.leftOpen then 1.0
      else (v - t.lowerLimit.value) / (t.lowerSupportLimit.value - t.lowerLimit.value);
    var fall := if t.rightOpen then 1.0
      else (t.upperLimit.value - v) / (t.upperLimit.value - t.upperSupportLimit.value);
    if !t.leftOpen {
      QuotientBounds(v - t.lowerLimit.value, t.lowerSupportLimit.value - t.lowerLimit.value);
    }
    if !t.rightOpen {
      QuotientBounds(t.upperLimit.value - v, t.upperLimit.value - t.upperSupportLimit.value);
      var d := t.upperLimit.value - t.upperSupportLimit.value;
      QuotientComplement(v - t.upperSupportLimit.value, d);
      assert d - (v - t.upperSupportLimit.value) == t.upperLimit.value - v;
    }
  }

  /** Every field name maps to the corner given at construction, and only
      field names are accepted. */
  lemma FieldAccessRoundTrip(t: TrapezoidClassification)
    requires t.Valid()
    ensures forall name :: t.GetFieldValue(name).Success? <==> name in t.GetFields()
    ensures t.GetFields() == ["lowerLimit", "lowerSupportLimit", "upperSupportLimit", "upperLimit"]
    ensures t.GetFieldValue(t.GetFields()[0]) == Success(t.lowerLimit)
    ensures t.GetFieldValue(t.GetFields()[1]) == Success(t.lowerSupportLimit)
    ensures t.GetFieldValue(t.GetFields()[2]) == Success(t.upperSupportLimit)
    ensures t.GetFieldValue(t.GetFields()[3]) == Success(t.upperLimit)
  {
  }

  /** A sum of values that all lie in [lo, hi] lies between |s| * lo and |s| * hi. */
  lemma {:induction false} SumBounds(s: seq<real>, lo: real, hi: real)
    requires forall i :: 0 <= i < |s| ==> lo <= s[i] <= hi
    ensures |s| as real * lo <= Sum(s) <= |s| as real * hi
  {
    if |s| > 0 {
      SumBounds(s[..|s| - 1], lo, hi);
    }
  }

  /** The mean of values that all lie in [lo, hi] lies in [lo, hi]; in
      particular the mean of degrees is a degree. */
  lemma AverageWithinBounds(s: seq<real>, lo: real, hi: real)
    requires |s| > 0
    requires forall i :: 0 <= i < |s| ==> lo <= s[i] <= hi
    ensures lo <= Sum(s) / |s| as real <= hi
  {
    SumBounds(s, lo, hi);
    var n := |s| as real;
    var m := Sum(s) / n;
    assert m * n == Sum(s);
    ScaleMonotone(m, lo, n);
    ScaleMonotone(hi, m, n);
  }

  /** The closed trapezoid (0, 2, 8, 10): plateau, both edge midpoints, outside. */
  lemma ClosedTrapezoidExample(t: TrapezoidClassification)
    requires t.Configured()
    requires t.lowerLimit == Some(0.0) && t.lowerSupportLimit == Some(2.0)
    requires t.upperSupportLimit == Some(8.0) && t.upperLimit == Some(10.0)
    ensures t.GetClassification(5.0) == 1.0 && t.GetClassification(2.0) == 1.0 && t.GetClassification(8.0) == 1.0
    ensures t.GetClassification(1.0) == 0.5 && t.GetClassification(9.0) == 0.5
    ensures t.GetClassification(-1.0) == 0.0 && t.GetClassification(11.0) == 0.0
  {
  }

  /** The left-open trapezoid (absent, 5, 8, 10): everything up to 8 is on the plateau. */
  lemma LeftOpenExample(t: TrapezoidClassification)
    requires t.Configured()
    requires t.lowerLimit == None && t.lowerSupportLimit == Some(5.0)
    requires t.upperSupportLimit == Some(8.0) && t.upperLimit == Some(10.0)
    ensures t.GetClassification(3.0) == 1.0 && t.GetClassification(9.0) == 0.5
    ensures t.GetClassification(-100.0) == 1.0 && t.GetClassification(10.0) == 0.0
  {
  }

  /** When a closed plateau is empty the edges can overlap, even though each
      edge is strict: for the closed corners (0, 10, 2, 5) the value 3 is on
      both edges and the rising edge wins. */
  lemma UnorderedEdgesOverlap(t: TrapezoidClassification)
    requires t.Configured()
    requires t.lowerLimit == Some(0.0) && t.lowerSupportLimit == Some(10.0)
    requires t.upperSupportLimit == Some(2.0) && t.upperLimit == Some(5.0)
    ensures t.lowerLimit.value < t.lowerSupportLimit.value && t.upperSupportLimit.value < t.upperLimit.value
    ensures !t.Ordered()
    ensures !t.IsOne(3.0) && t.IsRising(3.0) && t.IsFalling(3.0)
    ensures t.GetClassification(3.0) == 0.3
  {
  }

  /** The mean of 1, 2 and 3 is 2. */
  lemma AverageExample()
    ensures Sum([1.0, 2.0, 3.0]) / 3.0 == 2.0
  {
    assert [1.0, 2.0, 3.0][..2] == [1.0, 2.0];
    assert [1.0, 2.0][..1] == [1.0];
    assert [1.0][..0] == [];
  }
}
