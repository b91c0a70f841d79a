/**
 * The byte-size formatter: a byte count is shown in the largest unit of
 * TB, GB, MB, KB and B (powers of 1024) whose divisor does not exceed it.
 *
 * The numeric part, a `double` quotient rendered by `DecimalFormat("#,##0.#")`,
 * is left abstract: it is the function `render`, applied to the count and the
 * chosen divisor. What is modelled exactly is the choice of divisor and unit,
 * the error for counts below 1, and the `" " + unit` suffix.
 */
module MemoryUtils {
  import opened JavaLang

  const K: int := 1024
  const M: int := K * K
  const G: int := M * K
  const T: int := G * K

  /** The divisors, largest first, and the unit name that belongs to each by position. */
  const Dividers: seq<int> := [T, G, M, K, 1]
  const Units: seq<string> := ["TB", "GB", "MB", "KB", "B"]

  /** The abstract rendering of `value / divider` (or of `value` itself when the divider is 1). */
  type NumberRenderer = (int, int) -> string

  /** The divisor constants are the powers of 1024 and all of them are Java `long` values. */
  lemma DividerConstants()
    ensures K == 1024 && M == 1024 * 1024 && G == 1024 * 1024 * 1024
    ensures T == 1024 * 1024 * 1024 * 1024 == 1_099_511_627_776
    ensures forall i :: 0 <= i < |Dividers| ==> 1 <= Dividers[i] && IsLong(Dividers[i])
  {
  }

  /** The table pairs every unit with its divisor: TB with 1024^4 down to B with 1. */
  lemma UnitTable()
    ensures |Dividers| == |Units| == 5
    ensures Units[0] == "TB" && Dividers[0] == T
    ensures Units[1] == "GB" && Dividers[1] == G
    ensures Units[2] == "MB" && Dividers[2] == M
    ensures Units[3] == "KB" && Dividers[3] == K
    ensures Units[4] == "B" && Dividers[4] == 1
    ensures forall i, j :: 0 <= i < j < |Dividers| ==> Dividers[j] < Dividers[i]
  {
  }

  /**
   * The first position, scanning the table from `from` onwards, whose divisor is at most
   * `value`. The scan always stops inside the table because the last divisor is 1.
   */
  function FirstFitFrom(value: int, from: nat): (i: nat)
    requires value >= 1 && from < |Dividers|
    ensures from <= i < |Dividers|
    ensures Dividers[i] <= value
    ensures forall j :: from <= j < i ==> value < Dividers[j]
    decreases |Dividers| - from
  {
    if Dividers[from] <= value then from else FirstFitFrom(value, from + 1)
  }

  /** The position in the table of the unit a count is shown in. */
  function UnitIndex(value: int): (i: nat)
    requires value >= 1
    ensures i < |Dividers| && Dividers[i] <= value
    ensures forall j :: 0 <= j < i ==> value < Dividers[j]
  {
    FirstFitFrom(value, 0)
  }

  /**
   * The chosen unit is the largest one that fits: its divisor is at most the value,
   * and the value is below the next larger divisor, if there is one; no other
   * position of the table has both properties.
   */
  lemma LargestFittingUnit(value: int, i: nat)
    requires value >= 1 && i < |Dividers|
    ensures UnitIndex(value) == i <==> Dividers[i] <= value && (i == 0 || value < Dividers[i - 1])
  {
    UnitTable();
  }

  /** Unit selection is monotone: a larger count is never shown in a smaller unit. */
  lemma UnitIndexMonotone(a: int, b: int)
    requires 1 <= a <= b
    ensures UnitIndex(b) <= UnitIndex(a)
  {
    var ia := UnitIndex(a);
    assert Dividers[ia] <= b;
  }

  /** The count ranges that select each unit. */
  lemma UnitRanges(value: int)
    requires value >= 1
    ensures Units[UnitIndex(value)] == "B" <==> value < K
    ensures Units[UnitIndex(value)] == "KB" <==> K <= value < M
    ensures Units[UnitIndex(value)] == "MB" <==> M <= value < G
    ensures Units[UnitIndex(value)] == "GB" <==> G <= value < T
    ensures Units[UnitIndex(value)] == "TB" <==> T <= value
  {
    UnitTable();
    LargestFittingUnit(value, UnitIndex(value));
  }

  /** `format(value, divider, unit)`: the rendered number, a space, and the unit name. */
  function Format(value: int, divider: int, unit: string, render: NumberRenderer): (s: string)
    ensures EndsWith(s, " " + unit)
  {
    render(value, divider) + " " + unit
  }

  /** The message of the exception thrown for a count below 1. */
  function InvalidSizeMessage(value: int): string {
    "Invalid memory size: " + LongToString(value)
  }

  /**
   * What `convertToStringRepresentation` yields: an IllegalArgumentException for a count
   * below 1, otherwise the count formatted with the unit UnitIndex selects.
   */
  function Representation(value: int, render: NumberRenderer): (r: Result<string>)
    ensures r.Threw? <==> value < 1
    ensures r.Threw? ==> r.exception == IllegalArgumentException(InvalidSizeMessage(value))
    ensures r.Ok? ==> EndsWith(r.value, " " + Units[UnitIndex(value)])
  {
    if value < 1 then Threw(IllegalArgumentException(InvalidSizeMessage(value)))
    else Ok(Format(value, Dividers[UnitIndex(value)], Units[UnitIndex(value)], render))
  }

  /**
   * `convertToStringRepresentation`: rejects counts below 1, then walks the divisor table
   * from the largest divisor down and formats with the first divisor that fits.
   */
  method ConvertToStringRepresentation(value: int, render: NumberRenderer) returns (r: Result<string>)
    ensures r == Representation(value, render)
  {
    var dividers := Dividers;
    var units := Units;
    if value < 1 {
      return Threw(IllegalArgumentException(InvalidSizeMessage(value)));
    }
    var result: Option<string> := None;
    var i := 0;
    while i < |dividers|
      invariant 0 <= i <= |dividers|
      invariant result == None
      invariant forall j :: 0 <= j < i ==> value < dividers[j]
    {
      var divider := dividers[i];
      if value >= divider {
        result := Some(Format(value, divider, units[i], render));
        LargestFittingUnit(value, i);
        break;
      }
      i := i + 1;
    }
    assert dividers[|dividers| - 1] == 1;
    if result == None {
      // the last divisor is 1 <= value, so the loop always stops with a result
      assert false;
    }
    r := Ok(result.value);
  }
}
