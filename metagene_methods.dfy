/** metageneMethods.py: the integer validator shared by Metagene and Feature. */
module MetageneMethods {
  import opened Wrappers
  import opened Errors

  /** A Python value handed to a validator: an int, a float or a str. */
  datatype PyValue = PyInt(i: int) | PyFloat(x: real) | PyText(s: string)

  /** `value == int(value)` holds without `int` raising. No str passes: `int("ten")`
      raises ValueError and, in Python 2, `"10" != 10`. */
  predicate Integral(value: PyValue) {
    match value
    case PyInt(_) => true
    case PyFloat(x) => x == x.Floor as real
    case PyText(_) => false
  }

  /** The number a non-text value stands for. */
  function Number(value: PyValue): real
    requires !value.PyText?
  {
    match value
    case PyInt(i) => i as real
    case PyFloat(x) => x
  }

  /** `int(value)` of a value that passed Integral. */
  function ToInt(value: PyValue): (n: int)
    requires Integral(value)
    ensures n as real == Number(value)
  {
    match value
    case PyInt(i) => i
    case PyFloat(x) => x.Floor
  }

  predicate AtLeast(value: PyValue, minimum: Option<int>)
    requires !value.PyText?
  {
    minimum.None? || minimum.value as real <= Number(value)
  }

  predicate AtMost(value: PyValue, maximum: Option<int>)
    requires !value.PyText?
  {
    maximum.None? || Number(value) <= maximum.value as real
  }

  /** confirm_integer: True, or one of four MetageneErrors; never False. A bound
      given as None is not checked. */
  function ConfirmInteger(value: PyValue, descriptor: string, minimum: Option<int>, maximum: Option<int>)
    : (r: Result<bool, Error>)
    ensures r.Success? ==> r.value
    ensures r.Success? <==> Integral(value) && AtLeast(value, minimum) && AtMost(value, maximum)
    ensures !Integral(value) ==> r == Failure(NotAnInteger(descriptor))
    ensures Integral(value) && !AtLeast(value, minimum) && !AtMost(value, maximum) ==>
              r == Failure(OutsideBoundaries(descriptor, minimum.value, maximum.value))
    ensures Integral(value) && !AtLeast(value, minimum) && AtMost(value, maximum) ==>
              r == Failure(LessThanMinimum(descriptor, minimum.value))
    ensures Integral(value) && AtLeast(value, minimum) && !AtMost(value, maximum) ==>
              r == Failure(GreaterThanMaximum(descriptor, maximum.value))
  {
    if !Integral(value) then Failure(NotAnInteger(descriptor))
    else
      var x := Number(value);
      var aboveMinimum := !(minimum.Some? && x < minimum.value as real);
      var belowMaximum := !(maximum.Some? && x > maximum.value as real);
      if aboveMinimum && belowMaximum then Success(true)
      else if !aboveMinimum && !belowMaximum then
        Failure(OutsideBoundaries(descriptor, minimum.value, maximum.value))
      else if !aboveMinimum then Failure(LessThanMinimum(descriptor, minimum.value))
      else Failure(GreaterThanMaximum(descriptor, maximum.value))
  }

  /** Both bounds can only be violated at once when the minimum exceeds the maximum. */
  lemma OutsideBoundariesNeedsCrossedBounds(value: PyValue, descriptor: string, minimum: int, maximum: int)
    requires ConfirmInteger(value, descriptor, Some(minimum), Some(maximum)).Failure?
    requires ConfirmInteger(value, descriptor, Some(minimum), Some(maximum)).error.OutsideBoundaries?
    ensures minimum > maximum
  {
  }
}
