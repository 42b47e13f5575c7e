/**
 * Re-implementations of two MATLAB helpers used by the quality control:
 * movmean (a truncated moving average) and preparecurvedata (input
 * validation before curve fitting).
 */
module MatlabHelpers {
  import opened PyCore

  // ---------------------------------------------------------------------
  // movmean

  /** The window of movmean(A, k) at position col:
      A[max(0, col - k // 2) : col + k // 2 + k % 2], with Python's floor
      division and non-negative remainder (Dafny's / and % agree with them
      for the divisor 2). */
  function Window(A: seq<real>, k: int, col: int): seq<real>
  {
    PySlice(A, Max(0, col - k / 2), col + k / 2 + k % 2)
  }

  /** The mean of a non-empty list: sum(w) / len(w). */
  function Mean(w: seq<real>): real
    requires |w| > 0
  {
    Sum(w) / |w| as real
  }

  /** movmean(A, k): one window mean per position; an empty window makes
      the division by its length raise ZeroDivisionError. */
  method Movmean(A: seq<real>, k: int) returns (r: Result<seq<real>>)
    ensures |A| == 0 ==> r == Ok([])
    ensures r.Ok? <==> forall col :: 0 <= col < |A| ==> |Window(A, k, col)| > 0
    ensures r.Err? ==> r.error == ZeroDivisionError
    ensures r.Ok? ==> |r.value| == |A|
    ensures r.Ok? ==> forall col :: 0 <= col < |A| ==> |Window(A, k, col)| > 0 && r.value[col] == Mean(Window(A, k, col))
  {
    var ret: seq<real> := [];
    if |A| == 0 {
      return Ok([]);
    }
    for col := 0 to |A|
      invariant |ret| == col
      invariant forall c :: 0 <= c < col ==> |Window(A, k, c)| > 0 && ret[c] == Mean(Window(A, k, c))
    {
      var sublist := Window(A, k, col);
      if |sublist| == 0 {
        assert !(|Window(A, k, col)| > 0);
        return Err(ZeroDivisionError);
      }
      ret := ret + [Sum(sublist) / |sublist| as real];
    }
    r := Ok(ret);
  }

  /** For k >= 1 every window is non-empty: it runs from k // 2 before col
      to k // 2 + k % 2 after it, truncated at both ends of A. */
  lemma WindowShape(A: seq<real>, k: int, col: nat)
    requires k >= 1 && col < |A|
    ensures Window(A, k, col) == A[Max(0, col - k / 2)..Min(|A|, col + k / 2 + k % 2)]
    ensures Max(0, col - k / 2) <= col < Min(|A|, col + k / 2 + k % 2)
  {
    PySliceNonNegative(A, Max(0, col - k / 2), col + k / 2 + k % 2);
  }

  /** Away from the ends the window has exactly k elements; for odd k it is
      centred on col, for even k it holds k/2 elements before col and
      k/2 - 1 after. */
  lemma WindowCentred(A: seq<real>, k: int, col: nat)
    requires k >= 1 && k / 2 <= col && col + k / 2 + k % 2 <= |A|
    ensures |Window(A, k, col)| == k
    ensures k % 2 == 1 ==> Window(A, k, col) == A[col - k / 2..col + k / 2 + 1]
    ensures k % 2 == 0 ==> Window(A, k, col) == A[col - k / 2..col + k / 2]
  {
    WindowShape(A, k, col);
  }

  /** With k == 0 and a non-empty A the first window is empty, so movmean
      raises ZeroDivisionError. */
  lemma ZeroWindowEmpty(A: seq<real>, col: nat)
    ensures |Window(A, 0, col)| == 0
  {
  }

  /** A window of one element is that element, so movmean(A, 1) == A. */
  lemma MeanOfUnitWindow(A: seq<real>, col: nat)
    requires col < |A|
    ensures |Window(A, 1, col)| == 1 && Mean(Window(A, 1, col)) == A[col]
  {
    WindowShape(A, 1, col);
    assert Window(A, 1, col) == [A[col]];
    assert Sum([A[col]]) == Sum([]) + A[col];
  }

  lemma {:induction false} SumBounds(w: seq<real>, lo: real, hi: real)
    requires forall i :: 0 <= i < |w| ==> lo <= w[i] <= hi
    ensures lo * |w| as real <= Sum(w) <= hi * |w| as real
  {
    if w != [] {
      SumBounds(w[..|w| - 1], lo, hi);
    }
  }

  /** Every output of movmean lies between any lower and upper bound of its
      window's elements, in particular between their minimum and maximum;
      when all elements are equal the mean is that value. */
  lemma MeanBetweenBounds(w: seq<real>, lo: real, hi: real)
    requires |w| > 0
    requires forall i :: 0 <= i < |w| ==> lo <= w[i] <= hi
    ensures lo <= Mean(w) <= hi
  {
    SumBounds(w, lo, hi);
    var n := |w| as real;
    var m := Mean(w);
    assert m * n == Sum(w);
  }

  /** A constant list is a fixed point of movmean, for any k >= 1. */
  lemma MovmeanOfConstant(A: seq<real>, k: int, c: real, col: nat)
    requires k >= 1 && col < |A|
    requires forall i :: 0 <= i < |A| ==> A[i] == c
    ensures |Window(A, k, col)| > 0 && Mean(Window(A, k, col)) == c
  {
    WindowShape(A, k, col);
    var w := Window(A, k, col);
    assert forall i :: 0 <= i < |w| ==> w[i] == A[Max(0, col - k / 2) + i];
    MeanBetweenBounds(w, c, c);
  }

  // ---------------------------------------------------------------------
  // preparecurvedata

  /** The Python values preparecurvedata can be given. */
  datatype PyValue =
    | PyInt(i: int)
    | PyFloat(f: real)
    | PyBool(b: bool)
    | PyStr(s: string)
    | PyNone
    | PyList(items: seq<PyValue>)

  /** `type(elem) == float or type(elem) == int`: bool is its own type. */
  predicate Numeric(v: PyValue)
  {
    v.PyInt? || v.PyFloat?
  }

  /** str(type(v)) for a value of each kind. */
  function TypeRepr(v: PyValue): string
  {
    match v
    case PyInt(_) => "<class 'int'>"
    case PyFloat(_) => "<class 'float'>"
    case PyBool(_) => "<class 'bool'>"
    case PyStr(_) => "<class 'str'>"
    case PyNone => "<class 'NoneType'>"
    case PyList(_) => "<class 'list'>"
  }

  /** The f-string raised when an argument is not a list. */
  function NotListsMessage(list1: PyValue, list2: PyValue): string
  {
    "Both inputs must be lists. type(list1): " + TypeRepr(list1) + "; type(list2): " + TypeRepr(list2)
  }

  /** The f-string raised when the lengths differ. */
  function LengthMessage(n1: nat, n2: nat): string
  {
    "Both lists must have the same number of elements. len(list1): " + NatToString(n1) + "; len(list2): " + NatToString(n2)
  }

  const NotNumeric1Message := "All list elements must be floats or integers: list1"
  const NotNumeric2Message := "All list elements must be floats or integers: list2"

  /** preparecurvedata(list1, list2): four guards raise in order (not both
      lists, different lengths, a non-numeric element in list1, then in
      list2); otherwise both lists are returned unchanged. The NaN/Inf flag
      loop sets flags that are never read, so it has no counterpart. */
  function PrepareCurveData(list1: PyValue, list2: PyValue): (r: Result<(seq<PyValue>, seq<PyValue>)>)
    ensures r.Ok? <==>
      && list1.PyList? && list2.PyList?
      && |list1.items| == |list2.items|
      && (forall i :: 0 <= i < |list1.items| ==> Numeric(list1.items[i]))
      && (forall i :: 0 <= i < |list2.items| ==> Numeric(list2.items[i]))
    ensures r.Ok? ==> r.value == (list1.items, list2.items)
    ensures r.Err? ==> r.error.RaisedException?
    ensures !(list1.PyList? && list2.PyList?) ==> r == Err(RaisedException(NotListsMessage(list1, list2)))
    ensures list1.PyList? && list2.PyList? && |list1.items| != |list2.items| ==>
      r == Err(RaisedException(LengthMessage(|list1.items|, |list2.items|)))
  {
    if !list1.PyList? || !list2.PyList? then Err(RaisedException(NotListsMessage(list1, list2)))
    else if |list1.items| != |list2.items| then Err(RaisedException(LengthMessage(|list1.items|, |list2.items|)))
    else if !(forall i :: 0 <= i < |list1.items| ==> Numeric(list1.items[i])) then
      Err(RaisedException(NotNumeric1Message))
    else if !(forall i :: 0 <= i < |list2.items| ==> Numeric(list2.items[i])) then
      Err(RaisedException(NotNumeric2Message))
    else Ok((list1.items, list2.items))
  }

  /** Accepted data passes again unchanged: the validation is idempotent. */
  lemma PrepareCurveDataIdempotent(list1: PyValue, list2: PyValue)
    requires PrepareCurveData(list1, list2).Ok?
    ensures var (x, y) := PrepareCurveData(list1, list2).value;
      PrepareCurveData(PyList(x), PyList(y)) == Ok((x, y))
  {
  }

  /** A bool element is rejected even though Python treats it as a number
      in arithmetic. */
  lemma BoolRejected(xs: seq<PyValue>, ys: seq<PyValue>, i: nat)
    requires |xs| == |ys| && i < |xs| && xs[i].PyBool?
    ensures PrepareCurveData(PyList(xs), PyList(ys)) == Err(RaisedException(NotNumeric1Message))
  {
  }
}
