/** The parts of Python's runtime behaviour that the model depends on:
    exceptions as the error half of a Result, list indexing and slicing
    with negative indices, and `sum`. */
module PyCore {

  /** The exceptions the modelled code can raise, by class. */
  datatype PyError =
    | IndexError          // list index or pop out of range
    | ZeroDivisionError   // division by len() of an empty list
    | ValueError          // min() of an empty sequence
    | OverflowError       // int.to_bytes of a value that does not fit
    | TypeError           // unsupported operand types
    | NameError           // a name that was never bound
    | RaisedException(msg: string)  // a bare `raise Exception(...)`
    | SystemExit          // exit()

  datatype Option<+T> = None | Some(value: T)

  datatype Result<+T> = Ok(value: T) | Err(error: PyError)

  /** `s[i]` for a Python list: negative indices count from the end. */
  function PyIndex<T>(s: seq<T>, i: int): (r: Result<T>)
    ensures r.Ok? <==> -|s| <= i < |s|
    ensures 0 <= i < |s| ==> r == Ok(s[i])
    ensures -|s| <= i < 0 ==> r == Ok(s[|s| + i])
    ensures r.Err? ==> r.error == IndexError
  {
    if 0 <= i < |s| then Ok(s[i])
    else if -|s| <= i < 0 then Ok(s[|s| + i])
    else Err(IndexError)
  }

  /** A slice bound as Python resolves it for a list of length n: a
      negative bound counts from the end, and the result is clamped to
      [0, n]. */
  function SliceBound(i: int, n: nat): (r: nat)
    ensures r <= n
    ensures 0 <= i <= n ==> r == i
    ensures i > n ==> r == n
  {
    if i < 0 then (if i + n < 0 then 0 else i + n)
    else if i > n then n
    else i
  }

  /** `s[lo:hi]` for a Python list: both bounds are resolved by SliceBound,
      and a slice whose start is past its end is empty. */
  function PySlice<T>(s: seq<T>, lo: int, hi: int): (r: seq<T>)
    ensures |r| == Max(0, SliceBound(hi, |s|) - SliceBound(lo, |s|))
  {
    var a, b := SliceBound(lo, |s|), SliceBound(hi, |s|);
    if a < b then s[a..b] else []
  }

  /** Element k of a slice is element lo + k of the list (bounds resolved). */
  lemma PySliceElements<T>(s: seq<T>, lo: int, hi: int)
    ensures forall k :: 0 <= k < |PySlice(s, lo, hi)| ==> PySlice(s, lo, hi)[k] == s[SliceBound(lo, |s|) + k]
  {
  }

  /** With 0 <= lo <= hi the slice is the ordinary subsequence, clamped. */
  lemma PySliceNonNegative<T>(s: seq<T>, lo: int, hi: int)
    requires 0 <= lo <= hi
    ensures PySlice(s, lo, hi) == s[Min(lo, |s|)..Min(hi, |s|)]
  {
  }

  /** Decimal text of a natural number, as str() writes it: digits only,
      with no leading zero. */
  function NatToString(n: nat): (s: string)
    ensures |s| > 0 && forall i :: 0 <= i < |s| ==> '0' <= s[i] <= '9'
    ensures n >= 10 ==> s[0] != '0'
    ensures n < 10 <==> |s| == 1
  {
    var digit := ['0' + (n % 10) as char];
    if n < 10 then digit else NatToString(n / 10) + digit
  }

  /** The value of a decimal digit. */
  function DigitValue(c: char): nat
  {
    if '0' <= c <= '9' then (c as int - '0' as int) as nat else 0
  }

  /** The number a string of decimal digits denotes, read most significant
      digit first. */
  function DecimalValue(s: string): nat
  {
    if s == [] then 0 else 10 * DecimalValue(s[..|s| - 1]) + DigitValue(s[|s| - 1])
  }

  /** The text reads back as the number it was made from, so distinct
      numbers have distinct texts. */
  lemma {:induction false} NatToStringValue(n: nat)
    ensures DecimalValue(NatToString(n)) == n
  {
    var s := NatToString(n);
    assert DigitValue(s[|s| - 1]) == n % 10;
    if n >= 10 {
      NatToStringValue(n / 10);
      assert s[..|s| - 1] == NatToString(n / 10);
    } else {
      assert s[..|s| - 1] == [];
    }
  }

  function Min(a: int, b: int): int { if a <= b then a else b }
  function Max(a: int, b: int): int { if a >= b then a else b }

  /** Python's `sum` over a list of numbers, added left to right. */
  function Sum(s: seq<real>): real
  {
    if s == [] then 0.0 else Sum(s[..|s| - 1]) + s[|s| - 1]
  }

  lemma {:induction false} SumAppend(s: seq<real>, x: real)
    ensures Sum(s + [x]) == Sum(s) + x
  {
    assert (s + [x])[..|s + [x]| - 1] == s;
  }
}
