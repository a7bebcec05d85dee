/** Shared vocabulary of the model: the wrapper's exception classes as an
    error datatype, a failure-compatible Result, and the fixed-width
    unsigned arithmetic that `size_t` / `hsize_t` code relies on. */
module Wrappers {

  /** The exception classes the wrapper throws (H5Exception.hpp is not part
      of this model; only the class of each exception matters here). */
  datatype ErrorKind =
    | GroupException
    | DataSetException
    | DataSpaceException
    | DataTypeException
    | AttributeException
    | FileException
    | ObjectException
    | PropertyException
    | EasyException      // H5Easy::Exception
    | OutOfRange         // std::out_of_range, from std::vector::at

  datatype Error = Error(kind: ErrorKind, message: string)

  /** hid_t of no object. */
  const H5I_INVALID_HID: int := -1

  datatype Result<+T> = Ok(value: T) | Err(error: Error) {
    predicate IsFailure() { Err? }

    function PropagateFailure<U>(): Result<U>
      requires Err?
    {
      Err(error)
    }

    function Extract(): T
      requires Ok?
    {
      value
    }
  }

  datatype Option<+T> = None | Some(value: T)

  /** A status-only outcome, for operations that return `void` or throw. */
  datatype Outcome = Pass | Fail(error: Error) {
    predicate IsFailure() { Fail? }

    function PropagateFailure<U>(): Result<U>
      requires Fail?
    {
      Err(error)
    }
  }

  function Throw<T>(kind: ErrorKind, message: string): (r: Result<T>)
    ensures r.Err? && r.error.kind == kind
  {
    Err(Error(kind, message))
  }

  /** Has the result failed with an exception of the given class? */
  predicate Raises<T>(r: Result<T>, kind: ErrorKind) {
    r.Err? && r.error.kind == kind
  }

  // ---------------------------------------------------------------------
  // 64-bit unsigned arithmetic (size_t and hsize_t on the targeted ABI)
  // ---------------------------------------------------------------------

  const TWO64: nat := 0x1_0000_0000_0000_0000

  type u64 = x: int | 0 <= x < TWO64

  /** `a - b` on size_t: wraps around modulo 2^64. */
  function SubU64(a: u64, b: u64): (r: u64)
    ensures b <= a ==> r == a - b
    ensures a < b ==> r == TWO64 + a - b
  {
    (a - b) % TWO64
  }

  /** `a + b` on size_t. */
  function AddU64(a: u64, b: u64): (r: u64)
    ensures a + b < TWO64 ==> r == a + b
    ensures TWO64 <= a + b ==> r == a + b - TWO64
  {
    (a + b) % TWO64
  }

  /** `a * b` on hsize_t. */
  function MulU64(a: u64, b: u64): (r: u64)
    ensures a * b < TWO64 ==> r == a * b
  {
    (a * b) % TWO64
  }

  // ---------------------------------------------------------------------
  // Decimal rendering, as std::to_string does for unsigned values
  // ---------------------------------------------------------------------

  function DigitChar(d: nat): (c: char)
    requires d < 10
    ensures '0' <= c <= '9'
  {
    ['0', '1', '2', '3', '4', '5', '6', '7', '8', '9'][d]
  }

  function DigitValue(c: char): nat
    requires '0' <= c <= '9'
  {
    (c as int - '0' as int) as nat
  }

  /** Shortest decimal spelling of n (no leading zeros). */
  function Decimal(n: nat): (s: string)
    ensures |s| > 0
    ensures forall i :: 0 <= i < |s| ==> '0' <= s[i] <= '9'
    decreases n
  {
    if n < 10 then [DigitChar(n)] else Decimal(n / 10) + [DigitChar(n % 10)]
  }

  /** The number a string of digits denotes. */
  function DecimalValue(s: string): nat
    requires forall i :: 0 <= i < |s| ==> '0' <= s[i] <= '9'
    decreases |s|
  {
    if s == [] then 0 else 10 * DecimalValue(s[..|s| - 1]) + DigitValue(s[|s| - 1])
  }

  lemma DigitRoundTrip(d: nat)
    requires d < 10
    ensures DigitValue(DigitChar(d)) == d
  {
  }

  /** Reading back what Decimal writes gives the number: Decimal is injective. */
  lemma {:induction false} DecimalRoundTrip(n: nat)
    ensures DecimalValue(Decimal(n)) == n
    decreases n
  {
    var s := Decimal(n);
    if n < 10 {
      DigitRoundTrip(n);
    } else {
      DecimalRoundTrip(n / 10);
      DigitRoundTrip(n % 10);
      assert s[..|s| - 1] == Decimal(n / 10);
    }
  }

  lemma DecimalInjective(m: nat, n: nat)
    requires Decimal(m) == Decimal(n)
    ensures m == n
  {
    DecimalRoundTrip(m);
    DecimalRoundTrip(n);
  }
}
