/** The Python values that cross the scoring path: the request body handed to
    the user's `run`, whatever `run` returns, and the bodies of responses.
    Only the shapes the service inspects are distinguished; a dictionary is
    keyed by strings, which is all the service ever looks up in one. */
module PyValues {

  datatype PyValue =
    | PyNone
    | PyBool(b: bool)
    | PyInt(i: int)
    | PyStr(s: string)
    | PyBytes(bytes: seq<bv8>)
    | PyList(items: seq<PyValue>)
    | PyDict(entries: map<string, PyValue>)

  /** The empty dictionary `{}`. */
  const EmptyDict: PyValue := PyDict(map[])

  predicate IsDigit(c: char) {
    '0' <= c <= '9'
  }

  function DigitChar(d: nat): (c: char)
    requires d < 10
    ensures IsDigit(c) && DigitValue(c) == d
  {
    ('0' as int + d) as char
  }

  /** Python's `"{}".format(n)` for a non-negative integer: its decimal
      digits, most significant first, without leading zeros. */
  function DecimalString(n: nat): (s: string)
    ensures |s| >= 1
    ensures forall i :: 0 <= i < |s| ==> IsDigit(s[i])
    ensures s[0] == '0' ==> n == 0 && s == "0"
    decreases n
  {
    if n < 10 then [DigitChar(n)] else DecimalString(n / 10) + [DigitChar(n % 10)]
  }

  function DigitValue(c: char): (d: nat)
    requires IsDigit(c)
    ensures d < 10
  {
    c as int - '0' as int
  }

  /** The number a string of decimal digits denotes. */
  function DecimalValue(s: string): nat
    requires forall i :: 0 <= i < |s| ==> IsDigit(s[i])
  {
    if s == [] then 0
    else 10 * DecimalValue(s[..|s| - 1]) + DigitValue(s[|s| - 1])
  }

  /** Rendering a number and reading it back gives the number: the text of a
      message that embeds a millisecond count determines that count. */
  lemma {:induction false} DecimalRoundTrip(n: nat)
    ensures DecimalValue(DecimalString(n)) == n
    decreases n
  {
    var s := DecimalString(n);
    if n >= 10 {
      DecimalRoundTrip(n / 10);
      assert s[..|s| - 1] == DecimalString(n / 10);
    }
  }
}
