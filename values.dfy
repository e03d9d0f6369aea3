/**
 * Scalar values found in decoded JSON bodies and AMQP headers, with the two
 * Python operations the handlers apply to them: truthiness and `str(...)`.
 *
 * Floating-point numbers and nested lists/objects are opaque: they carry the
 * text Python's `str(...)` gives for them, which is all the handlers use.
 */
module Values {

  datatype Value =
    | Str(s: string)
    | Int(i: int)
    | Bool(b: bool)
    | Float(repr: string)   // a float, as `str(x)` prints it ("0.5", "-0.0", "1700000000.25")
    | Null                  // JSON null / Python None
    | Nested(repr: string)  // a list or an object, as `str(x)` prints it ("[]", "{'a': 1}")

  /** `m.get(k, d)` on a Python dict. */
  function Get(m: map<string, Value>, k: string, d: Value): (v: Value)
    ensures k in m ==> v == m[k]
    ensures k !in m ==> v == d
  {
    if k in m then m[k] else d
  }

  /** Python truthiness: empty strings, zero, False, None and empty containers are falsy. */
  predicate Truthy(v: Value) {
    match v
    case Str(s) => s != ""
    case Int(i) => i != 0
    case Bool(b) => b
    case Float(r) => r != "0.0" && r != "-0.0"
    case Null => false
    case Nested(r) => r != "[]" && r != "{}"
  }

  /** The decimal digit character for `d`. */
  function DigitChar(d: nat): (c: char)
    requires d < 10
    ensures '0' <= c <= '9'
    ensures c as int - '0' as int == d
  {
    ('0' as int + d) as char
  }

  function DigitValue(c: char): (d: nat)
    requires '0' <= c <= '9'
    ensures d < 10 && DigitChar(d) == c
  {
    c as int - '0' as int
  }

  /** The decimal digits of `n`, most significant first, without leading zeros. */
  function NatDigits(n: nat): (s: string)
    ensures |s| >= 1
    ensures forall i :: 0 <= i < |s| ==> '0' <= s[i] <= '9'
    ensures |s| > 1 ==> s[0] != '0'
    decreases n
  {
    if n < 10 then [DigitChar(n)] else NatDigits(n / 10) + [DigitChar(n % 10)]
  }

  /** Reads back a string of decimal digits, most significant first. */
  function ParseDigits(s: string): (n: nat)
    requires forall i :: 0 <= i < |s| ==> '0' <= s[i] <= '9'
  {
    if s == [] then 0 else 10 * ParseDigits(s[..|s| - 1]) + DigitValue(s[|s| - 1])
  }

  /** `str(i)` for a Python int. */
  function IntToString(i: int): (s: string)
    ensures |s| >= 1
    ensures (s[0] == '-') <==> i < 0
  {
    if i < 0 then "-" + NatDigits(-i) else NatDigits(i)
  }

  /** `str(v)` in Python. */
  function PyStr(v: Value): string {
    match v
    case Str(s) => s
    case Int(i) => IntToString(i)
    case Bool(b) => if b then "True" else "False"
    case Float(r) => r
    case Null => "None"
    case Nested(r) => r
  }

  /** Printing a natural number in decimal loses nothing: the digits read back as the number. */
  lemma {:induction false} NatDigitsRoundTrip(n: nat)
    ensures ParseDigits(NatDigits(n)) == n
    decreases n
  {
    if n >= 10 {
      var prefix := NatDigits(n / 10);
      var s := prefix + [DigitChar(n % 10)];
      assert s[..|s| - 1] == prefix;
      assert DigitValue(s[|s| - 1]) == n % 10;
      NatDigitsRoundTrip(n / 10);
      assert ParseDigits(s) == 10 * (n / 10) + n % 10;
    }
  }

  /** Drops the sign that `IntToString` prints before a negative number. */
  lemma {:induction false} NegativeDigits(i: int)
    requires i < 0
    ensures IntToString(i)[1..] == NatDigits(-i)
  {
  }

  /** Distinct integers print differently, so `str(Id)` identifies an integer order id. */
  lemma {:induction false} IntToStringInjective(i: int, j: int)
    requires IntToString(i) == IntToString(j)
    ensures i == j
  {
    if i < 0 && j < 0 {
      var m, n: nat := -i, -j;
      assert NatDigits(m) == NatDigits(n) by {
        NegativeDigits(i);
        NegativeDigits(j);
      }
      NatDigitsRoundTrip(m);
      NatDigitsRoundTrip(n);
    } else if i >= 0 && j >= 0 {
      NatDigitsRoundTrip(i);
      NatDigitsRoundTrip(j);
    }
  }
}
