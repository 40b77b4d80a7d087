/** Small shared types: optional values, the exceptions callers can see, numerals. */
module Common {

  datatype Option<+T> = None | Some(value: T)

  /** Result of an operation that may raise; `BackendError` is whatever a backend
      or the registry file raised. */
  datatype Outcome<+T> = Ok(value: T) | KeyError | ValueError | MemoryError | RuntimeError | BackendError

  function Digit(d: nat): (c: char)
    requires d < 10
    ensures '0' <= c <= '9' && c as int == '0' as int + d
  {
    ('0' as int + d) as char
  }

  /** The decimal numeral Python's formatting produces for a natural number. */
  function Decimal(n: nat): (s: string)
    ensures s != [] && forall i | 0 <= i < |s| :: '0' <= s[i] <= '9'
  {
    if n < 10 then [Digit(n)] else Decimal(n / 10) + [Digit(n % 10)]
  }

  lemma {:induction false} DecimalInjective(m: nat, n: nat)
    requires Decimal(m) == Decimal(n)
    ensures m == n
  {
    var s := Decimal(m);
    assert s[|s| - 1] == Digit(m % 10) && s[|s| - 1] == Digit(n % 10);
    if m < 10 || n < 10 {
      assert |s| == 1;
    } else {
      assert s[..|s| - 1] == Decimal(m / 10) && s[..|s| - 1] == Decimal(n / 10);
      DecimalInjective(m / 10, n / 10);
    }
  }

  /** What a numeral stands for. */
  function Value(s: string): (n: int) {
    if s == [] then 0 else 10 * Value(s[..|s| - 1]) + (s[|s| - 1] as int - '0' as int)
  }

  /** The numeral of a number stands for it, and has no leading zero. */
  lemma {:induction false} DecimalValue(n: nat)
    ensures Value(Decimal(n)) == n && (|Decimal(n)| > 1 ==> Decimal(n)[0] != '0')
  {
    var s := Decimal(n);
    if n < 10 {
      assert s[..|s| - 1] == [];
    } else {
      DecimalValue(n / 10);
      assert s[..|s| - 1] == Decimal(n / 10);
      if |Decimal(n / 10)| == 1 { assert Decimal(n / 10)[0] as int - '0' as int == Value(Decimal(n / 10)[..0] + Decimal(n / 10)); }
    }
  }

  /** The last separator of a generated child id is the one before the number. */
  lemma NumberedLonger(p: string, q: string, i: nat, j: nat)
    requires p + "/" + Decimal(i) == q + "/" + Decimal(j)
    ensures |p| <= |q|
  {
    var s, b := p + "/" + Decimal(i), Decimal(j);
    assert s[|p|] == '/';
    assert forall k | |q| < k < |s| :: s[k] == b[k - |q| - 1];
  }

  /** A generated child id tells its parent and its number. */
  lemma NumberedNames(p: string, q: string, i: nat, j: nat)
    requires p + "/" + Decimal(i) == q + "/" + Decimal(j)
    ensures i == j && p == q
  {
    hide Decimal;
    NumberedLonger(p, q, i, j);
    NumberedLonger(q, p, j, i);
    var s := p + "/" + Decimal(i);
    assert s[|p| + 1..] == Decimal(i) && s[|p| + 1..] == Decimal(j) && s[..|p|] == p && s[..|p|] == q;
    DecimalInjective(i, j);
  }
}
