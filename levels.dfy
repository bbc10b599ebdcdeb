/** The numeric severity levels of Python's `logging` module, the names the
    formatter prints for them (`logging.getLevelName`), and the decimal
    rendering `%d` used for unnamed levels and for the process id. */
module Levels {

  const NOTSET: int := 0
  const DEBUG: int := 10
  const INFO: int := 20
  const WARNING: int := 30
  const ERROR: int := 40
  const CRITICAL: int := 50

  predicate IsDigit(c: char) {
    '0' <= c <= '9'
  }

  function DigitChar(d: int): (c: char)
    requires 0 <= d < 10
    ensures IsDigit(c) && c as int - '0' as int == d
  {
    (d + '0' as int) as char
  }

  /** The decimal digits of a natural number, most significant first. */
  function NatDigits(n: nat): (s: string)
    ensures |s| >= 1
    ensures forall i :: 0 <= i < |s| ==> IsDigit(s[i])
  {
    if n < 10 then [DigitChar(n)] else NatDigits(n / 10) + [DigitChar(n % 10)]
  }

  /** `"%d" % n` */
  function Decimal(n: int): string {
    if n < 0 then "-" + NatDigits(-n) else NatDigits(n)
  }

  function ParseNat(s: string): int {
    if s == [] then 0 else ParseNat(s[..|s| - 1]) * 10 + (s[|s| - 1] as int - '0' as int)
  }

  function ParseDecimal(s: string): int {
    if s != [] && s[0] == '-' then -ParseNat(s[1..]) else ParseNat(s)
  }

  lemma {:induction false} ParseNatDigits(n: nat)
    ensures ParseNat(NatDigits(n)) == n
  {
    if n >= 10 {
      var s := NatDigits(n);
      assert s[..|s| - 1] == NatDigits(n / 10);
      ParseNatDigits(n / 10);
    }
  }

  /** `%d` loses nothing: the rendered number reads back as itself. */
  lemma DecimalRoundTrip(n: int)
    ensures ParseDecimal(Decimal(n)) == n
  {
    if n < 0 {
      assert Decimal(n)[1..] == NatDigits(-n);
      ParseNatDigits(-n);
    } else {
      assert IsDigit(NatDigits(n)[0]);
      ParseNatDigits(n);
    }
  }

  /** `logging.getLevelName(level)` for an integer level. */
  function LevelName(level: int): string {
    if level == CRITICAL then "CRITICAL"
    else if level == ERROR then "ERROR"
    else if level == WARNING then "WARNING"
    else if level == INFO then "INFO"
    else if level == DEBUG then "DEBUG"
    else if level == NOTSET then "NOTSET"
    else "Level " + Decimal(level)
  }

  /** Distinct levels print under distinct names in the record layout. */
  lemma LevelNameInjective(a: int, b: int)
    requires LevelName(a) == LevelName(b)
    ensures a == b
  {
    var standard := {NOTSET, DEBUG, INFO, WARNING, ERROR, CRITICAL};
    assert LevelName(a)[0] == 'L' <==> a !in standard;
    assert LevelName(b)[0] == 'L' <==> b !in standard;
    if a !in standard && b !in standard {
      var p := "Level ";
      assert Decimal(a) == (p + Decimal(a))[|p|..];
      assert Decimal(b) == (p + Decimal(b))[|p|..];
      DecimalRoundTrip(a);
      DecimalRoundTrip(b);
    }
  }
}
