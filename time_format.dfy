/**
 * The "MM:SS" formatter that all three timer screens use to show their counter
 * (`timeString(time:)`: the quotient and remainder of the time by 60, each printed at least
 * two digits wide and joined by a colon), with Swift's integer division and remainder, and a
 * reader that takes such a string back to seconds.
 */
module TimeFormat {
  import opened Wrappers

  predicate IsDigit(c: char) {
    '0' <= c <= '9'
  }

  predicate AllDigits(s: string) {
    forall i :: 0 <= i < |s| ==> IsDigit(s[i])
  }

  function Digit(d: int): (c: char)
    requires 0 <= d <= 9
    ensures IsDigit(c) && c as int - '0' as int == d
  {
    (d + '0' as int) as char
  }

  /** The number a string of decimal digits denotes (leading zeros allowed). */
  function DigitsValue(s: string): nat
    requires AllDigits(s)
    decreases |s|
  {
    if s == [] then 0 else DigitsValue(s[..|s| - 1]) * 10 + (s[|s| - 1] as int - '0' as int)
  }

  /** A possibly negative numeral: digits, or '-' followed by digits. */
  predicate IsNumeral(f: string) {
    if |f| > 0 && f[0] == '-' then |f| > 1 && AllDigits(f[1..]) else |f| > 0 && AllDigits(f)
  }

  function NumeralValue(f: string): int
    requires IsNumeral(f)
  {
    if f[0] == '-' then -(DigitsValue(f[1..]) as int) else DigitsValue(f)
  }

  /** The decimal numeral of `n`, without leading zeros. */
  function Decimal(n: nat): (r: string)
    ensures |r| >= 1 && AllDigits(r) && DigitsValue(r) == n
    ensures r[0] == '0' <==> n == 0
    ensures |r| == 1 <==> n < 10
    ensures 10 <= n < 100 ==> |r| == 2
    ensures 100 <= n < 1000 ==> |r| == 3
    decreases n
  {
    if n < 10 then
      [Digit(n)]
    else
      var a := Decimal(n / 10);
      var r := a + [Digit(n % 10)];
      assert r[..|r| - 1] == a;
      r
  }

  /**
   * The "%02d" conversion: at least two characters, padded with '0' on the left; a negative
   * value prints as its sign and digits without leading zeros, already two characters wide.
   */
  function Pad2(n: int): (r: string)
    ensures IsNumeral(r) && NumeralValue(r) == n
    ensures n >= 0 ==> |r| >= 2 && AllDigits(r) && DigitsValue(r) == n
    ensures n >= 10 ==> r[0] != '0'
    ensures n < 0 ==> |r| >= 2 && r[0] == '-' && r[1] != '0'
    ensures 0 <= n < 100 ==> |r| == 2
    ensures 100 <= n < 1000 ==> |r| == 3
  {
    if n < 0 then
      var d := Decimal(-n);
      var r := "-" + d;
      assert r[1..] == d;
      r
    else if n < 10 then
      var d := Decimal(n);
      var r := "0" + d;
      assert r[..|r| - 1] == "0";
      assert DigitsValue("0") == 0;
      r
    else
      Decimal(n)
  }

  /** Swift's `/` on `Int`: the quotient rounded toward zero. */
  function Quot(a: int, b: int): (q: int)
    requires b > 0
    ensures a >= 0 ==> 0 <= q * b <= a < q * b + b
    ensures a < 0 ==> q * b - b < a <= q * b <= 0
  {
    var n := if a >= 0 then a else -a;
    var k := n / b;
    assert k * b + n % b == n && 0 <= n % b < b && k >= 0;
    assert k * b >= 0;
    if a >= 0 then k else -k
  }

  /** Swift's `%` on `Int`: the remainder has the sign of the dividend. */
  function Rem(a: int, b: int): (r: int)
    requires b > 0
    ensures Quot(a, b) * b + r == a
    ensures a >= 0 ==> 0 <= r < b && r == a % b && Quot(a, b) == a / b
    ensures a < 0 ==> -b < r <= 0
  {
    if a >= 0 then a % b else -((-a) % b)
  }

  /**
   * `timeString(time:)`: minutes and seconds of `time`, each through "%02d", joined by ':'.
   * Every display, negative times included, reads back as the number of seconds shown.
   */
  function TimeString(time: int): (r: string)
    ensures ParseTime(r) == Some(time)
  {
    var m, sec := Pad2(Quot(time, 60)), Pad2(Rem(time, 60));
    NumeralHasNoColon(m);
    IndexOfJoin(m, sec);
    var r := m + ":" + sec;
    assert r[..|m|] == m;
    assert r[|m| + 1..] == sec;
    r
  }

  /** The first position of `c` in `s`, if any. */
  function IndexOf(s: string, c: char): (r: Option<nat>)
    ensures r.None? ==> c !in s
    ensures r.Some? ==> r.value < |s| && s[r.value] == c && c !in s[..r.value]
    decreases |s|
  {
    if s == [] then None
    else if s[0] == c then Some(0)
    else
      match IndexOf(s[1..], c)
      case None => None
      case Some(i) =>
        assert s[..i + 1] == [s[0]] + s[1..][..i];
        Some(i + 1)
  }

  /**
   * Reads a displayed time back: the numerals before and after the first ':' are minutes and
   * seconds; anything else is not a displayed time.
   */
  function ParseTime(s: string): Option<int> {
    match IndexOf(s, ':')
    case None => None
    case Some(i) =>
      var m, sec := s[..i], s[i + 1..];
      if IsNumeral(m) && IsNumeral(sec) then Some(NumeralValue(m) * 60 + NumeralValue(sec)) else None
  }

  lemma NumeralHasNoColon(f: string)
    requires IsNumeral(f)
    ensures ':' !in f
  {
    forall k | 0 <= k < |f| ensures f[k] != ':' {
      if f[0] == '-' && k > 0 {
        assert f[k] == f[1..][k - 1];
      }
    }
  }

  /** The first ':' of `a + ":" + b` is the one after `a` when `a` holds none. */
  lemma IndexOfJoin(a: string, b: string)
    requires ':' !in a
    ensures IndexOf(a + ":" + b, ':') == Some(|a|)
  {
    var s := a + ":" + b;
    assert s[|a|] == ':';
    assert s[..|a|] == a;
  }

  /**
   * For a non-negative time the display is M ":" S where S is exactly two digits encoding
   * `time % 60` (so 0..59) and M is at least two digits encoding `time / 60`.
   */
  lemma DisplayShape(time: int)
    requires time >= 0
    ensures
      var r := TimeString(time);
      var i := |r| - 3;
      i >= 2 && r[i] == ':'
      && AllDigits(r[..i]) && DigitsValue(r[..i]) == time / 60
      && AllDigits(r[i + 1..]) && DigitsValue(r[i + 1..]) == time % 60 < 60
  {
    var m, sec := Pad2(Quot(time, 60)), Pad2(Rem(time, 60));
    var r := m + ":" + sec;
    assert |sec| == 2;
    assert r[..|m|] == m;
    assert r[|m| + 1..] == sec;
  }

  /**
   * For the values a Pomodoro can hold (0 to 120 minutes 59 seconds) the display is five
   * characters, or six once the minutes reach three digits (from 100:00 on).
   */
  lemma PomodoroDisplayWidth(time: int)
    requires 0 <= time <= 120 * 60 + 59
    ensures |TimeString(time)| == if time < 6000 then 5 else 6
  {
    assert Quot(time, 60) == time / 60;
    assert time < 6000 ==> time / 60 < 100;
    assert time >= 6000 ==> 100 <= time / 60 <= 120;
  }
}
