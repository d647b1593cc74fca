/** Values shared by every part of the model: optional values, the exceptions
    the Java code lets escape, the service-layer response, Java's decimal
    rendering of a `long` and Hutool's notion of a blank string. */
module Common {

  datatype Option<T> = None | Some(value: T)

  /** The exceptions that can leave an operation of the core. */
  datatype Failure =
    | DecodeFailed        // Hutool JSON could not turn the cached text into the requested type
    | NullReference       // a missing row was dereferenced (Java throws on the null)
    | NotAnInteger        // Redis INCR on a value that is not an integer
    | IncrementOverflow   // Redis INCR past the largest 64-bit integer
    | DuplicateKey        // the database refused an insert with an existing primary key
    | RetriesExhausted    // the retry recursion of a mutex read did not come back

  /** What a Java method does: return a value, or throw. */
  datatype Outcome<T> = Return(value: T) | Throw(failure: Failure)

  /** The `Result` object the services hand back: `Result.ok(data)`,
      `Result.ok()` (no data) or `Result.fail(message)`. */
  datatype Response<T> = Ok(data: Option<T>) | Fail(errorMsg: string)

  const LONG_MIN: int := -0x8000_0000_0000_0000
  const LONG_MAX: int := 0x7FFF_FFFF_FFFF_FFFF

  /** A Java `long`. */
  type Long = x: int | LONG_MIN <= x <= LONG_MAX

  /** Positive durations: Redis refuses a non-positive expiry. */
  type Positive = x: int | x > 0 witness 1

  function DigitChar(d: nat): (c: char)
    requires d < 10
    ensures '0' <= c <= '9' && c as int - '0' as int == d
  {
    (d + '0' as int) as char
  }

  predicate IsDigit(c: char) {
    '0' <= c <= '9'
  }

  /** The decimal digits of `n`, most significant first, without leading zeros. */
  function Digits(n: nat): (s: string)
    ensures |s| >= 1
    ensures forall i :: 0 <= i < |s| ==> IsDigit(s[i])
    ensures n < 10 <==> |s| == 1
  {
    if n < 10 then [DigitChar(n)] else Digits(n / 10) + [DigitChar(n % 10)]
  }

  /** `Long.toString(n)`: what Java's string concatenation `"prefix" + n` appends. */
  function LongToString(n: int): (s: string)
    ensures |s| >= 1
    ensures (n < 0) <==> (s[0] == '-')
  {
    if n < 0 then "-" + Digits(-n) else Digits(n)
  }

  lemma {:induction false} DigitsInjective(a: nat, b: nat)
    requires Digits(a) == Digits(b)
    ensures a == b
  {
    var s := Digits(a);
    if a < 10 {
      assert |Digits(b)| == 1;
      assert s[0] == DigitChar(a) && Digits(b)[0] == DigitChar(b);
    } else {
      assert b >= 10;
      assert s == Digits(a / 10) + [DigitChar(a % 10)];
      assert s == Digits(b / 10) + [DigitChar(b % 10)];
      assert Digits(a / 10) == s[..|s| - 1] == Digits(b / 10);
      assert DigitChar(a % 10) == s[|s| - 1] == DigitChar(b % 10);
      DigitsInjective(a / 10, b / 10);
    }
  }

  /** Different numbers give different decimal texts. */
  lemma LongToStringInjective(a: int, b: int)
    requires a != b
    ensures LongToString(a) != LongToString(b)
  {
    if LongToString(a) == LongToString(b) {
      assert (a < 0) == (b < 0);
      if a < 0 {
        assert LongToString(a)[1..] == Digits(-a);
        assert LongToString(b)[1..] == Digits(-b);
        DigitsInjective(-a, -b);
      } else {
        DigitsInjective(a, b);
      }
    }
  }

  /** Hutool's `CharUtil.isBlankChar`: Java whitespace, Unicode space
      separators, the byte-order mark, U+202A and NUL. */
  predicate IsBlankChar(c: char) {
    var n := c as int;
    || n == 0x00 || (0x09 <= n <= 0x0D) || (0x1C <= n <= 0x20)
    || n == 0xA0 || n == 0x1680 || (0x2000 <= n <= 0x200A)
    || n == 0x2028 || n == 0x2029 || n == 0x202A || n == 0x202F
    || n == 0x205F || n == 0x3000 || n == 0xFEFF
  }

  /** `StrUtil.isBlank` on a non-null string: empty or only blank characters. */
  predicate IsBlank(s: string) {
    forall i :: 0 <= i < |s| ==> IsBlankChar(s[i])
  }
}
