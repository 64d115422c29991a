/**
 * The parts of the Java runtime the pipeline observes: exceptions (class, message, cause),
 * log records as the tests capture them, and the decimal rendering used in log messages.
 */
module Runtime {
  import opened Wrappers

  /** The exception classes the modelled code throws, catches or tests against. */
  datatype ExceptionClass =
    | RuntimeException
    | IllegalStateException
    | IllegalArgumentException
    | NullPointerException
    | UnsupportedOperationException
    | NoSuchElementException
    | IOException                      // checked
    | OtherUnchecked(name: string)     // any other subclass of RuntimeException

  /** A Java throwable: its exact class, its message (`getMessage()`, null allowed) and its cause. */
  datatype Exception = Exception(cls: ExceptionClass, message: Option<string>, cause: Option<Exception>)

  /** True for subclasses of RuntimeException, which a `catch (RuntimeException e)` intercepts. */
  predicate IsRuntime(e: Exception) {
    !e.cls.IOException?
  }

  function Throw(cls: ExceptionClass, message: string): Exception {
    Exception(cls, Some(message), None)
  }

  /** Levels of java.util.logging (slf4j's warn is recorded as WARNING). */
  datatype Level = Fine | Info | Warning

  /** One call into a logger: level, message and the attached throwable, if any. */
  datatype LogRecord = LogRecord(level: Level, message: string, thrown: Option<Exception>)

  /** Java string concatenation of a possibly-null string: null renders as "null". */
  function NullToText(s: Option<string>): string {
    match s
    case Some(t) => t
    case None => "null"
  }

  function DigitChar(d: nat): (c: char)
    requires d < 10
    ensures '0' <= c <= '9'
  {
    ['0', '1', '2', '3', '4', '5', '6', '7', '8', '9'][d]
  }

  /** Decimal rendering of a non-negative int, as `"" + n` does in Java. */
  function Decimal(n: nat): (s: string)
    ensures |s| > 0
    ensures forall i :: 0 <= i < |s| ==> '0' <= s[i] <= '9'
    decreases n
  {
    if n < 10 then [DigitChar(n)] else Decimal(n / 10) + [DigitChar(n % 10)]
  }

  function DigitValue(c: char): nat
    requires '0' <= c <= '9'
  {
    (c as int - '0' as int) as nat
  }

  /** Reads back a string of decimal digits. */
  function ParseDecimal(s: string): nat
    requires forall i :: 0 <= i < |s| ==> '0' <= s[i] <= '9'
  {
    if s == [] then 0 else ParseDecimal(s[..|s| - 1]) * 10 + DigitValue(s[|s| - 1])
  }

  /** The decimal rendering loses nothing: the count in a log message determines the count. */
  lemma {:induction false} DecimalRoundTrip(n: nat)
    ensures ParseDecimal(Decimal(n)) == n
    decreases n
  {
    if n >= 10 {
      DecimalRoundTrip(n / 10);
      var s := Decimal(n);
      assert s[..|s| - 1] == Decimal(n / 10);
    }
  }

  lemma DecimalInjective(m: nat, n: nat)
    requires Decimal(m) == Decimal(n)
    ensures m == n
  {
    DecimalRoundTrip(m);
    DecimalRoundTrip(n);
  }
}
