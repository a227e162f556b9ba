/** Shared vocabulary of the model: optional values, time, the string
    routines of Go's `strings` package that the core relies on, Go's
    truncating division and the float percentage comparisons the core
    writes as `float64(a) / float64(b) * 100 >= p`. */
module Common {

  datatype Option<+T> = None | Some(value: T)

  /** The outcome of a handler: a value, or the error it reports. */
  datatype Result<+T> = Ok(value: T) | Err(error: string)

  /** An access decision: let the request through, or stop it with a reason. */
  datatype Decision = Allowed | Blocked(reason: string)

  // ---------------------------------------------------------------------
  // Time. Instants are seconds counted from Go's zero `time.Time`, so an
  // instant is "zero" (`IsZero()`) exactly when it is 0.
  // ---------------------------------------------------------------------

  const Minute: int := 60
  const Hour: int := 60 * Minute
  const Day: int := 24 * Hour
  /** Length of a month in this model; calendar normalisation is not modelled. */
  const MonthLength: int := 30 * Day
  const ZeroTime: int := 0

  /** `t.AddDate(0, months, 0)`: moves an instant by whole months. */
  function AddMonths(t: int, months: int): (r: int)
    ensures months >= 1 ==> r > t
    ensures months <= 0 ==> r <= t
  {
    t + months * MonthLength
  }

  /** `t.AddDate(years, 0, 0)`: twelve model months a year. */
  function AddYears(t: int, years: int): int
  {
    AddMonths(t, 12 * years)
  }

  // ---------------------------------------------------------------------
  // Integer arithmetic as Go writes it.
  // ---------------------------------------------------------------------

  /** Go's `/` on integers truncates toward zero. */
  function GoDiv(a: int, b: int): (q: int)
    requires b != 0
    ensures a >= 0 && b > 0 ==> q * b <= a < q * b + b
  {
    if (a >= 0) == (b > 0) then
      (if a >= 0 then a else -a) / (if b > 0 then b else -b)
    else
      -((if a >= 0 then a else -a) / (if b > 0 then b else -b))
  }

  /** `float64(num) / float64(den) * 100 >= pct`, evaluated on exact
      rationals with IEEE 754 division by zero: a positive numerator over 0
      is +Inf (every comparison with it holds), 0/0 is NaN and a negative
      numerator over 0 is -Inf (no comparison with them holds). */
  predicate PercentAtLeast(num: int, den: int, pct: nat)
    requires pct > 0
  {
    if den > 0 then num * 100 >= pct * den
    else if den < 0 then num * 100 <= pct * den
    else num > 0
  }

  lemma PercentAtLeastMonotone(num: int, den: int, lo: nat, hi: nat)
    requires 0 < lo <= hi
    requires PercentAtLeast(num, den, hi)
    ensures PercentAtLeast(num, den, lo)
  {
    if den > 0 {
      assert lo * den <= hi * den by {
        assert (hi - lo) * den >= 0;
      }
    } else if den < 0 {
      assert lo * den >= hi * den by {
        assert (hi - lo) * den <= 0;
      }
    }
  }

  // ---------------------------------------------------------------------
  // Decimal numbers: `strconv.Atoi` on a 64-bit platform.
  // ---------------------------------------------------------------------

  const MaxInt64: int := 0x7fff_ffff_ffff_ffff
  const MinInt64: int := -0x8000_0000_0000_0000

  predicate IsDigit(c: char)
  {
    '0' <= c <= '9'
  }

  predicate AllDigits(s: string)
  {
    forall i :: 0 <= i < |s| ==> IsDigit(s[i])
  }

  function DigitValue(c: char): nat
    requires IsDigit(c)
  {
    (c as int) - ('0' as int)
  }

  function DigitChar(d: nat): (c: char)
    requires d < 10
    ensures IsDigit(c) && DigitValue(c) == d
  {
    (('0' as int) + d) as char
  }

  /** The value of a string of decimal digits. */
  function DigitsValue(s: string): nat
    requires AllDigits(s)
  {
    if s == [] then 0 else DigitsValue(s[..|s| - 1]) * 10 + DigitValue(s[|s| - 1])
  }

  /** The text after an optional leading sign. */
  function Unsigned(s: string): string
    requires s != []
  {
    if s[0] == '-' || s[0] == '+' then s[1..] else s
  }

  /** Well-formed decimal text: an optional sign and at least one digit. */
  predicate IsNumeral(s: string)
  {
    s != [] && Unsigned(s) != [] && AllDigits(Unsigned(s))
  }

  /** The exact value of a numeral, before any range check. */
  function NumeralValue(s: string): int
    requires IsNumeral(s)
  {
    var magnitude: int := DigitsValue(Unsigned(s));
    if s[0] == '-' then -magnitude else magnitude
  }

  /** `strconv.Atoi`: an optional sign and at least one decimal digit, the
      value within the 64-bit range; anything else is an error. */
  function Atoi(s: string): (r: Option<int>)
    ensures r.Some? <==> IsNumeral(s) && MinInt64 <= NumeralValue(s) <= MaxInt64
    ensures r.Some? ==> r.value == NumeralValue(s)
    ensures r.Some? ==> MinInt64 <= r.value <= MaxInt64
    ensures r.Some? ==> |s| >= 1 && (IsDigit(s[0]) || s[0] == '+' || s[0] == '-')
    ensures s == [] || s == "+" || s == "-" ==> r.None?
  {
    if s == [] then None
    else
      var digits := if s[0] == '-' || s[0] == '+' then s[1..] else s;
      if digits == [] || !AllDigits(digits) then None
      else
        var magnitude: int := DigitsValue(digits);
        var v := if s[0] == '-' then -magnitude else magnitude;
        if v < MinInt64 || v > MaxInt64 then None else Some(v)
  }

  /** A character that is neither a digit nor a leading sign makes the
      text unparsable. */
  lemma AtoiRefusesNonDigit(s: string, k: nat)
    requires k < |s| && !IsDigit(s[k])
    requires k > 0 || (s[0] != '+' && s[0] != '-')
    ensures Atoi(s).None?
  {
    if s[0] == '-' || s[0] == '+' {
      assert Unsigned(s)[k - 1] == s[k];
    } else {
      assert Unsigned(s)[k] == s[k];
    }
  }

  /** The int `strconv.Atoi` returns whatever its error: the value when it
      parses, the nearest 64-bit bound for a numeral out of range, and 0
      for text that is not a numeral. */
  function AtoiValue(s: string): (n: int)
    ensures Atoi(s).Some? ==> n == Atoi(s).value
    ensures !IsNumeral(s) ==> n == 0
    ensures IsNumeral(s) && NumeralValue(s) > MaxInt64 ==> n == MaxInt64
    ensures IsNumeral(s) && NumeralValue(s) < MinInt64 ==> n == MinInt64
    ensures MinInt64 <= n <= MaxInt64
  {
    if !IsNumeral(s) then 0
    else if NumeralValue(s) > MaxInt64 then MaxInt64
    else if NumeralValue(s) < MinInt64 then MinInt64
    else NumeralValue(s)
  }

  /** The decimal text of a natural number, as `strconv.Itoa` writes it. */
  function Decimal(n: nat): (s: string)
    ensures |s| >= 1 && AllDigits(s)
  {
    if n < 10 then [DigitChar(n)] else Decimal(n / 10) + [DigitChar(n % 10)]
  }

  lemma {:induction false} DecimalValue(n: nat)
    ensures DigitsValue(Decimal(n)) == n
  {
    if n >= 10 {
      DecimalValue(n / 10);
      var s := Decimal(n);
      assert s[..|s| - 1] == Decimal(n / 10);
    }
  }

  /** `%d` of `fmt.Sprintf`: a minus sign before the digits of a negative
      number. What it writes is a numeral of the same value. */
  function FormatInt(n: int): (s: string)
    ensures IsNumeral(s) && NumeralValue(s) == n
  {
    if n >= 0 then
      DecimalValue(n);
      Decimal(n)
    else
      DecimalValue(-n);
      assert Unsigned("-" + Decimal(-n)) == Decimal(-n);
      "-" + Decimal(-n)
  }

  /** Parsing what `Decimal` writes gives the number back. */
  lemma AtoiDecimal(n: nat)
    requires n <= MaxInt64
    ensures Atoi(Decimal(n)) == Some(n)
  {
    DecimalValue(n);
  }

  // ---------------------------------------------------------------------
  // Strings (Go's `strings` package on byte strings, as `seq<char>`).
  // ---------------------------------------------------------------------

  /** `strings.HasPrefix(s, prefix)`. */
  predicate HasPrefix(s: string, prefix: string)
  {
    |prefix| <= |s| && s[..|prefix|] == prefix
  }

  /** `strings.Contains(s, sub)`: `sub` occurs at some position of `s`. */
  predicate Contains(s: string, sub: string)
    decreases |s|
  {
    HasPrefix(s, sub) || (|s| > 0 && Contains(s[1..], sub))
  }

  lemma {:induction false} ContainsAt(s: string, sub: string, k: nat)
    requires k + |sub| <= |s| && s[k..k + |sub|] == sub
    ensures Contains(s, sub)
    decreases k
  {
    if k > 0 {
      assert s[1..][k - 1..k - 1 + |sub|] == sub;
      ContainsAt(s[1..], sub, k - 1);
    }
  }

  lemma {:induction false} ContainsWitness(s: string, sub: string) returns (k: nat)
    requires Contains(s, sub)
    ensures k + |sub| <= |s| && s[k..k + |sub|] == sub
    decreases |s|
  {
    if HasPrefix(s, sub) {
      k := 0;
    } else {
      var j := ContainsWitness(s[1..], sub);
      assert s[1..][j..j + |sub|] == s[j + 1..j + 1 + |sub|];
      k := j + 1;
    }
  }

  /** `strings.HasPrefix` over a list of prefixes, as the early-exit loops
      of the route classifiers do. */
  predicate AnyPrefix(s: string, prefixes: seq<string>)
    decreases |prefixes|
  {
    |prefixes| > 0 && (HasPrefix(s, prefixes[0]) || AnyPrefix(s, prefixes[1..]))
  }

  lemma {:induction false} AnyPrefixIff(s: string, prefixes: seq<string>)
    ensures AnyPrefix(s, prefixes) <==> exists i :: 0 <= i < |prefixes| && HasPrefix(s, prefixes[i])
    decreases |prefixes|
  {
    if |prefixes| > 0 {
      AnyPrefixIff(s, prefixes[1..]);
      if !HasPrefix(s, prefixes[0]) && !AnyPrefix(s, prefixes[1..]) {
        forall i | 0 <= i < |prefixes| ensures !HasPrefix(s, prefixes[i]) {
          if i > 0 { assert prefixes[i] == prefixes[1..][i - 1]; }
        }
      }
    }
  }

  /** `strings.Contains` over a list of fragments. */
  predicate AnyContains(s: string, fragments: seq<string>)
    decreases |fragments|
  {
    |fragments| > 0 && (Contains(s, fragments[0]) || AnyContains(s, fragments[1..]))
  }

  lemma {:induction false} AnyContainsIff(s: string, fragments: seq<string>)
    ensures AnyContains(s, fragments) <==> exists i :: 0 <= i < |fragments| && Contains(s, fragments[i])
    decreases |fragments|
  {
    if |fragments| > 0 {
      AnyContainsIff(s, fragments[1..]);
      if !Contains(s, fragments[0]) && !AnyContains(s, fragments[1..]) {
        forall i | 0 <= i < |fragments| ensures !Contains(s, fragments[i]) {
          if i > 0 { assert fragments[i] == fragments[1..][i - 1]; }
        }
      }
    }
  }

  /** Index of the first occurrence of `c` in `s`. */
  function IndexOf(s: string, c: char): (k: nat)
    requires c in s
    ensures k < |s| && s[k] == c && c !in s[..k]
  {
    if s[0] == c then 0 else 1 + IndexOf(s[1..], c)
  }

  /** `strings.Split(s, string(sep))` for a one-character separator. */
  function Split(s: string, sep: char): (parts: seq<string>)
    ensures |parts| >= 1
    ensures forall i :: 0 <= i < |parts| ==> sep !in parts[i]
    ensures sep !in s ==> parts == [s]
    ensures sep in s ==> |parts| >= 2 && parts[0] == s[..IndexOf(s, sep)]
    decreases |s|
  {
    if sep !in s then [s]
    else
      var k := IndexOf(s, sep);
      [s[..k]] + Split(s[k + 1..], sep)
  }

  /** The text before the first `sep`, or all of it when there is none. */
  function Before(s: string, sep: char): (r: string)
    ensures sep !in r && HasPrefix(s, r)
  {
    if sep in s then s[..IndexOf(s, sep)] else s
  }

  /** The first two pieces of a split, and when it has three or more. */
  lemma SplitFirstTwo(s: string, sep: char)
    ensures Split(s, sep)[0] == Before(s, sep)
    ensures sep in s ==> Split(s, sep)[1] == Before(s[IndexOf(s, sep) + 1..], sep)
    ensures |Split(s, sep)| >= 3 <==> sep in s && sep in s[IndexOf(s, sep) + 1..]
  {
    if sep in s {
      var k := IndexOf(s, sep);
      var rest := s[k + 1..];
      assert Split(s, sep) == [s[..k]] + Split(rest, sep);
    }
  }

  /** `strings.Join(parts, string(sep))`. */
  function Join(parts: seq<string>, sep: char): string
    requires |parts| >= 1
  {
    if |parts| == 1 then parts[0] else parts[0] + [sep] + Join(parts[1..], sep)
  }

  /** Splitting and joining again gives back the original text. */
  lemma {:induction false} SplitJoin(s: string, sep: char)
    ensures Join(Split(s, sep), sep) == s
    decreases |s|
  {
    if sep in s {
      var k := IndexOf(s, sep);
      SplitJoin(s[k + 1..], sep);
      assert s == s[..k] + [sep] + s[k + 1..];
    }
  }

  /** The first separator of `a + [sep] + rest`, when `a` has none, is the
      one right after `a`. */
  lemma {:induction false} IndexOfAfterFree(a: string, sep: char, rest: string)
    requires sep !in a
    ensures sep in a + [sep] + rest && IndexOf(a + [sep] + rest, sep) == |a|
    decreases |a|
  {
    var s := a + [sep] + rest;
    assert s[|a|] == sep;
    if |a| > 0 {
      assert s[1..] == a[1..] + [sep] + rest;
      IndexOfAfterFree(a[1..], sep, rest);
    }
  }

  /** Joining pieces that contain no separator and splitting again gives
      back the pieces. */
  lemma {:induction false} JoinSplit(parts: seq<string>, sep: char)
    requires |parts| >= 1
    requires forall i :: 0 <= i < |parts| ==> sep !in parts[i]
    ensures Split(Join(parts, sep), sep) == parts
    decreases |parts|
  {
    if |parts| > 1 {
      var s := Join(parts, sep);
      var tail := Join(parts[1..], sep);
      assert s == parts[0] + [sep] + tail;
      IndexOfAfterFree(parts[0], sep, tail);
      assert s[..|parts[0]|] == parts[0];
      assert s[|parts[0]| + 1..] == tail;
      JoinSplit(parts[1..], sep);
    }
  }
}
