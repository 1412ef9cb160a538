// Shared vocabulary: optional values, results, the .NET 32-bit integer,
// the string predicates the validation attributes rely on, and
// Math.Min on doubles.

module Common {

  /** A value that may be absent: a C# null reference, or a missing Neo4j property. */
  datatype Option<T> = None | Some(value: T)

  /** The `??` operator: the value when present, the fallback otherwise. */
  function OrElse<T>(o: Option<T>, fallback: T): T
  {
    if o.Some? then o.value else fallback
  }

  /** An operation that either returns a value or raises an exception. */
  datatype Result<T, E> = Ok(value: T) | Err(error: E)

  /**
   * The exceptions the Order and Product services raise or let through: a
   * failure inside the store, and the three .NET exception types they throw
   * themselves, each with its message.
   */
  datatype Fault =
    | StoreFailure
    | KeyNotFound(message: string)
    | InvalidOperation(message: string)
    | InvalidArgument(message: string)

  /** What a repository's `GetByIdAsync` answered: it failed, it found nothing (null), or the entity. */
  datatype Lookup<T> = LookupFailed | Missing | Found(entity: T)

  /** What a repository read found, taken off the entity it returned: a failure, nothing, or the entity's fields. */
  datatype Fetched<T> = FetchFailed | NotStored | Fetched(value: T)

  /** A DateTime as whole seconds since the Unix epoch (UTC). */
  type Time = int

  const SecondsPerDay: int := 86400

  /** C# `int`. */
  type Int32 = x: int | -0x8000_0000 <= x <= 0x7fff_ffff

  const TwoTo32: int := 0x1_0000_0000

  /** Unchecked C# `int` arithmetic: the result is reduced modulo 2^32 into the signed range. */
  function Wrap32(x: int): (r: Int32)
    ensures (r - x) % TwoTo32 == 0
    ensures -0x8000_0000 <= x <= 0x7fff_ffff ==> r == x
  {
    var m := x % TwoTo32;
    if m <= 0x7fff_ffff then m else m - TwoTo32
  }

  /** Math.Min on doubles (modelled exactly, without rounding). */
  function MinReal(a: real, b: real): (r: real)
    ensures r <= a && r <= b
    ensures r == a || r == b
  {
    if a <= b then a else b
  }

  /**
   * The characters `char.IsWhiteSpace` accepts: the controls U+0009 to U+000D
   * and U+0085, and the Unicode space, line and paragraph separators.
   */
  predicate IsWhiteSpace(c: char)
  {
    || ('\t' <= c <= '\r') || c == ' ' || c == '\U{85}' || c == '\U{A0}' || c == '\U{1680}'
    || ('\U{2000}' <= c <= '\U{200A}') || c == '\U{2028}' || c == '\U{2029}' || c == '\U{202F}'
    || c == '\U{205F}' || c == '\U{3000}'
  }

  /** `string.IsNullOrWhiteSpace` for a string that is present. */
  predicate IsBlank(s: string)
  {
    forall i :: 0 <= i < |s| ==> IsWhiteSpace(s[i])
  }

  /**
   * The check `[Required]` makes on a string property: null, empty and
   * white-space-only strings are rejected.
   */
  predicate RequiredString(s: Option<string>)
  {
    s.Some? && !IsBlank(s.value)
  }

  const UpperLetters: string := "ABCDEFGHIJKLMNOPQRSTUVWXYZ"
  const LowerLetters: string := "abcdefghijklmnopqrstuvwxyz"

  /** Upper-case ASCII letters folded to lower case; every other character is kept. */
  function FoldCase(c: char): (r: char)
    ensures 'A' <= c <= 'Z' ==> r == LowerLetters[c as int - 'A' as int]
    ensures !('A' <= c <= 'Z') ==> r == c
    ensures !('A' <= r <= 'Z')
  {
    if 'A' <= c <= 'Z' then (c as int + 32) as char else c
  }

  /** `a` is an upper-case ASCII letter and `b` the same letter in lower case. */
  predicate LetterPair(a: char, b: char)
  {
    exists k :: 0 <= k < |UpperLetters| && a == UpperLetters[k] && b == LowerLetters[k]
  }

  /** Two characters fold alike exactly when they are equal or one ASCII letter in its two cases. */
  lemma FoldCaseEqual(a: char, b: char)
    ensures FoldCase(a) == FoldCase(b) <==> a == b || LetterPair(a, b) || LetterPair(b, a)
  {
    if FoldCase(a) == FoldCase(b) && a != b {
      FoldAlikeIsPair(a, b);
    }
    if LetterPair(a, b) {
      PairFoldsAlike(a, b);
    }
    if LetterPair(b, a) {
      PairFoldsAlike(b, a);
    }
  }

  lemma FoldAlikeIsPair(a: char, b: char)
    requires FoldCase(a) == FoldCase(b) && a != b
    ensures LetterPair(a, b) || LetterPair(b, a)
  {
    if 'A' <= a <= 'Z' {
      var k := a as int - 'A' as int;
      LettersAligned(k);
      assert a == UpperLetters[k] && b == LowerLetters[k];
    } else {
      var k := b as int - 'A' as int;
      LettersAligned(k);
      assert b == UpperLetters[k] && a == LowerLetters[k];
    }
  }

  lemma PairFoldsAlike(a: char, b: char)
    requires LetterPair(a, b)
    ensures FoldCase(a) == FoldCase(b)
  {
    var k :| 0 <= k < |UpperLetters| && a == UpperLetters[k] && b == LowerLetters[k];
    LettersAligned(k);
  }

  /** The k-th letter of each table is the k-th code point after 'A' or 'a'. */
  lemma LettersAligned(k: int)
    requires 0 <= k < 26
    ensures UpperLetters[k] as int == 'A' as int + k && LowerLetters[k] as int == 'a' as int + k
  {
  }

  /** `string.Equals(a, b, StringComparison.OrdinalIgnoreCase)` on ASCII letters. */
  predicate EqualsIgnoreCase(a: string, b: string)
  {
    |a| == |b| && forall i :: 0 <= i < |a| ==> FoldCase(a[i]) == FoldCase(b[i])
  }

  /** Decimal digit for 0..9. */
  function Digit(d: nat): char
    requires d < 10
  {
    ('0' as int + d) as char
  }

  predicate IsDigits(s: string)
  {
    forall i :: 0 <= i < |s| ==> '0' <= s[i] <= '9'
  }

  /** The number a string of decimal digits denotes, most significant digit first. */
  function DigitsValue(s: string): nat
    requires IsDigits(s)
  {
    if s == [] then 0 else DigitsValue(s[..|s| - 1]) * 10 + (s[|s| - 1] as int - '0' as int)
  }

  /** The decimal rendering string interpolation gives a non-negative integer. */
  function NatToString(n: nat): string
    decreases n
  {
    if n < 10 then [Digit(n)] else NatToString(n / 10) + [Digit(n % 10)]
  }

  /** The rendering of n is a non-empty string of digits that denotes n, with no leading zero. */
  lemma {:induction false} NatToStringValue(n: nat)
    ensures var r := NatToString(n);
      && |r| >= 1 && IsDigits(r) && DigitsValue(r) == n
      && (r[0] == '0' ==> r == "0")
    decreases n
  {
    if n >= 10 {
      NatToStringValue(n / 10);
      var init := NatToString(n / 10);
      var r := NatToString(n);
      assert r[..|r| - 1] == init;
    }
  }

  /** `text` is the decimal rendering of `count` followed by `suffix`. */
  predicate CountedText(text: string, count: nat, suffix: string)
  {
    && |suffix| < |text|
    && text[|text| - |suffix|..] == suffix
    && IsDigits(text[..|text| - |suffix|])
    && DigitsValue(text[..|text| - |suffix|]) == count
  }

  /** A message built by interpolating `count` before `suffix` carries that count. */
  lemma CountedTextOf(count: nat, suffix: string)
    ensures CountedText(NatToString(count) + suffix, count, suffix)
  {
    var s := NatToString(count);
    NatToStringValue(count);
    assert (s + suffix)[..|s|] == s;
    assert (s + suffix)[|s|..] == suffix;
  }

  /** Regrouping a concatenation; a hint for appending to a log. */
  lemma ConcatAssoc<T>(a: seq<T>, b: seq<T>, c: seq<T>)
    ensures a + (b + c) == (a + b) + c
  {
  }

  lemma AppendFourth<T>(a: T, b: T, c: T, d: T)
    ensures [a, b, c] + [d] == [a, b, c, d]
  {
  }
}
