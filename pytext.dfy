/**
 * The few Python string operations the wizard relies on: `str.find`,
 * `str.endswith`, the slice `s[:k]` with Python's negative-index rule, and
 * `%` formatting with a single string argument.
 */
module PyText {
  import opened Wrappers
  import opened Errors

  /** `sub` occurs in `s` starting at index `i`. */
  predicate OccursAt(s: string, sub: string, i: int) {
    0 <= i && i + |sub| <= |s| && s[i..i + |sub|] == sub
  }

  /** `i` is the lowest index at which `sub` occurs in `s`. */
  predicate FirstOccurrence(s: string, sub: string, i: int) {
    OccursAt(s, sub, i) && forall k :: 0 <= k < i ==> !OccursAt(s, sub, k)
  }

  /** `sub` does not occur anywhere in `s`. */
  predicate Absent(s: string, sub: string) {
    forall k :: 0 <= k <= |s| ==> !OccursAt(s, sub, k)
  }

  /** `str.find` started at index `from`: the lowest index at or after `from` where `sub` occurs, else -1. */
  function FindFrom(s: string, sub: string, from: nat): (r: int)
    requires from <= |s|
    ensures r == -1 || (from <= r && OccursAt(s, sub, r))
    ensures r == -1 ==> forall k :: from <= k <= |s| ==> !OccursAt(s, sub, k)
    ensures r != -1 ==> forall k :: from <= k < r ==> !OccursAt(s, sub, k)
    decreases |s| - from
  {
    if OccursAt(s, sub, from) then from
    else if from == |s| then -1
    else FindFrom(s, sub, from + 1)
  }

  /** `s.find(sub)`: the first occurrence of `sub` in `s`, or -1 when there is none. */
  function Find(s: string, sub: string): (r: int)
    ensures r == -1 <==> Absent(s, sub)
    ensures r != -1 ==> FirstOccurrence(s, sub, r)
  {
    FindFrom(s, sub, 0)
  }

  /** Whenever `sub` occurs, `find` reports its first occurrence. */
  lemma FindIsFirstOccurrence(s: string, sub: string, i: int)
    requires FirstOccurrence(s, sub, i)
    ensures Find(s, sub) == i
  {
  }

  /** `s.endswith(suffix)`: the last `|suffix|` characters of `s` are those of `suffix`, one by one. */
  predicate EndsWith(s: string, suffix: string): (r: bool)
    ensures r <==> |suffix| <= |s| && forall i :: 0 <= i < |suffix| ==> s[|s| - |suffix| + i] == suffix[i]
  {
    |suffix| <= |s| && s[|s| - |suffix|..] == suffix
  }

  /** The number of characters `s[:k]` keeps: `k` counts from the end when negative, and is clamped to `[0, |s|]`. */
  function SliceLength(n: nat, k: int): (r: nat)
    ensures r <= n
  {
    if k >= 0 then (if k <= n then k else n)
    else if n + k >= 0 then n + k
    else 0
  }

  /** The Python slice `s[:k]`. */
  function SliceTo(s: string, k: int): (r: string)
    ensures r <= s
    ensures |r| == SliceLength(|s|, k)
  {
    s[..SliceLength(|s|, k)]
  }

  /** Puts `p` in front of a successful result. */
  function Prepend(p: string, r: Result<string, Error>): Result<string, Error> {
    match r
    case Success(s) => Success(p + s)
    case Failure(e) => Failure(e)
  }

  /**
   * `fmt % arg` for one string argument, scanning `fmt` from the left;
   * `used` says whether the argument has already been consumed by a `%s`.
   * Only the conversions `%s` and `%%` are modelled.
   */
  function FormatFrom(fmt: string, arg: string, used: bool): (r: Result<string, Error>)
    ensures r.Failure? ==> r.error.TypeError? || r.error.ValueError?
    ensures used && r.Failure? ==> r.error != TypeError(NotAllArgumentsConverted)
    decreases |fmt|
  {
    if fmt == [] then
      if used then Success([]) else Failure(TypeError(NotAllArgumentsConverted))
    else if fmt[0] != '%' then
      Prepend([fmt[0]], FormatFrom(fmt[1..], arg, used))
    else if |fmt| == 1 then
      Failure(ValueError(IncompleteFormat))
    else if fmt[1] == '%' then
      Prepend("%", FormatFrom(fmt[2..], arg, used))
    else if fmt[1] == 's' then
      if used then Failure(TypeError(NotEnoughArguments))
      else Prepend(arg, FormatFrom(fmt[2..], arg, true))
    else
      Failure(ValueError(UnsupportedFormat))
  }

  /** `fmt % arg`: it fails only with TypeError or ValueError, and an empty format leaves the argument unconverted. */
  function Format(fmt: string, arg: string): (r: Result<string, Error>)
    ensures r.Failure? ==> r.error.TypeError? || r.error.ValueError?
    ensures fmt == [] ==> r == Failure(TypeError(NotAllArgumentsConverted))
  {
    FormatFrom(fmt, arg, false)
  }

  /** A character other than '%' is copied to the output. */
  lemma FormatPlainHead(c: char, rest: string, arg: string, used: bool)
    requires c != '%'
    ensures FormatFrom([c] + rest, arg, used) == Prepend([c], FormatFrom(rest, arg, used))
  {
  }

  /** Dropping the head of a string with no '%' leaves a string with no '%'. */
  lemma NoPercentTail(s: string)
    requires s != [] && '%' !in s
    ensures s[0] != '%' && '%' !in s[1..] && s == [s[0]] + s[1..]
  {
  }

  /** A format string with no `%` leaves the argument unconverted, which Python reports as a TypeError. */
  lemma {:induction false} FormatWithoutConversion(fmt: string, arg: string, used: bool)
    requires '%' !in fmt
    ensures FormatFrom(fmt, arg, used)
            == if used then Success(fmt) else Failure(TypeError(NotAllArgumentsConverted))
    decreases |fmt|
  {
    if fmt != [] {
      NoPercentTail(fmt);
      FormatWithoutConversion(fmt[1..], arg, used);
      FormatPlainHead(fmt[0], fmt[1..], arg, used);
    }
  }

  /** A leading `%s` consumes the argument; with no further '%' the rest is copied. */
  lemma FormatLeadingConversion(post: string, arg: string)
    requires '%' !in post
    ensures FormatFrom("%s" + post, arg, false) == Success(arg + post)
  {
    var fmt := "%s" + post;
    assert fmt[0] == '%' && fmt[1] == 's' && fmt[2..] == post;
    FormatWithoutConversion(post, arg, true);
  }

  /** A format string with exactly one `%s` and no other `%` substitutes the argument there. */
  lemma {:induction false} FormatOneConversion(pre: string, post: string, arg: string)
    requires '%' !in pre && '%' !in post
    ensures Format(pre + "%s" + post, arg) == Success(pre + arg + post)
    decreases |pre|
  {
    if pre == [] {
      assert pre + "%s" + post == "%s" + post;
      FormatLeadingConversion(post, arg);
      assert pre + arg + post == arg + post;
    } else {
      NoPercentTail(pre);
      var tail := pre[1..] + "%s" + post;
      FormatOneConversion(pre[1..], post, arg);
      FormatPlainHead(pre[0], tail, arg, false);
      assert pre + "%s" + post == [pre[0]] + tail;
      assert [pre[0]] + (pre[1..] + arg + post) == pre + arg + post;
    }
  }
}
