/** Timeouts: StringToDuration (pkg/utils/utils.go) and the two budget helpers shared by both route
    compilers (controllers/serviceconfig/virtualservice.go:326-348). */
module Durations {
  import opened Wrappers

  const TWO_63 := 0x8000_0000_0000_0000
  const NANOS_PER_SECOND := 1_000_000_000
  const NANOS_PER_MILLI := 1_000_000

  /** A protobuf duration; None stands for the nil pointer. */
  datatype Duration = Duration(seconds: int, nanos: int)

  datatype Policy = Policy(timeout: string, maxRetries: int)

  datatype Retry = Retry(attempts: int, perTryTimeout: Option<Duration>)

  predicate InInt64(x: int) { -TWO_63 <= x < TWO_63 }

  predicate InInt32(x: int) { -0x8000_0000 <= x < 0x8000_0000 }

  /** Two's complement truncation. */
  function Int64(x: int): int { (x + TWO_63) % 0x1_0000_0000_0000_0000 - TWO_63 }

  function Int32(x: int): int { (x + 0x8000_0000) % 0x1_0000_0000 - 0x8000_0000 }

  /** Go's / and %, which truncate toward zero. */
  function Quot(x: int, y: int): int
    requires y > 0
  {
    if x < 0 then -(-x / y) else x / y
  }

  function Rem(x: int, y: int): int
    requires y > 0
  {
    x - y * Quot(x, y)
  }

  predicate AllDigits(s: string) { forall i :: 0 <= i < |s| ==> '0' <= s[i] <= '9' }

  function Value(digits: string): nat
    requires AllDigits(digits)
  {
    if digits == "" then 0
    else 10 * Value(digits[..|digits| - 1]) + (digits[|digits| - 1] as int - '0' as int)
  }

  /** strconv.ParseInt(s, 10, 64): a syntax error yields 0, an overflow the nearest int64. */
  function ParseInt(s: string): (int, bool) {
    var signed := s != "" && (s[0] == '+' || s[0] == '-');
    var digits := if signed then s[1..] else s;
    if digits == "" || !AllDigits(digits) then (0, false)
    else
      var v: int := if s[0] == '-' then 0 - Value(digits) else Value(digits);
      if InInt64(v) then (v, true) else (if v < 0 then -TWO_63 else TWO_63 - 1, false)
  }

  predicate HasSuffix(s: string, suffix: string) {
    |suffix| <= |s| && s[|s| - |suffix|..] == suffix
  }

  function TrimSuffix(s: string, suffix: string): string {
    if HasSuffix(s, suffix) then s[..|s| - |suffix|] else s
  }

  /** The number in front of the unit, 0 when it does not parse. */
  function Count(s: string): int {
    var (v, ok) := ParseInt(TrimSuffix(s, if HasSuffix(s, "s") then "s" else "ms"));
    if ok then v else 0
  }

  function DurationOf(s: string, repeat: int): Option<Duration> {
    var t := Int64(Count(s) * repeat);
    if s == "" then None
    else if HasSuffix(s, "s") then Some(Duration(t, 0))
    else Some(Duration(Quot(t, 1000), Int32(Rem(t, 1000)) * NANOS_PER_MILLI))
  }

  method StringToDuration(s: string, repeat: int) returns (d: Option<Duration>)
    ensures d == DurationOf(s, repeat)
  {
    if s == "" {
      return None;
    }
    if HasSuffix(s, "s") {
      var (t, ok) := ParseInt(TrimSuffix(s, "s"));
      if !ok {
        t := 0;
      }
      t := Int64(t * repeat);
      return Some(Duration(t, 0));
    }
    var (t, ok) := ParseInt(TrimSuffix(s, "ms"));
    if !ok {
      t := 0;
    }
    t := Int64(t * repeat);
    return Some(Duration(Quot(t, 1000), Int32(Rem(t, 1000)) * NANOS_PER_MILLI));
  }

  function Nanos(d: Duration): int { d.seconds * NANOS_PER_SECOND + d.nanos }

  function UnitNanos(s: string): int {
    if HasSuffix(s, "s") then NANOS_PER_SECOND else NANOS_PER_MILLI
  }

  lemma {:induction false} CountInInt64(s: string)
    ensures InInt64(Count(s))
  {
  }

  lemma {:induction false} Int64Exact(x: int)
    ensures InInt64(Int64(x)) && (Int64(x) == x <==> InInt64(x))
  {
  }

  /** The denoted time, whatever the string and the multiplier. */
  lemma {:induction false} DurationMeaning(s: string, repeat: int)
    requires s != ""
    ensures Nanos(DurationOf(s, repeat).value) == UnitNanos(s) * Int64(Count(s) * repeat)
  {
  }

  lemma {:induction false} MillisNormalised(t: int)
    requires InInt64(t)
    ensures var seconds, nanos := Quot(t, 1000), Int32(Rem(t, 1000)) * NANOS_PER_MILLI;
      && -NANOS_PER_SECOND < nanos < NANOS_PER_SECOND
      && (nanos > 0 ==> seconds >= 0) && (nanos < 0 ==> seconds <= 0)
      && InInt64(seconds) && InInt32(nanos)
  {
    assert -1000 < Rem(t, 1000) < 1000 && Int32(Rem(t, 1000)) == Rem(t, 1000);
  }

  /** Every result is normalised: |nanos| < 10^9 with the sign of seconds, and it is a protobuf
      value (int64 seconds, int32 nanos). */
  lemma {:induction false} DurationNormalised(s: string, repeat: int)
    requires s != ""
    ensures var d := DurationOf(s, repeat).value;
      && -NANOS_PER_SECOND < d.nanos < NANOS_PER_SECOND
      && (d.nanos > 0 ==> d.seconds >= 0) && (d.nanos < 0 ==> d.seconds <= 0)
      && InInt64(d.seconds) && InInt32(d.nanos)
  {
    Int64Exact(Count(s) * repeat);
    MillisNormalised(Int64(Count(s) * repeat));
  }

  /** Multiplying by `repeat` is exact if and only if the product fits an int64. */
  lemma {:induction false} RepeatIsExact(s: string, repeat: int)
    requires s != ""
    ensures Nanos(DurationOf(s, repeat).value) == repeat * Nanos(DurationOf(s, 1).value)
      <==> InInt64(Count(s) * repeat)
  {
    DurationMeaning(s, repeat);
    DurationMeaning(s, 1);
    CountInInt64(s);
    Int64Exact(Count(s) * 1);
    Int64Exact(Count(s) * repeat);
    MultiplyOut(repeat, UnitNanos(s), Count(s));
    var exact, wrapped := Count(s) * repeat, Int64(Count(s) * repeat);
    if HasSuffix(s, "s") {
      assert NANOS_PER_SECOND * wrapped == NANOS_PER_SECOND * exact <==> wrapped == exact;
    } else {
      assert NANOS_PER_MILLI * wrapped == NANOS_PER_MILLI * exact <==> wrapped == exact;
    }
  }

  lemma {:induction false} MultiplyOut(a: int, b: int, c: int)
    ensures a * (b * c) == b * (c * a)
  {
  }

  /** Contrary to the comment above the function, "20ms" takes the seconds branch and is zero. */
  lemma {:induction false} MillisecondSuffixIsZero(s: string, repeat: int)
    requires HasSuffix(s, "ms")
    ensures DurationOf(s, repeat) == Some(Duration(0, 0))
  {
    var n := |s|;
    assert s[n - 1] == s[n - 2..][1] == 's' && s[n - 2] == s[n - 2..][0] == 'm';
    var t := TrimSuffix(s, "s");
    assert t == s[..n - 1] && t[n - 2] == 'm';
    assert t != "" && !('0' <= t[n - 2] <= '9');
    var signed := t[0] == '+' || t[0] == '-';
    var digits := if signed then t[1..] else t;
    assert digits == "" || digits[|digits| - 1] == 'm';
    assert digits == "" || !AllDigits(digits);
    assert Count(s) == 0 && HasSuffix(s, "s");
  }

  // ----- the budget of a route -----

  function OrGlobal(global: Policy, timeout: string): string {
    if timeout == "" then global.timeout else timeout
  }

  function RetriesOrGlobal(global: Policy, maxRetries: int): int {
    if maxRetries == 0 then global.maxRetries else maxRetries
  }

  function TimeoutOf(global: Policy, timeout: string, maxRetries: int): Option<Duration> {
    DurationOf(OrGlobal(global, timeout), RetriesOrGlobal(global, maxRetries))
  }

  function RetriesOf(global: Policy, timeout: string, maxRetries: int): Retry {
    Retry(RetriesOrGlobal(global, maxRetries), DurationOf(OrGlobal(global, timeout), 1))
  }

  method GetTimeout(global: Policy, timeout: string, maxRetries: int) returns (d: Option<Duration>)
    ensures d == TimeoutOf(global, timeout, maxRetries)
  {
    var t, n := timeout, maxRetries;
    if t == "" {
      t := global.timeout;
    }
    if n == 0 {
      n := global.maxRetries;
    }
    d := StringToDuration(t, n);
  }

  method GetRetries(global: Policy, timeout: string, maxRetries: int) returns (r: Retry)
    ensures r == RetriesOf(global, timeout, maxRetries)
  {
    var t, n := timeout, maxRetries;
    if t == "" {
      t := global.timeout;
    }
    if n == 0 {
      n := global.maxRetries;
    }
    var d := StringToDuration(t, 1);
    r := Retry(n, d);
  }

  /** The route's timeout covers exactly its attempts, if and only if the multiplication did not
      overflow; both are absent together. */
  lemma {:induction false} TimeoutBudget(global: Policy, timeout: string, maxRetries: int)
    ensures var total := TimeoutOf(global, timeout, maxRetries);
      var retry := RetriesOf(global, timeout, maxRetries);
      && (total.None? <==> retry.perTryTimeout.None?)
      && (total.Some? ==>
          (Nanos(total.value) == retry.attempts * Nanos(retry.perTryTimeout.value)
           <==> InInt64(Count(OrGlobal(global, timeout)) * retry.attempts)))
  {
    if OrGlobal(global, timeout) != "" {
      RepeatIsExact(OrGlobal(global, timeout), RetriesOrGlobal(global, maxRetries));
    }
  }

  predicate SameLow64(x: int, y: int) { (x - y) % 0x1_0000_0000_0000_0000 == 0 }

  predicate SameLow32(x: int, y: int) { (x - y) % 0x1_0000_0000 == 0 }

  /** The int32 with the same low bits. */
  lemma {:induction false} Int32Is(x: int)
    ensures InInt32(Int32(x)) && SameLow32(x, Int32(x)) && (Int32(x) == x <==> InInt32(x))
    ensures Int32(x) == 0 <==> SameLow32(x, 0)
  {
  }

  lemma {:induction false} Int64Is(x: int, y: int)
    ensures Int64(x) == y <==> InInt64(y) && SameLow64(x, y)
  {
    Int64Exact(x);
  }

  /** A route whose retries come from an int64 label: the timeout is multiplied by the label, the
      attempts are its low 32 bits. The timeout covers exactly the attempts if and only if their
      product with the count fits an int64 and the two products agree modulo 2^64; for a label within
      int32 this is TimeoutBudget's condition. */
  lemma {:induction false} LabelBudget(global: Policy, timeout: string, retries: int)
    ensures var total := TimeoutOf(global, timeout, retries);
      var retry := RetriesOf(global, timeout, Int32(retries));
      var count, repeat := Count(OrGlobal(global, timeout)), RetriesOrGlobal(global, retries);
      && (total.None? <==> retry.perTryTimeout.None?)
      && (total.Some? ==>
          (Nanos(total.value) == retry.attempts * Nanos(retry.perTryTimeout.value) <==>
           InInt64(count * retry.attempts) && SameLow64(count * repeat, count * retry.attempts)))
      && (InInt32(retries) ==> repeat == retry.attempts)
  {
    var s := OrGlobal(global, timeout);
    if s != "" {
      var count, repeat := Count(s), RetriesOrGlobal(global, retries);
      var attempts := RetriesOrGlobal(global, Int32(retries));
      DurationMeaning(s, repeat);
      DurationMeaning(s, 1);
      CountInInt64(s);
      Int64Exact(count * 1);
      Int64Is(count * repeat, count * attempts);
      MultiplyOut(attempts, UnitNanos(s), count);
      SameMultiple(UnitNanos(s), Int64(count * repeat), count * attempts);
    }
  }

  lemma {:induction false} SameMultiple(unit: int, a: int, b: int)
    requires unit == NANOS_PER_SECOND || unit == NANOS_PER_MILLI
    ensures unit * a == unit * b <==> a == b
  {
  }
}
