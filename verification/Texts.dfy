/** What the text helpers mean: numbers written in decimal, names of Kubernetes objects, and the
    shortened names used as label values. */
module Texts {
  import opened Wrappers
  import opened Durations
  import opened Names

  // ----- numbers -----

  lemma {:induction false} DecimalIsDigits(n: nat)
    ensures Decimal(n) != "" && AllDigits(Decimal(n))
  {
    if n >= 10 {
      DecimalIsDigits(n / 10);
    }
  }

  /** Writing a number and reading it again. */
  lemma {:induction false} ReadsBack(n: nat)
    ensures AllDigits(Decimal(n)) && Value(Decimal(n)) == n
  {
    DecimalIsDigits(n);
    var s := Decimal(n);
    var front := if n < 10 then "" else Decimal(n / 10);
    assert s[..|s| - 1] == front;
    if n >= 10 {
      ReadsBack(n / 10);
    }
  }

  /** Leading zeros change nothing. */
  lemma {:induction false} LeadingZero(digits: string)
    requires AllDigits(digits)
    ensures Value("0" + digits) == Value(digits)
  {
    var s := "0" + digits;
    if digits != "" {
      var n := |digits| - 1;
      assert s[..|s| - 1] == "0" + digits[..n];
      LeadingZero(digits[..n]);
    }
  }

  /** A written integer is read as itself if it fits an int64; otherwise as the nearest one, with an error. */
  lemma {:induction false} ParsesIntegers(n: nat)
    ensures var (v, ok) := ParseInt(Decimal(n)); (ok <==> n < TWO_63) && v == if ok then n else TWO_63 - 1
    ensures ParseInt("+" + Decimal(n)) == ParseInt(Decimal(n))
    ensures var (v, ok) := ParseInt("-" + Decimal(n)); (ok <==> n <= TWO_63) && -v == if ok then n else TWO_63
  {
    ReadsBack(n);
    DecimalIsDigits(n);
    Unsigned(Decimal(n));
    Signed('+', Decimal(n));
    Signed('-', Decimal(n));
  }

  lemma {:induction false} Unsigned(digits: string)
    requires digits != "" && AllDigits(digits)
    ensures var (v, ok), n := ParseInt(digits), Value(digits);
      (ok <==> n < TWO_63) && v == if ok then n else TWO_63 - 1
  {
    assert IsDigit(digits[0]);
  }

  lemma {:induction false} Signed(sign: char, digits: string)
    requires digits != "" && AllDigits(digits) && (sign == '+' || sign == '-')
    ensures var (v, ok), n := ParseInt([sign] + digits), Value(digits);
      if sign == '-' then (ok <==> n <= TWO_63) && -v == (if ok then n else TWO_63)
      else (ok <==> n < TWO_63) && v == (if ok then n else TWO_63 - 1)
  {
    assert ([sign] + digits)[1..] == digits;
  }

  predicate IsDigit(x: char) { '0' <= x <= '9' }

  /** Anything with another character after the sign, or no digit at all, is an error and reads as 0. */
  lemma {:induction false} ParsesNothingElse(s: string)
    requires s == "" || s == "+" || s == "-" || (exists i :: 0 < i < |s| && !IsDigit(s[i])) ||
      (!IsDigit(s[0]) && s[0] != '+' && s[0] != '-')
    ensures ParseInt(s) == (0, false)
  {
    if s != "" {
      var signed := s[0] == '+' || s[0] == '-';
      if i :| 0 < i < |s| && !IsDigit(s[i]) {
        assert s[1..][i - 1] == s[i];
      }
    }
  }

  /** A number of seconds, or of milliseconds, times the multiplier, unless that overflows. */
  lemma {:induction false} TimesAsWritten(n: nat, repeat: int)
    requires n < TWO_63 && InInt64(n * repeat)
    ensures DurationOf(Decimal(n) + "s", repeat) == Some(Duration(n * repeat, 0))
    ensures DurationOf(Decimal(n), repeat).Some? &&
      Nanos(DurationOf(Decimal(n), repeat).value) == NANOS_PER_MILLI * (n * repeat)
  {
    var digits := Decimal(n);
    DecimalIsDigits(n);
    ReadsBack(n);
    Unsigned(digits);
    CountOfSeconds(digits, n);
    CountOfMillis(digits, n);
    Int64Exact(n * repeat);
    DurationMeaning(digits, repeat);
  }

  lemma {:induction false} CountOfSeconds(digits: string, n: nat)
    requires ParseInt(digits) == (n, true)
    ensures HasSuffix(digits + "s", "s") && Count(digits + "s") == n
  {
    var s := digits + "s";
    assert s[|s| - 1..] == "s" && s[..|s| - 1] == digits;
  }

  lemma {:induction false} CountOfMillis(digits: string, n: nat)
    requires digits != "" && AllDigits(digits) && ParseInt(digits) == (n, true)
    ensures !HasSuffix(digits, "s") && Count(digits) == n
  {
    var k := |digits| - 1;
    assert IsDigit(digits[k]) && digits[k] != 's';
    assert digits[k..][0] == digits[k];
    assert |digits| >= 2 ==> digits[|digits| - 2..][1] == digits[k];
    assert !HasSuffix(digits, "s") && !HasSuffix(digits, "ms");
  }

  // ----- names -----

  predicate Upper(x: char) { 'A' <= x <= 'Z' }

  /** The same letter in either case. */
  predicate SameLetter(x: char, y: char) {
    x == y || (Upper(x) && y as int == x as int + 32) || (Upper(y) && x as int == y as int + 32)
  }

  predicate SameInDns(x: char, y: char) { SameLetter(x, y) || {x, y} == {'_', '-'} }

  /** A formatted name has neither capitals nor underscores; a name without them is kept; and two names
      become one exactly when they differ in nothing but these. */
  lemma {:induction false} FormatMeans(s: string, t: string)
    ensures forall i :: 0 <= i < |s| ==> !Upper(FormatToDNS1123(s)[i]) && FormatToDNS1123(s)[i] != '_'
    ensures (forall i :: 0 <= i < |s| ==> !Upper(s[i]) && s[i] != '_') ==> FormatToDNS1123(s) == s
    ensures FormatToDNS1123(s) == FormatToDNS1123(t) <==>
      |s| == |t| && forall i :: 0 <= i < |s| ==> SameInDns(s[i], t[i])
  {
    assert forall x: char, y: char :: {x, y} == {'_', '-'} <==> (x == '_' && y == '-') || (x == '-' && y == '_');
    var f, g := FormatToDNS1123(s), FormatToDNS1123(t);
    assert forall i :: 0 <= i < |s| ==> f[i] == if s[i] == '_' then '-' else LowerChar(s[i]);
    assert forall i :: 0 <= i < |t| ==> g[i] == if t[i] == '_' then '-' else LowerChar(t[i]);
    if f == g {
      forall i | 0 <= i < |s|
        ensures SameInDns(s[i], t[i])
      {
        assert f[i] == g[i];
      }
    }
  }

  lemma {:induction false} LowerMeans(s: string, t: string)
    ensures Lower(s) == Lower(t) <==> |s| == |t| && forall i :: 0 <= i < |s| ==> SameLetter(s[i], t[i])
  {
    if Lower(s) == Lower(t) {
      forall i | 0 <= i < |s|
        ensures SameLetter(s[i], t[i])
      {
        assert Lower(s)[i] == Lower(t)[i];
      }
    }
  }

  /** The last dot tells where the second part starts. */
  lemma {:induction false} LastDot(p: string, d: string, q: string, e: string)
    requires '.' !in d && '.' !in e && p + ['.'] + d == q + ['.'] + e
    ensures p == q && d == e
  {
    var s := p + ['.'] + d;
    assert s[|p|] == s[|q|] == '.';
    assert s[..|p|] == p && s[..|q|] == q && s[|p| + 1..] == d && s[|q| + 1..] == e;
  }

  /** Different hosts or ports of a service have different entry names, before formatting. */
  lemma {:induction false} EntryNamesDiffer(service: string, a: string, m: nat, b: string, n: nat)
    ensures EntryName(service, a, m) == EntryName(service, b, n) <==> a == b && m == n
  {
    if EntryName(service, a, m) == EntryName(service, b, n) {
      DecimalIsDigits(m);
      DecimalIsDigits(n);
      LastDot(service + "." + a, Decimal(m), service + "." + b, Decimal(n));
      ReadsBack(m);
      ReadsBack(n);
      assert (service + "." + a)[|service| + 1..] == a && (service + "." + b)[|service| + 1..] == b;
    }
  }

  // ----- shortened names -----

  predicate Dots(s: string) { forall i :: 0 <= i < |s| ==> s[i] == '.' }

  /** What is left from i on when the dots at both ends are taken off. */
  predicate TrimmedAt(s: string, r: string, i: nat) {
    && (r != "" ==> r[0] != '.' && r[|r| - 1] != '.')
    && i + |r| <= |s| && s[i..i + |r|] == r && Dots(s[..i]) && Dots(s[i + |r|..])
  }

  ghost predicate IsTrimmed(s: string, r: string) { exists i :: TrimmedAt(s, r, i) }

  lemma {:induction false} OneMoreInFront(s: string, r: string, i: nat)
    requires s != "" && s[0] == '.' && TrimmedAt(s[1..], r, i)
    ensures TrimmedAt(s, r, i + 1)
  {
    var t := s[1..];
    assert s[i + 1..i + 1 + |r|] == t[i..i + |r|] && s[i + 1 + |r|..] == t[i + |r|..];
    var front := s[..i + 1];
    forall j | 0 <= j < |front|
      ensures front[j] == '.'
    {
      assert j > 0 ==> s[j] == t[..i][j - 1];
    }
  }

  lemma {:induction false} OneMoreBehind(s: string, r: string, i: nat)
    requires s != "" && s[|s| - 1] == '.' && TrimmedAt(s[..|s| - 1], r, i)
    ensures TrimmedAt(s, r, i)
  {
    var t := s[..|s| - 1];
    assert s[i..i + |r|] == t[i..i + |r|] && s[..i] == t[..i];
    var back := s[i + |r|..];
    forall j | 0 <= j < |back|
      ensures back[j] == '.'
    {
      assert j < |t| - i - |r| ==> s[i + |r| + j] == t[i + |r|..][j];
    }
  }

  lemma {:induction false} Trims(s: string)
    ensures IsTrimmed(s, TrimDots(s))
    decreases |s|
  {
    var r := TrimDots(s);
    if s != "" && s[0] == '.' {
      Trims(s[1..]);
      var i: nat :| TrimmedAt(s[1..], r, i);
      OneMoreInFront(s, r, i);
    } else if s != "" && s[|s| - 1] == '.' {
      Trims(s[..|s| - 1]);
      var i: nat :| TrimmedAt(s[..|s| - 1], r, i);
      OneMoreBehind(s, r, i);
    } else {
      assert s[0..|s|] == s;
      assert TrimmedAt(s, r, 0);
    }
  }

  /** Both controllers take the dots off a name of at most 62 characters; of a longer one the first takes
      the digest and the second the last 62 characters without dots. */
  lemma {:induction false} ShortenedNames(digest: string -> string, s: string)
    ensures |s| <= 62 ==>
      IsTrimmed(s, TruncatedByDigest(digest, s)) && TruncatedToTail(s) == TruncatedByDigest(digest, s)
    ensures |s| > 62 ==> TruncatedByDigest(digest, s) == digest(s) && IsTrimmed(s[|s| - 62..], TruncatedToTail(s))
    ensures |TruncatedToTail(s)| <= 62
  {
    if |s| > 62 {
      Trims(s[|s| - 62..]);
    } else {
      Trims(s);
    }
  }
}
