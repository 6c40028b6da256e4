/**
 * The parts of Go's `strings` and `strconv` packages that the program relies on:
 * `strings.TrimSpace`, `strings.TrimRight` with a one-character cutset,
 * `strings.Split` with a one-character separator, `strconv.Itoa` (and `%d`)
 * and `strconv.Atoi`. Go's `int` is 64 bits wide on the platforms the program
 * targets, so `Atoi` rejects values outside the signed 64-bit range.
 */
module Text {
  import opened Outcomes

  const MinInt64: int := -0x8000_0000_0000_0000
  const MaxInt64: int := 0x7FFF_FFFF_FFFF_FFFF

  // ---------------------------------------------------------------------------
  // White space
  // ---------------------------------------------------------------------------

  /** Go's `unicode.IsSpace`: the Latin-1 spaces and the other Unicode White_Space characters. */
  predicate IsSpace(c: char) {
    || c == ' ' || c == '\t' || c == '\n' || c == '\r'
    || c == '\U{B}' || c == '\U{C}' || c == '\U{85}' || c == '\U{A0}'
    || c == '\U{1680}' || ('\U{2000}' <= c <= '\U{200A}')
    || c == '\U{2028}' || c == '\U{2029}' || c == '\U{202F}' || c == '\U{205F}' || c == '\U{3000}'
  }

  predicate AllSpace(s: string) {
    forall i :: 0 <= i < |s| ==> IsSpace(s[i])
  }

  /** A string with no white space at either end. */
  predicate IsTrimmed(s: string) {
    s == [] || (!IsSpace(s[0]) && !IsSpace(s[|s| - 1]))
  }

  /** Drops the leading white space: the result is the suffix of `s` that starts at its first non-space. */
  function TrimLeft(s: string): (r: string)
    ensures |r| <= |s| && r == s[|s| - |r|..]
    ensures forall i :: 0 <= i < |s| - |r| ==> IsSpace(s[i])
    ensures r != [] ==> !IsSpace(r[0])
  {
    if s != [] && IsSpace(s[0]) then TrimLeft(s[1..]) else s
  }

  /** Drops the trailing white space: the result is the prefix of `s` that ends at its last non-space. */
  function TrimRight(s: string): (r: string)
    ensures |r| <= |s| && r == s[..|r|]
    ensures forall i :: |r| <= i < |s| ==> IsSpace(s[i])
    ensures r != [] ==> !IsSpace(r[|r| - 1])
  {
    if s != [] && IsSpace(s[|s| - 1]) then TrimRight(s[..|s| - 1]) else s
  }

  /** `strings.TrimSpace`. */
  function TrimSpace(s: string): (r: string)
    ensures IsTrimmed(r)
    ensures |r| <= |s|
  {
    TrimRight(TrimLeft(s))
  }

  lemma {:induction false} TrimLeftSkipsSpace(pre: string, u: string)
    requires AllSpace(pre)
    ensures TrimLeft(pre + u) == TrimLeft(u)
  {
    if pre != [] {
      var s := pre + u;
      assert IsSpace(s[0]);
      assert s[1..] == pre[1..] + u;
      assert TrimLeft(s) == TrimLeft(s[1..]);
      TrimLeftSkipsSpace(pre[1..], u);
    } else {
      assert pre + u == u;
    }
  }

  lemma {:induction false} TrimRightSkipsSpace(u: string, post: string)
    requires AllSpace(post)
    ensures TrimRight(u + post) == TrimRight(u)
  {
    if post != [] {
      var s := u + post;
      assert IsSpace(s[|s| - 1]);
      assert s[..|s| - 1] == u + post[..|post| - 1];
      assert TrimRight(s) == TrimRight(s[..|s| - 1]);
      TrimRightSkipsSpace(u, post[..|post| - 1]);
    } else {
      assert u + post == u;
    }
  }

  /** White space alone trims to nothing. */
  lemma TrimSpaceOfSpace(s: string)
    requires AllSpace(s)
    ensures TrimSpace(s) == ""
  {
  }

  /** Trimming a trimmed text padded with any white space on both sides gives the text back. */
  lemma TrimSpacePadded(pre: string, t: string, post: string)
    requires AllSpace(pre) && AllSpace(post) && IsTrimmed(t)
    ensures TrimSpace(pre + t + post) == t
  {
    assert pre + t + post == pre + (t + post);
    TrimLeftSkipsSpace(pre, t + post);
    if t == [] {
      assert t + post == post + t;
      TrimLeftSkipsSpace(post, t);
      assert TrimLeft(t) == [];
    } else {
      var u := t + post;
      assert u[0] == t[0];
      assert TrimLeft(u) == u;
      TrimRightSkipsSpace(t, post);
      assert TrimRight(t) == t;
    }
  }

  /** `strings.TrimRight(s, [c])`: removes every trailing occurrence of `c`. */
  function TrimRightChar(s: string, c: char): (r: string)
    ensures |r| <= |s| && r == s[..|r|]
    ensures forall i :: |r| <= i < |s| ==> s[i] == c
    ensures r == [] || r[|r| - 1] != c
  {
    if s != [] && s[|s| - 1] == c then TrimRightChar(s[..|s| - 1], c) else s
  }

  // ---------------------------------------------------------------------------
  // Splitting on a separator
  // ---------------------------------------------------------------------------

  /** `strings.Split(s, [sep])`: the pieces between separators, in order; `""` gives `[""]`. */
  function Split(s: string, sep: char): (parts: seq<string>)
    ensures |parts| >= 1
    ensures forall i :: 0 <= i < |parts| ==> sep !in parts[i]
    decreases |s|
  {
    if s == [] then [""]
    else
      var rest := Split(s[1..], sep);
      if s[0] == sep then [""] + rest
      else [[s[0]] + rest[0]] + rest[1..]
  }

  /** A text without the separator is one piece. */
  lemma {:induction false} SplitWithoutSeparator(s: string, sep: char)
    requires sep !in s
    ensures Split(s, sep) == [s]
  {
    if s != [] {
      SplitWithoutSeparator(s[1..], sep);
      assert [s[0]] + s[1..] == s;
    }
  }

  /** A separator-free first piece comes out whole, and the split goes on after the separator. */
  lemma {:induction false} SplitConcat(a: string, b: string, sep: char)
    requires sep !in a
    ensures Split(a + [sep] + b, sep) == [a] + Split(b, sep)
  {
    var s := a + [sep] + b;
    if a == [] {
      assert s == [sep] + b && s[1..] == b;
    } else {
      assert s[0] == a[0] && s[1..] == a[1..] + [sep] + b;
      SplitConcat(a[1..], b, sep);
      assert [a[0]] + a[1..] == a;
    }
  }

  /** Text made only of separators and white space splits into pieces of white space. */
  lemma {:induction false} SplitOfSpace(s: string, sep: char)
    requires forall i :: 0 <= i < |s| ==> s[i] == sep || IsSpace(s[i])
    ensures forall i :: 0 <= i < |Split(s, sep)| ==> AllSpace(Split(s, sep)[i])
  {
    if s != [] {
      var rest := Split(s[1..], sep);
      SplitOfSpace(s[1..], sep);
      var parts := Split(s, sep);
      forall i | 0 <= i < |parts|
        ensures AllSpace(parts[i])
      {
        if s[0] == sep {
          assert parts == [""] + rest;
          if i > 0 {
            assert parts[i] == rest[i - 1];
          }
        } else {
          assert parts == [[s[0]] + rest[0]] + rest[1..];
          if i > 0 {
            assert parts[i] == rest[i];
          } else {
            assert AllSpace(rest[0]);
          }
        }
      }
    }
  }

  /** `strings.Join(parts, [sep])`. */
  function Join(parts: seq<string>, sep: char): string
    requires |parts| >= 1
  {
    if |parts| == 1 then parts[0] else parts[0] + [sep] + Join(parts[1..], sep)
  }

  /** Splitting loses nothing: joining the pieces with the separator rebuilds the input. */
  lemma {:induction false} JoinSplit(s: string, sep: char)
    ensures Join(Split(s, sep), sep) == s
  {
    if s != [] {
      var rest := Split(s[1..], sep);
      JoinSplit(s[1..], sep);
      if s[0] == sep {
        assert ([""] + rest)[1..] == rest;
      } else if |rest| > 1 {
        var parts := [[s[0]] + rest[0]] + rest[1..];
        assert parts[1..] == rest[1..];
        assert Join(rest, sep) == rest[0] + [sep] + Join(rest[1..], sep);
      }
    }
  }

  // ---------------------------------------------------------------------------
  // Decimal numbers
  // ---------------------------------------------------------------------------

  predicate IsDigit(c: char) {
    '0' <= c <= '9'
  }

  predicate AllDigits(s: string) {
    forall i :: 0 <= i < |s| ==> IsDigit(s[i])
  }

  /** The value of a string of decimal digits, most significant first. */
  function DigitsValue(s: string): nat
    requires AllDigits(s)
  {
    if s == [] then 0 else DigitsValue(s[..|s| - 1]) * 10 + (s[|s| - 1] as int - '0' as int)
  }

  /** `n` zero digits. */
  function Zeros(n: nat): (s: string)
    ensures |s| == n && AllDigits(s)
  {
    seq(n, _ => '0')
  }

  /** Leading zeros do not change the value of a string of digits. */
  lemma {:induction false} LeadingZerosValue(z: nat, d: string)
    requires AllDigits(d)
    ensures AllDigits(Zeros(z) + d) && DigitsValue(Zeros(z) + d) == DigitsValue(d)
    decreases |d|, z
  {
    var s := Zeros(z) + d;
    if d == [] {
      assert s == Zeros(z);
      if z > 0 {
        assert s[..|s| - 1] == Zeros(z - 1) + [];
        LeadingZerosValue(z - 1, []);
      }
    } else {
      assert s[..|s| - 1] == Zeros(z) + d[..|d| - 1];
      LeadingZerosValue(z, d[..|d| - 1]);
    }
  }

  function DigitChar(d: nat): (c: char)
    requires d < 10
    ensures IsDigit(c) && c as int - '0' as int == d
  {
    ('0' as int + d) as char
  }

  /** The canonical decimal digits of `n`: no leading zero, and they denote `n`. */
  function NatToDigits(n: nat): (s: string)
    ensures |s| >= 1 && AllDigits(s)
    ensures DigitsValue(s) == n
    ensures n >= 1 ==> s[0] != '0'
  {
    if n < 10 then [DigitChar(n)]
    else
      var prefix := NatToDigits(n / 10);
      var s := prefix + [DigitChar(n % 10)];
      assert s[..|s| - 1] == prefix;
      s
  }

  /** `strconv.Itoa(n)` and `fmt.Sprintf("%d", n)`. */
  function FormatInt(n: int): (s: string)
    ensures |s| >= 1
    ensures n < 0 <==> s[0] == '-'
  {
    if n < 0 then "-" + NatToDigits(-n) else NatToDigits(n)
  }

  /**
   * `strconv.Atoi`: an optional sign followed by at least one decimal digit, whose
   * value fits a 64-bit `int`; anything else (empty, spaces, other characters,
   * overflow) is an error.
   */
  function Atoi(s: string): (r: Option<int>)
    ensures r.Some? ==> MinInt64 <= r.value <= MaxInt64
    ensures r.Some? ==> s != [] && (IsDigit(s[0]) || s[0] == '+' || s[0] == '-')
  {
    var signed := |s| > 0 && (s[0] == '+' || s[0] == '-');
    var digits := if signed then s[1..] else s;
    if digits == [] || !AllDigits(digits) then None
    else
      var magnitude: int := DigitsValue(digits);
      var v: int := if signed && s[0] == '-' then -magnitude else magnitude;
      if MinInt64 <= v <= MaxInt64 then Some(v) else None
  }

  /** What `Atoi` reads: the value of the digits after an optional sign; digits alone are read whenever they fit. */
  lemma AtoiDigits(s: string)
    ensures Atoi(s).Some? ==>
      || (AllDigits(s) && Atoi(s).value == DigitsValue(s))
      || (|s| >= 2 && s[0] == '+' && AllDigits(s[1..]) && Atoi(s).value == DigitsValue(s[1..]))
      || (|s| >= 2 && s[0] == '-' && AllDigits(s[1..]) && Atoi(s).value + DigitsValue(s[1..]) == 0)
    ensures s != [] && AllDigits(s) && DigitsValue(s) <= MaxInt64 ==> Atoi(s) == Some(DigitsValue(s))
  {
    if s != [] && (s[0] == '+' || s[0] == '-') {
      assert !IsDigit(s[0]);
    }
  }

  /**
   * A positive value is parsed exactly from its digits, after an optional '+':
   * a '-' never yields a positive value.
   */
  lemma AtoiPositive(s: string, p: int)
    requires p >= 1
    ensures var digits := if s != [] && s[0] == '+' then s[1..] else s;
      Atoi(s) == Some(p) <==> digits != [] && AllDigits(digits) && p == DigitsValue(digits) && p <= MaxInt64
  {
    if s != [] && s[0] == '-' {
      assert !IsDigit(s[0]);
    }
  }

  /** Formatting and parsing are inverse on 64-bit integers. */
  lemma AtoiFormatInt(n: int)
    requires MinInt64 <= n <= MaxInt64
    ensures Atoi(FormatInt(n)) == Some(n)
  {
    var s := FormatInt(n);
    if n < 0 {
      assert s[1..] == NatToDigits(-n);
    }
  }

  /** The decimal form of a number holds only digits and '-'. */
  lemma FormatIntChars(n: int, c: char)
    requires !IsDigit(c) && c != '-'
    ensures c !in FormatInt(n)
  {
    var s := FormatInt(n);
    if n < 0 {
      assert s[1..] == NatToDigits(-n);
      assert forall i :: 1 <= i < |s| ==> s[i] == NatToDigits(-n)[i - 1];
    }
  }

  /** The decimal form of a number is trimmed, so surrounding white space never leaks into it. */
  lemma FormatIntIsTrimmed(n: int)
    ensures IsTrimmed(FormatInt(n))
  {
    var s := FormatInt(n);
    if n < 0 {
      assert s[1..] == NatToDigits(-n);
      assert s[|s| - 1] == NatToDigits(-n)[|s| - 2];
    }
  }
}
