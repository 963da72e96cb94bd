/**
 * The three pieces of Go library behaviour the note store relies on, modelled as
 * pure functions: strings.Join with a single space (how `add` builds a note's
 * content), strconv.Atoi (how `complete` reads its index argument) and the `%d`
 * verb of fmt (how `print` writes an index). Go's `int` and `int64` are 64 bits.
 */
module Text {

  /** Go's 64-bit signed integer (`int` on 64-bit platforms, `int64`). */
  newtype int64 = x: int | -0x8000_0000_0000_0000 <= x < 0x8000_0000_0000_0000

  const MinInt64: int := -0x8000_0000_0000_0000
  const MaxInt64: int := 0x7FFF_FFFF_FFFF_FFFF

  datatype Option<+T> = None | Some(value: T)

  // ---------------------------------------------------------------------------
  // strings.Join(words, " ")
  // ---------------------------------------------------------------------------

  /** The summed length of the words. */
  function TotalLength(words: seq<string>): nat
  {
    if |words| == 0 then 0 else |words[0]| + TotalLength(words[1..])
  }

  /** The words separated by one space each; no words give the empty string. */
  function JoinSpaces(words: seq<string>): (s: string)
    ensures |words| == 0 ==> s == ""
    ensures |words| > 0 ==> |s| == TotalLength(words) + |words| - 1
    ensures |words| > 0 ==> s[..|words[0]|] == words[0]
    ensures |words| > 1 ==> s[|words[0]|] == ' '
  {
    if |words| == 0 then ""
    else if |words| == 1 then words[0]
    else words[0] + " " + JoinSpaces(words[1..])
  }

  /**
   * strings.Split(s, " "): the maximal space-free runs of `s`, cut at every space.
   * Not called by the program; it is the reference against which JoinSpaces is
   * shown to lose no information.
   */
  function SplitSpaces(s: string): (parts: seq<string>)
    ensures |parts| >= 1
    ensures forall k :: 0 <= k < |parts| ==> ' ' !in parts[k]
  {
    if |s| == 0 then [""]
    else
      var rest := SplitSpaces(s[1..]);
      if s[0] == ' ' then [""] + rest
      else [[s[0]] + rest[0]] + rest[1..]
  }

  /** A space-free prefix glues onto the first part of what follows it. */
  lemma {:induction false} SplitSpaceFreePrefix(w: string, t: string)
    requires ' ' !in w
    ensures SplitSpaces(w + t) == [w + SplitSpaces(t)[0]] + SplitSpaces(t)[1..]
  {
    if |w| == 0 {
      assert w + t == t;
      assert w + SplitSpaces(t)[0] == SplitSpaces(t)[0];
      assert [SplitSpaces(t)[0]] + SplitSpaces(t)[1..] == SplitSpaces(t);
    } else {
      assert (w + t)[1..] == w[1..] + t;
      assert ' ' !in w[1..] by {
        forall k | 0 <= k < |w[1..]| ensures w[1..][k] != ' ' {
          assert w[1..][k] == w[k + 1];
        }
      }
      SplitSpaceFreePrefix(w[1..], t);
      assert [w[0]] + (w[1..] + SplitSpaces(t)[0]) == w + SplitSpaces(t)[0];
    }
  }

  /** Joining space-free words and splitting at the spaces gives the words back. */
  lemma {:induction false} SplitJoin(words: seq<string>)
    requires |words| >= 1
    requires forall k :: 0 <= k < |words| ==> ' ' !in words[k]
    ensures SplitSpaces(JoinSpaces(words)) == words
  {
    if |words| == 1 {
      SplitSpaceFreePrefix(words[0], "");
      assert words[0] + "" == words[0];
    } else {
      var tail := JoinSpaces(words[1..]);
      assert JoinSpaces(words) == words[0] + (" " + tail);
      SplitJoin(words[1..]);
      assert (" " + tail)[1..] == tail;
      assert SplitSpaces(" " + tail) == [""] + words[1..];
      SplitSpaceFreePrefix(words[0], " " + tail);
      assert words[0] + "" == words[0];
    }
  }

  // ---------------------------------------------------------------------------
  // Decimal digits: fmt's %d for a non-negative int, and their value
  // ---------------------------------------------------------------------------

  predicate IsDigit(c: char)
  {
    '0' <= c <= '9'
  }

  predicate AllDigits(s: string)
  {
    forall k :: 0 <= k < |s| ==> IsDigit(s[k])
  }

  function DigitChar(d: nat): (c: char)
    requires d < 10
    ensures IsDigit(c) && c as int - '0' as int == d
  {
    ('0' as int + d) as char
  }

  /** The value of a string of decimal digits, most significant first. */
  function DigitsValue(s: string): nat
    requires AllDigits(s)
  {
    if |s| == 0 then 0
    else 10 * DigitsValue(s[..|s| - 1]) + (s[|s| - 1] as int - '0' as int)
  }

  /** `fmt.Sprintf("%d", n)` for n >= 0: digits only, and no leading zero. */
  function Decimal(n: nat): (s: string)
    ensures |s| >= 1 && AllDigits(s)
    ensures s[0] == '0' ==> n == 0
  {
    if n < 10 then [DigitChar(n)] else Decimal(n / 10) + [DigitChar(n % 10)]
  }

  /** The digits Decimal writes denote the number written. */
  lemma {:induction false} DecimalValue(n: nat)
    ensures DigitsValue(Decimal(n)) == n
  {
    if n >= 10 {
      var s := Decimal(n);
      assert s[..|s| - 1] == Decimal(n / 10);
      DecimalValue(n / 10);
    }
  }

  /** `k` zero digits. */
  function Zeros(k: nat): (z: string)
    ensures |z| == k && forall j :: 0 <= j < k ==> z[j] == '0'
  {
    seq(k, _ => '0')
  }

  /** Any number of leading zeros leaves the value of a digit string unchanged. */
  lemma {:induction false} LeadingZerosValue(k: nat, s: string)
    requires AllDigits(s)
    ensures AllDigits(Zeros(k) + s) && DigitsValue(Zeros(k) + s) == DigitsValue(s)
  {
    var z := Zeros(k) + s;
    assert AllDigits(z) by {
      forall j | 0 <= j < |z| ensures IsDigit(z[j]) {
        if j >= k { assert z[j] == s[j - k]; }
      }
    }
    if |s| > 0 {
      var w := s[..|s| - 1];
      assert z[..|z| - 1] == Zeros(k) + w;
      assert z[|z| - 1] == s[|s| - 1];
      assert AllDigits(w) by {
        forall j | 0 <= j < |w| ensures IsDigit(w[j]) { assert w[j] == s[j]; }
      }
      LeadingZerosValue(k, w);
    } else {
      assert z == Zeros(k);
      if k > 0 {
        assert z[..|z| - 1] == Zeros(k - 1) + s;
        LeadingZerosValue(k - 1, s);
      }
    }
  }

  // ---------------------------------------------------------------------------
  // strconv.Atoi
  // ---------------------------------------------------------------------------

  /**
   * strconv.Atoi with Go's `int` of 64 bits: an optional '+' or '-', then one or
   * more ASCII decimal digits (leading zeros allowed, no underscores, no spaces),
   * whose signed value fits in 64 bits. Anything else is an error (None).
   */
  function Atoi(s: string): (r: Option<int64>)
    ensures |s| == 0 ==> r.None?
    ensures r.Some? ==> forall k :: 0 < k < |s| ==> IsDigit(s[k])
    ensures r.Some? ==> IsDigit(s[0]) || (|s| >= 2 && (s[0] == '+' || s[0] == '-'))
  {
    var signed := |s| > 0 && (s[0] == '+' || s[0] == '-');
    var digits := if signed then s[1..] else s;
    if |digits| == 0 || !AllDigits(digits) then None
    else
      var magnitude: int := DigitsValue(digits);
      var v := if signed && s[0] == '-' then -magnitude else magnitude;
      if MinInt64 <= v <= MaxInt64 then Some(v as int64) else None
  }

  /** An unsigned digit string within the int64 range parses to its value. */
  lemma {:induction false} AtoiDigits(s: string)
    requires |s| > 0 && AllDigits(s) && DigitsValue(s) <= MaxInt64
    ensures Atoi(s) == Some(DigitsValue(s) as int64)
  {
    assert IsDigit(s[0]);
  }

  /** Atoi reads back every non-negative number %d writes, up to the 64-bit bound. */
  lemma {:induction false} AtoiDecimal(n: nat)
    requires n <= MaxInt64
    ensures Atoi(Decimal(n)) == Some(n as int64)
  {
    DecimalValue(n);
    AtoiDigits(Decimal(n));
  }

  /** An explicit sign is accepted; "-" reaches down to the most negative int64. */
  lemma {:induction false} AtoiSigned(n: nat)
    ensures n <= MaxInt64 ==> Atoi("+" + Decimal(n)) == Some(n as int64)
    ensures n <= -MinInt64 ==> Atoi("-" + Decimal(n)) == Some((0 - n) as int64)
    ensures n > MaxInt64 ==> Atoi("+" + Decimal(n)).None? && Atoi(Decimal(n)).None?
    ensures n > -MinInt64 ==> Atoi("-" + Decimal(n)).None?
  {
    DecimalValue(n);
    assert ("+" + Decimal(n))[1..] == Decimal(n);
    assert ("-" + Decimal(n))[1..] == Decimal(n);
  }

  /** Leading zeros are accepted: with two of them, "007" reads as 7. */
  lemma {:induction false} AtoiLeadingZeros(k: nat, n: nat)
    requires n <= MaxInt64
    ensures Atoi(Zeros(k) + Decimal(n)) == Some(n as int64)
  {
    DecimalValue(n);
    LeadingZerosValue(k, Decimal(n));
    AtoiDigits(Zeros(k) + Decimal(n));
  }
}
