/** Character and string helpers with the meaning the Python standard library
    gives them in the configuration tool: `str.isdigit`, `int()`, zero-padded
    `format`, `str.split`, `str.rstrip` and `str.strip`, restricted to ASCII
    text (the serial link decodes every byte as ASCII). */
module Text {

  datatype Option<T> = None | Some(value: T)

  // ---------------------------------------------------------------------------
  // Decimal digits
  // ---------------------------------------------------------------------------

  predicate IsDigitChar(c: char) {
    '0' <= c <= '9'
  }

  /** Python's `str.isdigit`: non-empty and every character a digit. */
  predicate IsDigits(s: string) {
    |s| > 0 && AllDigits(s)
  }

  predicate AllDigits(s: string) {
    forall i :: 0 <= i < |s| ==> IsDigitChar(s[i])
  }

  function DigitValue(c: char): (d: nat)
    requires IsDigitChar(c)
    ensures d < 10
  {
    (c as int - '0' as int) as nat
  }

  function DigitChar(d: nat): (c: char)
    requires d < 10
    ensures IsDigitChar(c) && DigitValue(c) == d
  {
    ('0' as int + d) as char
  }

  function Pow10(k: nat): (p: nat)
    ensures p >= 1
  {
    if k == 0 then 1 else 10 * Pow10(k - 1)
  }

  /** The number a string of decimal digits denotes (leading zeros allowed). */
  function ValueOf(s: string): nat
    requires AllDigits(s)
  {
    if |s| == 0 then 0 else ValueOf(s[..|s| - 1]) * 10 + DigitValue(s[|s| - 1])
  }

  /** The shortest decimal numeral of `n`, as `str(n)` writes it. */
  function Decimal(n: nat): (s: string)
    ensures |s| >= 1 && AllDigits(s)
  {
    if n < 10 then [DigitChar(n)] else Decimal(n / 10) + [DigitChar(n % 10)]
  }

  function Zeros(k: nat): (s: string)
    ensures |s| == k && AllDigits(s)
  {
    if k == 0 then "" else "0" + Zeros(k - 1)
  }

  /** `'{0:0Wd}'.format(n)` for a non-negative `n`: at least `w` characters,
      zeros on the left; a wider number is never truncated. */
  function ZeroPad(n: nat, w: nat): (s: string)
    ensures AllDigits(s) && |s| >= 1
  {
    var d := Decimal(n);
    if |d| >= w then d else Zeros(w - |d|) + d
  }

  /** `'{0:0Wd}'.format(n)` for any integer: a negative number keeps its sign
      in front and the zeros count toward the width. */
  function FormatInt(n: int, w: nat): string {
    if n >= 0 then ZeroPad(n, w) else "-" + ZeroPad(-n, if w > 0 then w - 1 else 0)
  }

  lemma {:induction false} ValueOfAppendDigit(s: string, c: char)
    requires AllDigits(s) && IsDigitChar(c)
    ensures AllDigits(s + [c])
    ensures ValueOf(s + [c]) == ValueOf(s) * 10 + DigitValue(c)
  {
    assert (s + [c])[..|s + [c]| - 1] == s;
  }

  lemma {:induction false} DecimalValue(n: nat)
    ensures ValueOf(Decimal(n)) == n
  {
    if n >= 10 {
      DecimalValue(n / 10);
      ValueOfAppendDigit(Decimal(n / 10), DigitChar(n % 10));
    }
  }

  lemma {:induction false} DecimalLength(n: nat, w: nat)
    requires w >= 1
    ensures |Decimal(n)| <= w <==> n < Pow10(w)
  {
    if n >= 10 {
      if w == 1 {
      } else {
        DecimalLength(n / 10, w - 1);
      }
    }
  }

  /** Leading zeros do not change the value. */
  lemma {:induction false} ValueOfZerosPrefix(k: nat, s: string)
    requires AllDigits(s)
    ensures AllDigits(Zeros(k) + s)
    ensures ValueOf(Zeros(k) + s) == ValueOf(s)
  {
    if |s| == 0 {
      assert Zeros(k) + s == Zeros(k);
      ZerosValue(k);
    } else {
      var init := s[..|s| - 1];
      var last := s[|s| - 1];
      assert s == init + [last];
      ValueOfZerosPrefix(k, init);
      assert Zeros(k) + s == (Zeros(k) + init) + [last];
      ValueOfAppendDigit(Zeros(k) + init, last);
    }
  }

  lemma {:induction false} ZerosValue(k: nat)
    ensures ValueOf(Zeros(k)) == 0
  {
    if k > 0 {
      ZerosValue(k - 1);
      assert Zeros(k) == Zeros(k - 1) + "0" by {
        ZerosShift(k - 1);
      }
      ValueOfAppendDigit(Zeros(k - 1), '0');
    }
  }

  lemma {:induction false} ZerosShift(k: nat)
    ensures "0" + Zeros(k) == Zeros(k) + "0"
  {
    if k > 0 {
      ZerosShift(k - 1);
    }
  }

  /** Zero padding round-trips through `int()` and fills exactly `w`
      characters whenever the number fits. */
  lemma ZeroPadValue(n: nat, w: nat)
    ensures ValueOf(ZeroPad(n, w)) == n
    ensures w >= 1 && n < Pow10(w) ==> |ZeroPad(n, w)| == w
    ensures |ZeroPad(n, w)| >= w
  {
    ZeroPadDigits(n, w);
    ZeroPadWidth(n, w);
  }

  lemma ZeroPadDigits(n: nat, w: nat)
    ensures ValueOf(ZeroPad(n, w)) == n
  {
    var d := Decimal(n);
    if |d| < w {
      assert ZeroPad(n, w) == Zeros(w - |d|) + d;
      DecimalValue(n);
      PaddedValue(w - |d|, d, n);
    } else {
      assert ZeroPad(n, w) == d;
      DecimalValue(n);
    }
  }

  lemma PaddedValue(k: nat, d: string, n: nat)
    requires AllDigits(d) && ValueOf(d) == n
    ensures AllDigits(Zeros(k) + d) && ValueOf(Zeros(k) + d) == n
  {
    ValueOfZerosPrefix(k, d);
  }

  lemma ZeroPadWidth(n: nat, w: nat)
    ensures w >= 1 && n < Pow10(w) ==> |ZeroPad(n, w)| == w
    ensures |ZeroPad(n, w)| >= w
  {
    if w >= 1 {
      DecimalLength(n, w);
    }
  }

  /** The value of a concatenation of digit strings. */
  lemma {:induction false} ValueOfConcat(a: string, b: string)
    requires AllDigits(a) && AllDigits(b)
    ensures AllDigits(a + b)
    ensures ValueOf(a + b) == ValueOf(a) * Pow10(|b|) + ValueOf(b)
  {
    if |b| > 0 {
      var init := b[..|b| - 1];
      var last := b[|b| - 1];
      assert b == init + [last];
      ValueOfConcat(a, init);
      assert a + b == (a + init) + [last];
      ValueOfAppendDigit(a + init, last);
      ValueOfAppendDigit(init, last);
      Regroup(ValueOf(a), ValueOf(init), Pow10(|init|), DigitValue(last));
    } else {
      assert a + b == a;
    }
  }

  lemma Regroup(x: int, y: int, p: int, d: int)
    ensures (x * p + y) * 10 + d == x * (10 * p) + (y * 10 + d)
  {
  }

  lemma {:induction false} ValueOfBound(s: string)
    requires AllDigits(s)
    ensures ValueOf(s) < Pow10(|s|)
  {
    if |s| > 0 {
      ValueOfBound(s[..|s| - 1]);
    }
  }

  // ---------------------------------------------------------------------------
  // Whitespace, strip and int()
  // ---------------------------------------------------------------------------

  /** ASCII characters for which Python's `str.isspace` holds. */
  predicate IsSpace(c: char) {
    c == ' ' || ('\t' <= c <= '\r') || (28 <= c as int <= 31)
  }

  /** `str.rstrip()`: drop trailing whitespace. */
  function RStrip(s: string): string {
    if |s| == 0 then s
    else if IsSpace(s[|s| - 1]) then RStrip(s[..|s| - 1])
    else s
  }

  /** Right-stripping keeps a prefix that does not end in whitespace and
      drops only whitespace. */
  lemma {:induction false} RStripSpec(s: string)
    ensures var r := RStrip(s);
      && |r| <= |s| && r == s[..|r|]
      && (r == "" || !IsSpace(r[|r| - 1]))
      && forall i :: |r| <= i < |s| ==> IsSpace(s[i])
  {
    if |s| > 0 && IsSpace(s[|s| - 1]) {
      RStripSpec(s[..|s| - 1]);
    }
  }

  /** `str.lstrip()`: drop leading whitespace. */
  function LStrip(s: string): string {
    if |s| == 0 then s
    else if IsSpace(s[0]) then LStrip(s[1..])
    else s
  }

  /** Left-stripping keeps a suffix that does not start with whitespace and
      drops only whitespace. */
  lemma {:induction false} LStripSpec(s: string)
    ensures var r := LStrip(s);
      && |r| <= |s| && r == s[|s| - |r|..]
      && (r == "" || !IsSpace(r[0]))
      && forall i :: 0 <= i < |s| - |r| ==> IsSpace(s[i])
  {
    if |s| > 0 && IsSpace(s[0]) {
      LStripSpec(s[1..]);
    }
  }

  function Strip(s: string): string {
    LStrip(RStrip(s))
  }

  /** Python's `int(s)` on a `str`: surrounding whitespace, an optional sign
      and one or more decimal digits; anything else raises ValueError,
      written here as None. */
  function ParseInt(s: string): Option<int> {
    var t := Strip(s);
    if IsDigits(t) then Some(ValueOf(t))
    else if |t| >= 2 && t[0] == '+' && IsDigits(t[1..]) then Some(ValueOf(t[1..]))
    else if |t| >= 2 && t[0] == '-' && IsDigits(t[1..]) then Some(-(ValueOf(t[1..]) as int))
    else None
  }

  /** A plain digit string is read as the number it denotes. */
  lemma ParseDigits(s: string)
    requires IsDigits(s)
    ensures ParseInt(s) == Some(ValueOf(s))
  {
    assert !IsSpace(s[|s| - 1]) && !IsSpace(s[0]);
    assert RStrip(s) == s;
    assert Strip(s) == s;
  }

  /** A string with a character that is neither digit, sign nor whitespace
      makes `int()` fail. */
  lemma ParseRejects(s: string, i: nat)
    requires i < |s| && !IsDigitChar(s[i]) && !IsSpace(s[i]) && s[i] != '+' && s[i] != '-'
    ensures ParseInt(s) == None
  {
    var r := RStrip(s);
    var t := Strip(s);
    RStripSpec(s);
    LStripSpec(r);
    assert i < |r|;
    assert r[i] == s[i];
    var off := |r| - |t|;
    assert off <= i;
    assert t[i - off] == s[i];
  }

  /** `int()` reads back every number `FormatInt` writes. */
  lemma ParseFormatInt(n: int, w: nat)
    ensures ParseInt(FormatInt(n, w)) == Some(n)
  {
    if n >= 0 {
      ZeroPadValue(n, w);
      ParseDigits(ZeroPad(n, w));
    } else {
      var d := ZeroPad(-n, if w > 0 then w - 1 else 0);
      ZeroPadValue(-n, if w > 0 then w - 1 else 0);
      var s := "-" + d;
      assert !IsSpace(s[|s| - 1]) && !IsSpace(s[0]);
      assert RStrip(s) == s;
      assert Strip(s) == s;
      assert s[1..] == d;
      assert !IsDigits(s) by {
        assert !IsDigitChar(s[0]);
      }
    }
  }

  // ---------------------------------------------------------------------------
  // Splitting
  // ---------------------------------------------------------------------------

  /** `s.split(sep)` for a one-character separator: every occurrence cuts, so
      there is always one more piece than separators. */
  function Split(s: string, sep: char): (parts: seq<string>)
    ensures |parts| >= 1
  {
    if |s| == 0 then [""]
    else
      var rest := Split(s[1..], sep);
      if s[0] == sep then [""] + rest else [[s[0]] + rest[0]] + rest[1..]
  }

  lemma {:induction false} SplitNoSep(a: string, sep: char)
    requires sep !in a
    ensures Split(a, sep) == [a]
  {
    if |a| > 0 {
      SplitNoSep(a[1..], sep);
      assert [a[0]] + a[1..] == a;
    }
  }

  lemma {:induction false} SplitFirst(a: string, sep: char, rest: string)
    requires sep !in a
    ensures Split(a + [sep] + rest, sep) == [a] + Split(rest, sep)
  {
    var s := a + [sep] + rest;
    if |a| == 0 {
      assert s[1..] == rest;
    } else {
      assert s[1..] == a[1..] + [sep] + rest;
      SplitFirst(a[1..], sep, rest);
      assert [a[0]] + a[1..] == a;
    }
  }

  /** `s.split()` with no argument: the maximal runs of non-whitespace. */
  function Words(s: string): seq<string>
    decreases |s|
  {
    LStripSpec(s);
    var t := LStrip(s);
    if |t| == 0 then []
    else
      var n := WordLength(t);
      [t[..n]] + Words(t[n..])
  }

  /** Every word is non-empty and holds no whitespace. */
  lemma {:induction false} WordsSpec(s: string)
    ensures forall k :: 0 <= k < |Words(s)| ==> Words(s)[k] != "" && NoSpace(Words(s)[k])
    decreases |s|
  {
    LStripSpec(s);
    var t := LStrip(s);
    if |t| > 0 {
      var n := WordLength(t);
      WordsSpec(t[n..]);
      assert Words(s) == [t[..n]] + Words(t[n..]);
    }
  }

  predicate NoSpace(w: string) {
    forall i :: 0 <= i < |w| ==> !IsSpace(w[i])
  }

  function WordLength(t: string): (n: nat)
    ensures n <= |t|
    ensures |t| > 0 && !IsSpace(t[0]) ==> n > 0
    ensures forall i :: 0 <= i < n ==> !IsSpace(t[i])
    ensures n == |t| || IsSpace(t[n])
  {
    if |t| == 0 || IsSpace(t[0]) then 0 else 1 + WordLength(t[1..])
  }

  /** Python slicing `s[i:j]` with non-negative bounds, clipped to the string. */
  function Slice(s: string, i: nat, j: nat): (r: string)
    ensures |r| <= |s|
  {
    var hi := if j <= |s| then j else |s|;
    var lo := if i <= hi then i else hi;
    s[lo..hi]
  }
}
