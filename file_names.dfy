/** The names of the snapshot files the interpret command writes:
    `String.format("ch%02d-%04d.txt", index, count)`. */
module FileNames {
  predicate IsDigit(c: char) {
    '0' <= c <= '9'
  }

  predicate AllDigits(s: string) {
    forall i :: 0 <= i < |s| ==> IsDigit(s[i])
  }

  function DigitChar(d: nat): (c: char)
    requires d < 10
    ensures IsDigit(c) && c as int - '0' as int == d
  {
    ('0' as int + d) as char
  }

  /** The decimal digits of `n`, most significant first, with no leading
      zero ("0" for zero). */
  function Decimal(n: nat): (s: string)
    ensures |s| >= 1 && AllDigits(s)
    ensures n >= 10 ==> |s| >= 2
    decreases n
  {
    if n < 10 then [DigitChar(n)] else Decimal(n / 10) + [DigitChar(n % 10)]
  }

  /** The number a string of decimal digits denotes. */
  function Value(s: string): nat
    requires AllDigits(s)
  {
    if s == [] then 0
    else
      var init := s[..|s| - 1];
      assert AllDigits(init) by {
        forall i | 0 <= i < |init| ensures IsDigit(init[i]) {
          assert init[i] == s[i];
        }
      }
      Value(init) * 10 + (s[|s| - 1] as int - '0' as int)
  }

  function Zeros(k: nat): (s: string)
    ensures |s| == k && AllDigits(s)
  {
    seq(k, _ => '0')
  }

  /** Java's `%0wd`: the decimal digits of `n` with leading zeros up to
      width `w`; a negative number has its sign first, counted in the
      width, and the zeros after it. */
  function ZeroPadded(n: int, w: nat): (s: string)
  {
    var digits := Decimal(if n < 0 then -n else n);
    var sign := if n < 0 then "-" else "";
    if |sign| + |digits| < w then sign + Zeros(w - |sign| - |digits|) + digits
    else sign + digits
  }

  /** The snapshot file of `count`th snapshot of channel `index`. */
  function FileName(index: int, count: int): string {
    "ch" + ZeroPadded(index, 2) + "-" + ZeroPadded(count, 4) + ".txt"
  }

  /** The digits of `n` read back as `n`. */
  lemma {:induction false} DecimalValue(n: nat)
    ensures Value(Decimal(n)) == n
    decreases n
  {
    var s := Decimal(n);
    if n >= 10 {
      DecimalValue(n / 10);
      assert s[..|s| - 1] == Decimal(n / 10);
    }
  }

  /** A number below 10^k has at most k digits, for k at least one. */
  lemma {:induction false} DecimalLength(n: nat, k: nat, bound: nat)
    requires k >= 1 && bound == Power10(k) && n < bound
    ensures |Decimal(n)| <= k
    decreases k
  {
    if n >= 10 {
      assert k >= 2 by {
        if k == 1 { assert false; }
      }
      DecimalLength(n / 10, k - 1, Power10(k - 1));
    }
  }

  function Power10(k: nat): (r: nat)
    ensures r >= 1
  {
    if k == 0 then 1 else 10 * Power10(k - 1)
  }

  /** Leading zeros do not change the value. */
  lemma {:induction false} LeadingZeros(k: nat, s: string)
    requires AllDigits(s)
    ensures AllDigits(Zeros(k) + s) && Value(Zeros(k) + s) == Value(s)
    decreases |s|
  {
    var t := Zeros(k) + s;
    assert AllDigits(t) by {
      forall i | 0 <= i < |t| ensures IsDigit(t[i]) {
        if i < k { assert t[i] == Zeros(k)[i]; } else { assert t[i] == s[i - k]; }
      }
    }
    if s == [] {
      assert t == Zeros(k);
      ZerosValue(k);
    } else {
      var init := s[..|s| - 1];
      assert AllDigits(init) by {
        forall i | 0 <= i < |init| ensures IsDigit(init[i]) { assert init[i] == s[i]; }
      }
      LeadingZeros(k, init);
      assert t[..|t| - 1] == Zeros(k) + init;
    }
  }

  lemma {:induction false} ZerosValue(k: nat)
    ensures Value(Zeros(k)) == 0
    decreases k
  {
    if k > 0 {
      assert Zeros(k)[..k - 1] == Zeros(k - 1);
      ZerosValue(k - 1);
    }
  }

  /** A non-negative number padded to width `w` is a digit string of
      length `w` with value `n`, when it has at most `w` digits. */
  lemma ZeroPaddedValue(n: nat, w: nat)
    requires |Decimal(n)| <= w
    ensures AllDigits(ZeroPadded(n, w)) && |ZeroPadded(n, w)| == w
    ensures Value(ZeroPadded(n, w)) == n
  {
    var digits := Decimal(n);
    DecimalValue(n);
    LeadingZeros(w - |digits|, digits);
    assert ZeroPadded(n, w) == Zeros(w - |digits|) + digits;
  }

  /** For channels below 100 and counts below 10000 the name is
      "chII-CCCC.txt", and the index and count read back from it. */
  lemma FileNameFields(index: int, count: int)
    requires 0 <= index < 100 && 0 <= count < 10000
    ensures var f := FileName(index, count);
      && |f| == 13 && f[..2] == "ch" && f[4] == '-' && f[9..] == ".txt"
      && AllDigits(f[2..4]) && Value(f[2..4]) == index
      && AllDigits(f[5..9]) && Value(f[5..9]) == count
  {
    DecimalLength(index, 2, 100);
    DecimalLength(count, 4, 10000);
    ZeroPaddedValue(index, 2);
    ZeroPaddedValue(count, 4);
    var f := FileName(index, count);
    var i, c := ZeroPadded(index, 2), ZeroPadded(count, 4);
    assert f == "ch" + i + "-" + c + ".txt";
    assert f[2..4] == i;
    assert f[5..9] == c;
  }

  /** Different snapshots of different channels get different files. */
  lemma FileNameInjective(i: int, c: int, j: int, d: int)
    requires 0 <= i < 100 && 0 <= c < 10000 && 0 <= j < 100 && 0 <= d < 10000
    requires FileName(i, c) == FileName(j, d)
    ensures i == j && c == d
  {
    FileNameFields(i, c);
    FileNameFields(j, d);
  }

  /** The first snapshot of channel 3. */
  lemma FirstFileOfChannel3()
    ensures FileName(3, 1) == "ch03-0001.txt"
  {
    assert Decimal(3) == "3" && Decimal(1) == "1";
    assert ZeroPadded(3, 2) == "03";
    assert ZeroPadded(1, 4) == "0001";
  }

  /** A negative count keeps its sign in front of the zeros. */
  lemma NegativeCount()
    ensures ZeroPadded(-5, 4) == "-005"
  {
    assert Decimal(5) == "5";
  }
}
