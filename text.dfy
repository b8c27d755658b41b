/** String helpers standing for the Python formatting and comparison the modelled code relies on. */
module Text {

  function Pow10(w: nat): (p: nat)
    ensures p >= 1
  {
    if w == 0 then 1 else 10 * Pow10(w - 1)
  }

  function DigitChar(d: nat): (c: char)
    requires d < 10
    ensures '0' <= c <= '9'
  {
    ('0' as int + d) as char
  }

  predicate IsDigit(c: char) { '0' <= c <= '9' }

  /** `n` written with exactly `w` decimal digits, zero-padded on the left (Python's `{n:0wd}` when `n < 10^w`). */
  function Pad(n: nat, w: nat): (s: string)
    ensures |s| == w
    ensures forall i :: 0 <= i < |s| ==> IsDigit(s[i])
  {
    if w == 0 then "" else Pad(n / 10, w - 1) + [DigitChar(n % 10)]
  }

  /** Python's `str(n)` for a non-negative integer. */
  function NatToString(n: nat): (s: string)
    ensures |s| >= 1
    ensures forall i :: 0 <= i < |s| ==> IsDigit(s[i])
  {
    if n < 10 then [DigitChar(n)] else NatToString(n / 10) + [DigitChar(n % 10)]
  }

  /** Different numbers have different decimal renderings. */
  lemma {:induction false} NatToStringInjective(n: nat, m: nat)
    requires NatToString(n) == NatToString(m)
    ensures n == m
  {
    var s := NatToString(n);
    if n >= 10 && m >= 10 {
      var k := |s| - 1;
      assert NatToString(n / 10) == s[..k] == NatToString(m / 10);
      assert DigitChar(n % 10) == s[k] == DigitChar(m % 10);
      NatToStringInjective(n / 10, m / 10);
    }
  }

  /** Python's `str(i)` for an integer. */
  function IntToString(i: int): (s: string)
    ensures |s| >= 1
    ensures i < 0 <==> s[0] == '-'
  {
    if i < 0 then "-" + NatToString(-i) else NatToString(i)
  }

  lemma IntToStringInjective(i: int, j: int)
    requires IntToString(i) == IntToString(j)
    ensures i == j
  {
    if i < 0 && j < 0 {
      assert NatToString(-i) == IntToString(i)[1..] == IntToString(j)[1..] == NatToString(-j);
      NatToStringInjective(-i, -j);
    } else if i >= 0 && j >= 0 {
      NatToStringInjective(i, j);
    }
  }

  /** Python's `sep.join(lines)`. */
  function Join(lines: seq<string>, sep: string): string
  {
    if |lines| == 0 then ""
    else if |lines| == 1 then lines[0]
    else lines[0] + sep + Join(lines[1..], sep)
  }

  lemma {:induction false} JoinAppend(a: seq<string>, b: seq<string>, sep: string)
    requires |a| > 0 && |b| > 0
    ensures Join(a + b, sep) == Join(a, sep) + sep + Join(b, sep)
  {
    if |a| == 1 {
      assert (a + b)[1..] == b;
    } else {
      assert (a + b)[1..] == a[1..] + b;
      JoinAppend(a[1..], b, sep);
    }
  }

  /** Python's `<` on strings: lexicographic order on code points. */
  predicate LexLess(a: string, b: string)
  {
    if |b| == 0 then false
    else if |a| == 0 then true
    else if a[0] != b[0] then a[0] < b[0]
    else LexLess(a[1..], b[1..])
  }

  /** Python's `<=` on strings. */
  predicate LexLe(a: string, b: string)
  {
    a == b || LexLess(a, b)
  }

  lemma {:induction false} LexLessIrreflexive(a: string)
    ensures !LexLess(a, a)
  {
    if |a| > 0 { LexLessIrreflexive(a[1..]); }
  }

  lemma {:induction false} LexLessTransitive(a: string, b: string, c: string)
    requires LexLess(a, b) && LexLess(b, c)
    ensures LexLess(a, c)
  {
    if |a| > 0 && a[0] == b[0] && b[0] == c[0] {
      LexLessTransitive(a[1..], b[1..], c[1..]);
    }
  }

  lemma {:induction false} LexLessTotal(a: string, b: string)
    ensures a == b || LexLess(a, b) || LexLess(b, a)
  {
    if |a| > 0 && |b| > 0 && a[0] == b[0] {
      LexLessTotal(a[1..], b[1..]);
      if a[1..] == b[1..] {
        assert a == [a[0]] + a[1..] && b == [b[0]] + b[1..];
      }
    }
  }

  lemma LexLeTransitive(a: string, b: string, c: string)
    requires LexLe(a, b) && LexLe(b, c)
    ensures LexLe(a, c)
  {
    if LexLess(a, b) && LexLess(b, c) { LexLessTransitive(a, b, c); }
  }

  /** Comparing two strings that start with prefixes of the same length. */
  lemma {:induction false} LexLessConcat(a: string, b: string, c: string, d: string)
    requires |a| == |c|
    ensures LexLess(a + b, c + d) <==> LexLess(a, c) || (a == c && LexLess(b, d))
  {
    if |a| == 0 {
      assert a + b == b && c + d == d;
    } else {
      assert (a + b)[0] == a[0] && (c + d)[0] == c[0];
      assert (a + b)[1..] == a[1..] + b && (c + d)[1..] == c[1..] + d;
      LexLessConcat(a[1..], b, c[1..], d);
      if a[0] == c[0] && a[1..] == c[1..] {
        assert a == [a[0]] + a[1..] && c == [c[0]] + c[1..];
      }
      if a == c {
        assert a[1..] == c[1..];
      }
    }
  }

  /** Comparing two dash-separated records whose first two fields have equal widths: field by field. */
  lemma DashedOrder(a1: string, a2: string, a3: string, b1: string, b2: string, b3: string)
    requires |a1| == |b1| && |a2| == |b2|
    ensures LexLess(a1 + "-" + a2 + "-" + a3, b1 + "-" + b2 + "-" + b3) <==>
      LexLess(a1, b1) || (a1 == b1 && (LexLess(a2, b2) || (a2 == b2 && LexLess(a3, b3))))
    ensures a1 + "-" + a2 + "-" + a3 == b1 + "-" + b2 + "-" + b3 ==> a1 == b1 && a2 == b2 && a3 == b3
  {
    var ta, tb := "-" + a2 + "-" + a3, "-" + b2 + "-" + b3;
    assert a1 + "-" + a2 + "-" + a3 == a1 + ta;
    assert b1 + "-" + b2 + "-" + b3 == b1 + tb;
    LexLessConcat(a1, ta, b1, tb);
    assert ta == "-" + (a2 + ("-" + a3)) && tb == "-" + (b2 + ("-" + b3));
    LexLessConcat("-", a2 + ("-" + a3), "-", b2 + ("-" + b3));
    LexLessIrreflexive("-");
    LexLessConcat(a2, "-" + a3, b2, "-" + b3);
    LexLessConcat("-", a3, "-", b3);
    if a1 + ta == b1 + tb {
      assert a1 == (a1 + ta)[..|a1|] && b1 == (b1 + tb)[..|b1|];
      assert ta == (a1 + ta)[|a1|..] && tb == (b1 + tb)[|b1|..];
      assert a2 == ta[1..1 + |a2|] && b2 == tb[1..1 + |b2|];
      assert a3 == ta[2 + |a2|..] && b3 == tb[2 + |b2|..];
    }
  }

  lemma {:induction false} PadInjective(n: nat, m: nat, w: nat)
    requires n < Pow10(w) && m < Pow10(w)
    ensures Pad(n, w) == Pad(m, w) <==> n == m
  {
    if w > 0 && Pad(n, w) == Pad(m, w) {
      var k := |Pad(n, w)| - 1;
      assert Pad(n / 10, w - 1) == Pad(n, w)[..k] == Pad(m, w)[..k] == Pad(m / 10, w - 1);
      assert DigitChar(n % 10) == Pad(n, w)[k] == Pad(m, w)[k] == DigitChar(m % 10);
      PadInjective(n / 10, m / 10, w - 1);
    }
  }

  /** Fixed-width zero-padded decimals compare as strings exactly as the numbers compare. */
  lemma {:induction false} PadOrder(n: nat, m: nat, w: nat)
    requires n < Pow10(w) && m < Pow10(w)
    ensures LexLess(Pad(n, w), Pad(m, w)) <==> n < m
  {
    if w == 0 {
    } else {
      var hn, hm := Pad(n / 10, w - 1), Pad(m / 10, w - 1);
      LexLessConcat(hn, [DigitChar(n % 10)], hm, [DigitChar(m % 10)]);
      PadOrder(n / 10, m / 10, w - 1);
      PadInjective(n / 10, m / 10, w - 1);
      assert LexLess([DigitChar(n % 10)], [DigitChar(m % 10)]) <==> n % 10 < m % 10;
    }
  }

  /** Python's `s.replace(a, b)` for one-character `a` and `b`. */
  function ReplaceChar(s: string, from: char, to: char): (r: string)
    ensures |r| == |s|
    ensures forall i :: 0 <= i < |s| ==> r[i] == if s[i] == from then to else s[i]
  {
    seq(|s|, i requires 0 <= i < |s| => if s[i] == from then to else s[i])
  }

  /** Exchanging the thousands and decimal separators: ',' becomes '.' and '.' becomes ','. */
  function SwapSeparators(s: string): (r: string)
    ensures |r| == |s|
  {
    seq(|s|, i requires 0 <= i < |s| => if s[i] == ',' then '.' else if s[i] == '.' then ',' else s[i])
  }

  lemma SwapSeparatorsConcat(a: string, b: string)
    ensures SwapSeparators(a + b) == SwapSeparators(a) + SwapSeparators(b)
  {
  }

  lemma SwapSeparatorsInvolution(s: string)
    ensures SwapSeparators(SwapSeparators(s)) == s
  {
  }

  /** The chain `.replace(",", "X").replace(".", ",").replace("X", ".")` is the separator swap
      exactly when the text holds no 'X'. */
  lemma ThreeReplacesSwap(s: string)
    ensures 'X' !in s <==>
      ReplaceChar(ReplaceChar(ReplaceChar(s, ',', 'X'), '.', ','), 'X', '.') == SwapSeparators(s)
  {
    var r := ReplaceChar(ReplaceChar(ReplaceChar(s, ',', 'X'), '.', ','), 'X', '.');
    if 'X' in s {
      var i :| 0 <= i < |s| && s[i] == 'X';
      assert r[i] == '.' != SwapSeparators(s)[i];
    }
  }

  /** Python's `f"{n:,}"` for a non-negative integer: digits grouped by three with ','. */
  function Grouped(n: nat): (s: string)
    ensures |s| >= 1
    ensures forall i :: 0 <= i < |s| ==> IsDigit(s[i]) || s[i] == ','
  {
    if n < 1000 then NatToString(n) else Grouped(n / 1000) + "," + Pad(n % 1000, 3)
  }

  /** Python's `f"{v:,.2f}"` for an amount given exactly in cents. */
  function GroupedFixed2(cents: int): (s: string)
    ensures 'X' !in s
    ensures |s| >= 4 && (cents < 0 <==> s[0] == '-')
  {
    var a := if cents < 0 then -cents else cents;
    var body := Grouped(a / 100) + "." + Pad(a % 100, 2);
    assert forall i :: 0 <= i < |body| ==> body[i] != 'X' && body[i] != '-';
    if cents < 0 then "-" + body else body
  }

  /** A value handed to a currency formatter: a number, given exactly in cents, or a value
      that `float()` rejects with `ValueError` or `TypeError`. */
  datatype Amount = Number(cents: int) | NotNumeric(raw: string)

  /** The only '.' of the grouped rendering is its decimal point, third from the end. */
  lemma GroupedFixed2Point(cents: int)
    ensures var s := GroupedFixed2(cents);
      s[|s| - 3] == '.' && forall i :: 0 <= i < |s| && i != |s| - 3 ==> s[i] != '.'
  {
    var a := if cents < 0 then -cents else cents;
    var grouped, frac := Grouped(a / 100), Pad(a % 100, 2);
    var body := grouped + "." + frac;
    var s := GroupedFixed2(cents);
    assert s == (if cents < 0 then "-" + body else body);
    var off := if cents < 0 then 1 else 0;
    assert forall i :: 0 <= i < |grouped| ==> s[off + i] == grouped[i];
    assert s[|s| - 2] == frac[0] && s[|s| - 1] == frac[1];
  }

  /** Python's `f"{v:.2f}"` for an amount given exactly in cents. */
  function Fixed2(cents: int): (s: string)
    ensures |s| >= 4 && (cents < 0 <==> s[0] == '-')
  {
    var a := if cents < 0 then -cents else cents;
    (if cents < 0 then "-" else "") + NatToString(a / 100) + "." + Pad(a % 100, 2)
  }
}
