/**
 * Text helpers shared by the two CSV layouts: Python's `str()` of an integer,
 * `str.zfill(2)`, and the comma-separated record the formatters build by hand.
 * `ParseNat` and `Split` are the inverses used to state what the rendered
 * text means.
 */
module CsvText {

  function DigitChar(d: nat): (c: char)
    requires d < 10
    ensures '0' <= c <= '9'
  {
    ('0' as int + d) as char
  }

  function DigitValue(c: char): nat
    requires '0' <= c <= '9'
  {
    c as int - '0' as int
  }

  predicate IsDigits(s: string) {
    forall i :: 0 <= i < |s| ==> '0' <= s[i] <= '9'
  }

  /** Python's `str(n)` for n >= 0: decimal digits without a leading zero. */
  function NatToString(n: nat): (s: string)
    ensures |s| >= 1 && IsDigits(s)
    ensures s[0] == '0' ==> n == 0
    decreases n
  {
    if n < 10 then [DigitChar(n)] else NatToString(n / 10) + [DigitChar(n % 10)]
  }

  /** Python's `str(i)` for any int: a minus sign before the digits of |i|. */
  function IntToString(i: int): (s: string)
    ensures |s| >= 1
    ensures ',' !in s && '\n' !in s
  {
    if i < 0 then "-" + NatToString(-i) else NatToString(i)
  }

  /** Reads a decimal digit string back (leading zeros allowed, "" reads as 0). */
  function ParseNat(s: string): nat
    requires IsDigits(s)
  {
    if s == [] then 0 else ParseNat(s[..|s| - 1]) * 10 + DigitValue(s[|s| - 1])
  }

  lemma {:induction false} ParseNatToString(n: nat)
    ensures ParseNat(NatToString(n)) == n
    decreases n
  {
    if n >= 10 {
      var s := NatToString(n);
      assert s[..|s| - 1] == NatToString(n / 10);
      ParseNatToString(n / 10);
    }
  }

  /** str(n) is injective: two numbers print the same only when they are equal. */
  lemma NatToStringInjective(m: nat, n: nat)
    requires NatToString(m) == NatToString(n)
    ensures m == n
  {
    ParseNatToString(m);
    ParseNatToString(n);
  }

  predicate AllZeros(s: string) {
    forall i :: 0 <= i < |s| ==> s[i] == '0'
  }

  /** Python's `s.zfill(2)` for a string without a sign: left-pad with '0' to width 2. */
  function ZFill2(s: string): (r: string)
    ensures |r| == if |s| < 2 then 2 else |s|
    ensures r[|r| - |s|..] == s
    ensures AllZeros(r[..|r| - |s|])
  {
    if |s| >= 2 then s else seq(2 - |s|, _ => '0') + s
  }

  lemma {:induction false} ParseNatAllZeros(z: string)
    requires AllZeros(z)
    ensures IsDigits(z) && ParseNat(z) == 0
  {
    if z != [] {
      ParseNatAllZeros(z[..|z| - 1]);
    }
  }

  /** Leading zeros do not change the number a digit string denotes. */
  lemma {:induction false} ParseNatLeadingZeros(z: string, s: string)
    requires AllZeros(z) && IsDigits(s)
    ensures IsDigits(z + s) && ParseNat(z + s) == ParseNat(s)
    decreases |s|
  {
    if s == [] {
      assert z + s == z;
      ParseNatAllZeros(z);
    } else {
      var t := z + s;
      assert t[..|t| - 1] == z + s[..|s| - 1];
      ParseNatLeadingZeros(z, s[..|s| - 1]);
    }
  }

  /** The zero-padded month string still reads back as the same number. */
  lemma ZFill2Digits(s: string)
    requires IsDigits(s)
    ensures IsDigits(ZFill2(s)) && ParseNat(ZFill2(s)) == ParseNat(s)
  {
    var r := ZFill2(s);
    var z := r[..|r| - |s|];
    assert r == z + s;
    ParseNatLeadingZeros(z, s);
  }

  /** The fields of one CSV record joined by commas. */
  function Join(fields: seq<string>): string {
    if |fields| <= 1 then (if fields == [] then "" else fields[0])
    else Join(fields[..|fields| - 1]) + "," + fields[|fields| - 1]
  }

  /** One CSV record: the joined fields and a line break. */
  function CsvRecord(fields: seq<string>): string {
    Join(fields) + "\n"
  }

  /** The "," + x suffix the formatters append once per extra field. */
  function Cells(xs: seq<string>): (r: string)
    ensures |r| >= |xs|
  {
    if xs == [] then "" else Cells(xs[..|xs| - 1]) + "," + xs[|xs| - 1]
  }

  /** Appending cells to a record adds exactly those fields to it. */
  lemma {:induction false} JoinCells(pre: seq<string>, xs: seq<string>)
    requires |pre| >= 1
    ensures Join(pre + xs) == Join(pre) + Cells(xs)
    decreases |xs|
  {
    if xs != [] {
      var ys := xs[..|xs| - 1];
      assert (pre + xs)[..|pre + xs| - 1] == pre + ys;
      JoinCells(pre, ys);
    } else {
      assert pre + xs == pre;
    }
  }

  /** Splits a line at every comma, as a CSV reader without quoting does. */
  function Split(s: string): (fs: seq<string>)
    ensures |fs| >= 1
  {
    if s == [] then [""]
    else
      var fs := Split(s[..|s| - 1]);
      if s[|s| - 1] == ',' then fs + [""]
      else fs[..|fs| - 1] + [fs[|fs| - 1] + [s[|s| - 1]]]
  }

  predicate CommaFree(fields: seq<string>) {
    forall i :: 0 <= i < |fields| ==> ',' !in fields[i]
  }

  lemma {:induction false} SplitOneField(f: string)
    requires ',' !in f
    ensures Split(f) == [f]
    decreases |f|
  {
    if f != [] {
      var g := f[..|f| - 1];
      assert ',' !in g by {
        forall i | 0 <= i < |g| ensures g[i] != ',' {
          assert g[i] == f[i];
        }
      }
      SplitOneField(g);
      assert g + [f[|f| - 1]] == f;
    }
  }

  lemma {:induction false} SplitAppendField(x: string, f: string)
    requires ',' !in f
    ensures Split(x + "," + f) == Split(x) + [f]
    decreases |f|
  {
    var t := x + "," + f;
    if f == [] {
      assert t[..|t| - 1] == x;
    } else {
      var g := f[..|f| - 1];
      assert ',' !in g by {
        forall i | 0 <= i < |g| ensures g[i] != ',' {
          assert g[i] == f[i];
        }
      }
      assert t[..|t| - 1] == x + "," + g;
      assert t[|t| - 1] == f[|f| - 1];
      SplitAppendField(x, g);
      assert g + [f[|f| - 1]] == f;
    }
  }

  /** Reading a joined record back gives its fields, provided no field holds a comma. */
  lemma {:induction false} SplitJoin(fields: seq<string>)
    requires |fields| >= 1 && CommaFree(fields)
    ensures Split(Join(fields)) == fields
    decreases |fields|
  {
    if |fields| == 1 {
      SplitOneField(fields[0]);
    } else {
      var pre := fields[..|fields| - 1];
      SplitJoin(pre);
      SplitAppendField(Join(pre), fields[|fields| - 1]);
      assert pre + [fields[|fields| - 1]] == fields;
    }
  }
}
