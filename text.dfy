/**
 * The two pieces of Go's standard text formatting the core relies on:
 * `strings.Join` and the `%d` verb of `fmt.Sprintf`.
 */
module Text {

  /** `strings.Join(parts, sep)`: the parts in order with `sep` between neighbours. */
  function Join(parts: seq<string>, sep: string): (r: string)
    ensures |parts| == 0 ==> r == ""
    ensures |parts| > 0 ==> |parts[0]| <= |r| && r[..|parts[0]|] == parts[0]
  {
    if |parts| == 0 then ""
    else if |parts| == 1 then parts[0]
    else parts[0] + sep + Join(parts[1..], sep)
  }

  /** Appending one more part adds the separator and the part at the end. */
  lemma {:induction false} JoinSnoc(parts: seq<string>, x: string, sep: string)
    requires |parts| > 0
    ensures Join(parts + [x], sep) == Join(parts, sep) + sep + x
  {
    if |parts| > 1 {
      assert (parts + [x])[1..] == parts[1..] + [x];
      JoinSnoc(parts[1..], x, sep);
    }
  }

  /** Index of the first `c` in `s`, or `|s|` when there is none. */
  function IndexOf(s: string, c: char): (k: nat)
    ensures k <= |s|
    ensures k < |s| ==> s[k] == c
    ensures forall j :: 0 <= j < k ==> s[j] != c
  {
    if |s| == 0 then 0
    else if s[0] == c then 0
    else 1 + IndexOf(s[1..], c)
  }

  /**
   * Cuts `s` at every occurrence of the separator's first character and
   * drops the separator that follows: the inverse of `Join` for parts that
   * do not contain that character.
   */
  function SplitAtFirstChar(s: string, sep: string): seq<string>
    requires |sep| > 0
    decreases |s|
  {
    var k := IndexOf(s, sep[0]);
    if k == |s| then [s]
    else if k + |sep| <= |s| then [s[..k]] + SplitAtFirstChar(s[k + |sep|..], sep)
    else [s[..k]]
  }

  ghost predicate FreeOf(parts: seq<string>, c: char)
  {
    forall i, j :: 0 <= i < |parts| && 0 <= j < |parts[i]| ==> parts[i][j] != c
  }

  /** Splitting a join gives the parts back when no part holds the separator's first character. */
  lemma {:induction false} SplitJoin(parts: seq<string>, sep: string)
    requires |parts| > 0 && |sep| > 0
    requires FreeOf(parts, sep[0])
    ensures SplitAtFirstChar(Join(parts, sep), sep) == parts
  {
    var p := parts[0];
    assert forall j :: 0 <= j < |p| ==> p[j] != sep[0];
    if |parts| == 1 {
      IndexOfAbsent(p, sep[0]);
    } else {
      var rest := Join(parts[1..], sep);
      var s := p + sep + rest;
      IndexOfAfterPrefix(p, sep + rest, sep[0]);
      assert p + (sep + rest) == s;
      assert s[..|p|] == p;
      assert s[|p| + |sep|..] == rest;
      assert FreeOf(parts[1..], sep[0]) by {
        forall i, j | 0 <= i < |parts[1..]| && 0 <= j < |parts[1..][i]|
          ensures parts[1..][i][j] != sep[0]
        {
          assert parts[1..][i] == parts[i + 1];
        }
      }
      SplitJoin(parts[1..], sep);
    }
  }

  lemma IndexOfAbsent(s: string, c: char)
    requires forall j :: 0 <= j < |s| ==> s[j] != c
    ensures IndexOf(s, c) == |s|
  {
  }

  lemma IndexOfAfterPrefix(p: string, t: string, c: char)
    requires forall j :: 0 <= j < |p| ==> p[j] != c
    requires |t| > 0 && t[0] == c
    ensures IndexOf(p + t, c) == |p|
  {
    if |p| > 0 {
      assert (p + t)[1..] == p[1..] + t;
      IndexOfAfterPrefix(p[1..], t, c);
    }
  }

  /** The character of a decimal digit. */
  function DigitChar(d: nat): char
    requires d < 10
  {
    (48 + d) as char
  }

  predicate IsDigit(c: char)
  {
    '0' <= c <= '9'
  }

  function DigitValue(c: char): (d: nat)
    requires IsDigit(c)
    ensures d < 10
  {
    (c as int) - ('0' as int)
  }

  /** `%d` of a non-negative number: its decimal digits, most significant first. */
  function Decimal(n: nat): (s: string)
    ensures |s| > 0
    ensures forall i :: 0 <= i < |s| ==> IsDigit(s[i])
    ensures s[0] == '0' ==> n == 0
  {
    if n < 10 then [DigitChar(n)] else Decimal(n / 10) + [DigitChar(n % 10)]
  }

  /** `%d` of any Go `int`. */
  function FormatInt(i: int): (s: string)
    ensures |s| > 0 && (s[0] == '-' <==> i < 0)
    ensures i >= 0 ==> (forall k :: 0 <= k < |s| ==> IsDigit(s[k])) && ParseDecimal(s) == i
    ensures i < 0 ==> (forall k :: 1 <= k < |s| ==> IsDigit(s[k])) && ParseDecimal(s[1..]) == -i
    ensures i >= 0 && s[0] == '0' ==> i == 0
    ensures i < 0 ==> |s| > 1 && s[1] != '0'
  {
    if i < 0 then
      ParseDecimalOfDecimal(-i);
      assert ("-" + Decimal(-i))[1..] == Decimal(-i);
      "-" + Decimal(-i)
    else
      ParseDecimalOfDecimal(i);
      Decimal(i)
  }

  /** The value of a string of decimal digits. */
  function ParseDecimal(s: string): nat
    requires forall i :: 0 <= i < |s| ==> IsDigit(s[i])
  {
    if |s| == 0 then 0
    else 10 * ParseDecimal(s[..|s| - 1]) + DigitValue(s[|s| - 1])
  }

  /** Reading the digits back gives the number: decimal formatting loses nothing. */
  lemma {:induction false} ParseDecimalOfDecimal(n: nat)
    ensures ParseDecimal(Decimal(n)) == n
  {
    if n >= 10 {
      var s := Decimal(n);
      assert s[..|s| - 1] == Decimal(n / 10);
      ParseDecimalOfDecimal(n / 10);
    }
  }

  /** Distinct non-negative `int`s print differently. */
  lemma FormatNatInjective(m: nat, n: nat)
    requires FormatInt(m) == FormatInt(n)
    ensures m == n
  {
    DecimalInjective(m, n);
  }

  /** Distinct numbers print differently. */
  lemma DecimalInjective(m: nat, n: nat)
    requires Decimal(m) == Decimal(n)
    ensures m == n
  {
    ParseDecimalOfDecimal(m);
    ParseDecimalOfDecimal(n);
  }
}
