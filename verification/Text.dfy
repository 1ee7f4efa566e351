/**
 * String operations the client and the two Lambda handlers rely on, written
 * once and specified independently of how they are computed.
 */
module Text {

  predicate StartsWith(s: string, prefix: string) {
    |prefix| <= |s| && s[..|prefix|] == prefix
  }

  predicate EndsWith(s: string, suffix: string) {
    |suffix| <= |s| && s[|s| - |suffix|..] == suffix
  }

  /** ASCII lower-casing of one character; every other character is kept. */
  function LowerChar(c: char): (r: char)
    ensures 'A' <= c <= 'Z' ==> 'a' <= r <= 'z' && r as int - c as int == 32
    ensures !('A' <= c <= 'Z') ==> r == c
  {
    if 'A' <= c <= 'Z' then (c as int + 32) as char else c
  }

  /** `s.toLowerCase()`, restricted to the ASCII upper-case letters. */
  function Lower(s: string): (r: string)
    ensures |r| == |s|
    ensures forall i :: 0 <= i < |s| ==> r[i] == LowerChar(s[i])
  {
    seq(|s|, i requires 0 <= i < |s| => LowerChar(s[i]))
  }

  /**
   * Position of the last occurrence of `c` in `s`, or -1 when there is none:
   * the search behind Python's `rsplit(c, 1)` and JavaScript's `split(c).pop()`.
   */
  function LastIndex(s: string, c: char): (r: int)
    ensures -1 <= r < |s|
    ensures r == -1 <==> c !in s
    ensures r >= 0 ==> s[r] == c && c !in s[r + 1..]
  {
    if |s| == 0 then -1
    else if s[|s| - 1] == c then |s| - 1
    else
      assert s == s[..|s| - 1] + [s[|s| - 1]];
      LastIndex(s[..|s| - 1], c)
  }

  /** Python's `s.rsplit(c, 1)[0]`: everything before the last `c`, or all of `s`. */
  function BeforeLast(s: string, c: char): (r: string)
    ensures c !in s ==> r == s
    ensures c in s ==> |r| < |s| && s[..|r|] == r && s[|r|] == c && c !in s[|r| + 1..]
  {
    var i := LastIndex(s, c);
    if i == -1 then s else s[..i]
  }

  /**
   * JavaScript's `s.split(c).pop()` and Python's `s.split(c)[-1]`: everything
   * after the last `c`, or all of `s`.
   */
  function AfterLast(s: string, c: char): (r: string)
    ensures c !in r
    ensures c !in s ==> r == s
    ensures c in s ==> |r| < |s| && s[|s| - |r|..] == r && s[|s| - |r| - 1] == c
  {
    var i := LastIndex(s, c);
    if i == -1 then s else s[i + 1..]
  }

  /** Whether `pat` occurs in `s` starting at position `i`. */
  predicate OccursAt(s: string, pat: string, i: nat) {
    i + |pat| <= |s| && s[i..i + |pat|] == pat
  }

  /**
   * Python's `s.replace(pat, '')`: every occurrence of `pat`, found left to
   * right without overlap, is removed.
   */
  function RemoveAll(s: string, pat: string): (r: string)
    requires |pat| > 0
    ensures |r| <= |s|
    ensures forall c :: c in r ==> c in s
    ensures (forall i: nat :: i < |s| ==> !OccursAt(s, pat, i)) ==> r == s
    decreases |s|
  {
    if |s| == 0 then s
    else if StartsWith(s, pat) then
      assert OccursAt(s, pat, 0);
      RemoveAll(s[|pat|..], pat)
    else
      var rest := RemoveAll(s[1..], pat);
      assert forall i: nat :: i < |s| - 1 && OccursAt(s[1..], pat, i) ==> OccursAt(s, pat, i + 1) by {
        forall i: nat | i < |s| - 1 && OccursAt(s[1..], pat, i)
          ensures OccursAt(s, pat, i + 1)
        {
          assert s[1..][i..i + |pat|] == s[i + 1..i + 1 + |pat|];
        }
      }
      [s[0]] + rest
  }

  /** A pattern holding a character the string lacks occurs nowhere, so nothing is removed. */
  lemma {:induction false} RemoveAllAbsent(s: string, pat: string, c: char)
    requires |pat| > 0 && c in pat && c !in s
    ensures RemoveAll(s, pat) == s
    decreases |s|
  {
  }

  /** One decimal digit. */
  function DigitChar(d: nat): (r: char)
    requires d < 10
    ensures '0' <= r <= '9' && r as int - '0' as int == d
  {
    ('0' as int + d) as char
  }

  predicate IsDigit(c: char) {
    '0' <= c <= '9'
  }

  /** The decimal rendering of a non-negative integer, as `${n}` in JavaScript. */
  function Decimal(n: nat): (r: string)
    ensures |r| > 0
    ensures forall i :: 0 <= i < |r| ==> IsDigit(r[i])
    decreases n
  {
    if n < 10 then [DigitChar(n)] else Decimal(n / 10) + [DigitChar(n % 10)]
  }

  /** Reads a string of decimal digits back as a number; the partner of `Decimal`. */
  function ParseDecimal(s: string): nat
    requires forall i :: 0 <= i < |s| ==> IsDigit(s[i])
  {
    if |s| == 0 then 0
    else ParseDecimal(s[..|s| - 1]) * 10 + DigitValue(s[|s| - 1])
  }

  function DigitValue(c: char): (r: nat)
    requires IsDigit(c)
    ensures r < 10 && DigitChar(r) == c
  {
    c as int - '0' as int
  }

  lemma {:induction false} ParseDecimalOfDecimal(n: nat)
    ensures ParseDecimal(Decimal(n)) == n
    decreases n
  {
    if n >= 10 {
      var d := Decimal(n);
      assert d[..|d| - 1] == Decimal(n / 10);
      ParseDecimalOfDecimal(n / 10);
    }
  }

  /** Different numbers have different decimal renderings. */
  lemma DecimalInjective(m: nat, n: nat)
    ensures Decimal(m) == Decimal(n) ==> m == n
  {
    ParseDecimalOfDecimal(m);
    ParseDecimalOfDecimal(n);
  }

  /** Removing everything up to the last `c` is unaffected by a prefix before a `c`. */
  lemma AfterLastOfJoin(p: string, c: char, t: string)
    requires c !in t
    ensures AfterLast(p + [c] + t, c) == t
  {
    var s := p + [c] + t;
    var i := LastIndex(s, c);
    assert s[|p|] == c;
    assert s[|p| + 1..] == t;
  }

  /** Text after the last `c` keeps any suffix free of `c`. */
  lemma AfterLastKeepsSuffix(p: string, c: char, t: string)
    requires c !in t
    ensures EndsWith(AfterLast(p + t, c), t)
  {
  }

  /** Cutting at the last `c` of `p + t` when `p` holds no `c` cuts inside `t`. */
  lemma BeforeLastOfJoin(p: string, c: char, t: string)
    requires c !in p
    ensures BeforeLast(p + t, c) == p + BeforeLast(t, c)
  {
    var s := p + t;
    if c in t {
      var j := LastIndex(t, c);
      assert s[|p| + j] == c;
      var i := LastIndex(s, c);
      assert s[..i] == p + t[..j];
    } else {
      assert c !in s by {
        forall k | 0 <= k < |s| ensures s[k] != c {
          if k < |p| { assert s[k] == p[k]; } else { assert s[k] == t[k - |p|]; }
        }
      }
    }
  }

  /** Cutting at the last `c` of `p + [c] + t` when `t` holds no `c` gives `p`. */
  lemma BeforeLastOfJoinAt(p: string, c: char, t: string)
    requires c !in t
    ensures BeforeLast(p + [c] + t, c) == p
  {
    var s := p + [c] + t;
    assert s[|p|] == c;
  }
}
