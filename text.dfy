/** Character and string helpers that stand for the Python string operations
    the pipeline uses: `str.strip`, `str.lower`, the `in` substring test,
    `str.split(sep)[0]`, decimal formatting of counts and `strftime("%Y%m%d")`. */
module Text {

  /** Python's `str.isspace`: the characters `str.strip()` removes. */
  predicate IsSpace(c: char)
  {
    c == ' ' || ('\t' <= c <= '\r') || ('\U{1c}' <= c <= '\U{1f}')
    || c == '\U{85}' || c == '\U{a0}' || c == '\U{1680}'
    || ('\U{2000}' <= c <= '\U{200a}') || c == '\U{2028}' || c == '\U{2029}'
    || c == '\U{202f}' || c == '\U{205f}' || c == '\U{3000}'
  }

  /** `s.lstrip()` */
  function StripLeft(s: string): (r: string)
    ensures |r| <= |s| && r == s[|s| - |r|..]
    ensures r == [] || !IsSpace(r[0])
    ensures forall i :: 0 <= i < |s| - |r| ==> IsSpace(s[i])
  {
    if s != [] && IsSpace(s[0]) then StripLeft(s[1..]) else s
  }

  /** `s.rstrip()` */
  function StripRight(s: string): (r: string)
    ensures |r| <= |s| && r == s[..|r|]
    ensures r == [] || !IsSpace(r[|r| - 1])
    ensures forall i :: |r| <= i < |s| ==> IsSpace(s[i])
  {
    if s != [] && IsSpace(s[|s| - 1]) then StripRight(s[..|s| - 1]) else s
  }

  /** `s.strip()`: the longest infix of `s` that neither starts nor ends with whitespace. */
  function Strip(s: string): (r: string)
    ensures r == [] || (!IsSpace(r[0]) && !IsSpace(r[|r| - 1]))
  {
    StripRight(StripLeft(s))
  }

  /** `r` is `s` with the whitespace `s[..a]` and `s[b..]` cut off its two ends. */
  predicate TrimmedAt(s: string, r: string, a: nat, b: nat)
  {
    a <= b <= |s| && r == s[a..b] && IsBlank(s[..a]) && IsBlank(s[b..])
  }

  /** `strip` removes whitespace from the two ends and nothing else: the result
      is an infix of the line with only whitespace before and after it. */
  lemma StripTrims(s: string)
    ensures exists a, b :: TrimmedAt(s, Strip(s), a, b)
  {
    var l := StripLeft(s);
    var r := StripRight(l);
    Trimmed(s, l, r);
    assert Strip(s) == r;
    assert TrimmedAt(s, Strip(s), |s| - |l|, |s| - |l| + |r|);
  }

  lemma Trimmed(s: string, l: string, r: string)
    requires |l| <= |s| && l == s[|s| - |l|..] && |r| <= |l| && r == l[..|r|]
    requires forall i :: 0 <= i < |s| - |l| ==> IsSpace(s[i])
    requires forall i :: |r| <= i < |l| ==> IsSpace(l[i])
    ensures TrimmedAt(s, r, |s| - |l|, |s| - |l| + |r|)
  {
    var a, b := |s| - |l|, |s| - |l| + |r|;
    assert r == s[a..b];
    assert s[b..] == l[|r|..];
    forall i | 0 <= i < |s| - b
      ensures IsSpace(s[b..][i])
    {
      assert s[b..][i] == l[|r| + i];
    }
  }

  /** The stripped line is a piece of the line. */
  lemma StripContained(s: string)
    ensures Contains(s, Strip(s))
  {
    var l := StripLeft(s);
    assert OccursAt(s, Strip(s), |s| - |l|);
  }

  /** A line is blank when it is all whitespace: exactly when `line.strip()`
      is empty (`BlankIffAllSpace`). */
  predicate IsBlank(s: string)
  {
    forall i :: 0 <= i < |s| ==> IsSpace(s[i])
  }

  lemma {:induction false} BlankIffAllSpace(s: string)
    ensures Strip(s) == [] <==> IsBlank(s)
  {
    var l := StripLeft(s);
    assert l != [] ==> l[0] == s[|s| - |l|];
    if exists j :: 0 <= j < |s| && !IsSpace(s[j]) {
      var j :| 0 <= j < |s| && !IsSpace(s[j]);
      assert j >= |s| - |l|;
      assert !IsSpace(l[j - (|s| - |l|)]);
    }
  }

  /** Python's `w in text` for two strings. */
  predicate Contains(text: string, w: string)
  {
    exists i | 0 <= i <= |text| :: OccursAt(text, w, i)
  }

  /** `w` occurs in `text` starting at index `i`. */
  predicate OccursAt(text: string, w: string, i: nat)
  {
    i + |w| <= |text| && text[i..i + |w|] == w
  }

  lemma ContainsAt(text: string, w: string, i: nat)
    requires OccursAt(text, w, i)
    ensures Contains(text, w)
  {
  }

  /** Every character of a contained string occurs in the text. */
  lemma {:induction false} ContainedCharsOccur(text: string, w: string, j: nat)
    requires Contains(text, w) && j < |w|
    ensures w[j] in text
  {
    var i :| 0 <= i <= |text| && OccursAt(text, w, i);
    assert text[i..i + |w|][j] == text[i + j];
  }

  /** A string contains every prefix of its substrings: "urgente" in t implies "urge" in t. */
  lemma {:induction false} ContainsPrefix(text: string, w: string, p: string)
    requires Contains(text, w) && p <= w
    ensures Contains(text, p)
  {
    var i :| 0 <= i <= |text| && OccursAt(text, w, i);
    assert text[i..i + |p|] == w[..|p|];
    ContainsAt(text, p, i);
  }

  /** `str.lower` on one character, for ASCII and the Latin-1 letters. */
  function LowerChar(c: char): (r: char)
    ensures !('A' <= r <= 'Z') && !('À' <= r <= 'Þ' && r != '×')
    ensures !('A' <= c <= 'Z') && !('À' <= c <= 'Þ' && c != '×') ==> r == c
  {
    if 'A' <= c <= 'Z' then (c as int + 32) as char
    else if 'À' <= c <= 'Þ' && c != '×' then (c as int + 32) as char
    else c
  }

  /** `s.lower()`, character by character. */
  function Lower(s: string): (r: string)
    ensures |r| == |s|
    ensures forall i :: 0 <= i < |s| ==> r[i] == LowerChar(s[i])
  {
    seq(|s|, i requires 0 <= i < |s| => LowerChar(s[i]))
  }

  /** Lower-cased text holds no upper-case letter (ASCII or Latin-1), and
      lower-casing it again changes nothing. */
  lemma LowerIsLower(s: string)
    ensures forall i :: 0 <= i < |s| ==> !('A' <= Lower(s)[i] <= 'Z') && !('À' <= Lower(s)[i] <= 'Þ' && Lower(s)[i] != '×')
    ensures Lower(Lower(s)) == Lower(s)
  {
  }

  /** A pattern holding an upper-case ASCII letter never occurs in lower-cased text. */
  lemma UpperNeverInLower(s: string, w: string, j: nat)
    requires j < |w| && 'A' <= w[j] <= 'Z'
    ensures !Contains(Lower(s), w)
  {
    if Contains(Lower(s), w) {
      ContainedCharsOccur(Lower(s), w, j);
    }
  }

  /** `s.split(sep)[0]`: the text before the first occurrence of `sep` (all of `s` if none). */
  function SplitHead(s: string, sep: string): (r: string)
    requires sep != []
    ensures r <= s
    decreases |s|
  {
    if |s| < |sep| then s
    else if s[..|sep|] == sep then []
    else [s[0]] + SplitHead(s[1..], sep)
  }

  /** `(u + sep + rest).split(sep)[0] == u` whenever no occurrence of `sep` starts inside `u`. */
  lemma {:induction false} SplitHeadOfJoin(u: string, sep: string, rest: string)
    requires sep != [] && !Contains(u + sep[..|sep| - 1], sep)
    ensures SplitHead(u + sep + rest, sep) == u
    decreases |u|
  {
    var s := u + sep + rest;
    if u == [] {
      assert s[..|sep|] == sep;
    } else {
      var t := u + sep[..|sep| - 1];
      assert !OccursAt(t, sep, 0);
      assert s[..|sep|] == t[..|sep|];
      assert !Contains(u[1..] + sep[..|sep| - 1], sep) by {
        var t' := u[1..] + sep[..|sep| - 1];
        if Contains(t', sep) {
          var i :| 0 <= i <= |t'| && OccursAt(t', sep, i);
          assert t' == t[1..];
          var a, b := t[i + 1..i + 1 + |sep|], t'[i..i + |sep|];
          forall j | 0 <= j < |sep| ensures a[j] == b[j] {
            assert t'[i + j] == t[i + 1 + j];
          }
          assert a == b;
          assert OccursAt(t, sep, i + 1);
        }
      }
      assert s[1..] == u[1..] + sep + rest;
      SplitHeadOfJoin(u[1..], sep, rest);
    }
  }

  /** Decimal digits of a natural number, as Python's `str(n)`. */
  function NatToString(n: nat): (r: string)
    ensures |r| >= 1
    ensures forall i :: 0 <= i < |r| ==> '0' <= r[i] <= '9'
    decreases n
  {
    if n < 10 then [Digit(n)] else NatToString(n / 10) + [Digit(n % 10)]
  }

  function Digit(d: nat): (c: char)
    requires d < 10
    ensures '0' <= c <= '9' && c as int - '0' as int == d
  {
    ('0' as int + d) as char
  }

  /** Reads back a string of decimal digits. */
  function DigitsValue(s: string): nat
  {
    if s == [] then 0
    else DigitsValue(s[..|s| - 1]) * 10 + (if '0' <= s[|s| - 1] <= '9' then s[|s| - 1] as int - '0' as int else 0)
  }

  /** `n` written with exactly `width` digits, zero-padded on the left (`%02d`, `%04d`). */
  function Padded(n: nat, width: nat): (r: string)
    ensures |r| == width
    ensures forall i :: 0 <= i < |r| ==> '0' <= r[i] <= '9'
  {
    if width == 0 then [] else Padded(n / 10, width - 1) + [Digit(n % 10)]
  }

  function Pow10(k: nat): (p: nat)
    ensures p >= 1
  {
    if k == 0 then 1 else 10 * Pow10(k - 1)
  }

  lemma {:induction false} PaddedRoundTrip(n: nat, width: nat)
    requires n < Pow10(width)
    ensures DigitsValue(Padded(n, width)) == n
  {
    if width > 0 {
      var r := Padded(n, width);
      assert r[..|r| - 1] == Padded(n / 10, width - 1);
      PaddedRoundTrip(n / 10, width - 1);
    }
  }

  /** `strftime("%Y%m%d")` for a calendar date with a four-digit year. */
  function DateStamp(year: nat, month: nat, day: nat): (r: string)
    requires 1000 <= year <= 9999 && 1 <= month <= 12 && 1 <= day <= 31
    ensures |r| == 8
    ensures forall i :: 0 <= i < 8 ==> '0' <= r[i] <= '9'
  {
    Padded(year, 4) + Padded(month, 2) + Padded(day, 2)
  }

  /** The stamp reads back as the date it was made from, so distinct days get distinct stamps. */
  lemma DateStampRoundTrip(year: nat, month: nat, day: nat)
    requires 1000 <= year <= 9999 && 1 <= month <= 12 && 1 <= day <= 31
    ensures DigitsValue(DateStamp(year, month, day)[..4]) == year
    ensures DigitsValue(DateStamp(year, month, day)[4..6]) == month
    ensures DigitsValue(DateStamp(year, month, day)[6..]) == day
  {
    var r := DateStamp(year, month, day);
    assert r[..4] == Padded(year, 4);
    assert r[4..6] == Padded(month, 2);
    assert r[6..] == Padded(day, 2);
    assert Pow10(4) == 10000 && Pow10(2) == 100;
    PaddedRoundTrip(year, 4);
    PaddedRoundTrip(month, 2);
    PaddedRoundTrip(day, 2);
  }
}
