/** String helpers with the semantics of the JavaScript built-ins the source
    uses: `String.prototype.includes`, `trim`, `split` with a one-character
    separator, `Array.prototype.join`, `toLowerCase` and decimal rendering. */
module Text {

  /** `needle` occurs in `s` starting at index `i`. */
  ghost predicate OccursAt(s: string, needle: string, i: int)
  {
    0 <= i && i + |needle| <= |s| && s[i..i + |needle|] == needle
  }

  /** `s.includes(needle)`; the empty needle occurs everywhere. */
  function Contains(s: string, needle: string): (b: bool)
    ensures b <==> exists i :: OccursAt(s, needle, i)
    decreases |s|
  {
    if |needle| > |s| then false
    else if s[..|needle|] == needle then
      assert OccursAt(s, needle, 0);
      true
    else
      var b := Contains(s[1..], needle);
      ContainsShift(s, needle);
      b
  }

  lemma ContainsShift(s: string, needle: string)
    requires |s| >= 1 && |needle| <= |s| && s[..|needle|] != needle
    ensures (exists i :: OccursAt(s, needle, i)) <==> (exists i :: OccursAt(s[1..], needle, i))
  {
    if i :| OccursAt(s, needle, i) {
      assert i != 0;
      assert s[1..][i - 1..i - 1 + |needle|] == s[i..i + |needle|];
      assert OccursAt(s[1..], needle, i - 1);
    }
    if i :| OccursAt(s[1..], needle, i) {
      assert s[1..][i..i + |needle|] == s[i + 1..i + 1 + |needle|];
      assert OccursAt(s, needle, i + 1);
    }
  }

  /** A needle with a character the text lacks does not occur in it. */
  lemma AbsentCharNotContained(s: string, needle: string, j: nat)
    requires j < |needle| && needle[j] !in s
    ensures !Contains(s, needle)
  {
    forall i | 0 <= i ensures !OccursAt(s, needle, i) {
      if i + |needle| <= |s| {
        assert s[i..i + |needle|][j] == s[i + j];
      }
    }
  }

  /** An occurrence inside `x` is an occurrence inside any string built around `x`. */
  lemma {:induction false} ContainsWithin(a: string, x: string, b: string, needle: string)
    requires Contains(x, needle)
    ensures Contains(a + x + b, needle)
  {
    var i :| OccursAt(x, needle, i);
    var s := a + x + b;
    assert s[|a| + i..|a| + i + |needle|] == x[i..i + |needle|];
    assert OccursAt(s, needle, |a| + i);
  }

  lemma {:induction false} ContainsSelf(s: string)
    ensures Contains(s, s)
  {
    assert OccursAt(s, s, 0);
  }

  // ---------------------------------------------------------------- whitespace

  /** ECMAScript WhiteSpace and LineTerminator code points, the set removed by
      `String.prototype.trim` and skipped by `parseInt`. */
  predicate IsJsSpace(c: char)
  {
    || c == '\t' || c == '\n' || c == '\U{000B}' || c == '\U{000C}' || c == '\r'
    || c == ' ' || c == '\U{00A0}' || c == '\U{1680}'
    || ('\U{2000}' <= c <= '\U{200A}')
    || c == '\U{2028}' || c == '\U{2029}' || c == '\U{202F}' || c == '\U{205F}'
    || c == '\U{3000}' || c == '\U{FEFF}'
  }

  function TrimStart(s: string): (r: string)
    ensures |r| <= |s| && r == s[|s| - |r|..]
    ensures forall i :: 0 <= i < |s| - |r| ==> IsJsSpace(s[i])
    ensures |r| > 0 ==> !IsJsSpace(r[0])
  {
    if |s| > 0 && IsJsSpace(s[0]) then TrimStart(s[1..]) else s
  }

  lemma TrimStartNoop(s: string)
    requires |s| > 0 ==> !IsJsSpace(s[0])
    ensures TrimStart(s) == s
  {
  }

  function TrimEnd(s: string): (r: string)
    ensures |r| <= |s| && r == s[..|r|]
    ensures forall i :: |r| <= i < |s| ==> IsJsSpace(s[i])
    ensures |r| > 0 ==> !IsJsSpace(r[|r| - 1])
  {
    if |s| > 0 && IsJsSpace(s[|s| - 1]) then TrimEnd(s[..|s| - 1]) else s
  }

  /** `s.trim()`. */
  function Trim(s: string): string
  {
    TrimEnd(TrimStart(s))
  }

  /** `r` is the infix of `s` at `lo`, and everything around it is whitespace. */
  ghost predicate FramedBySpace(s: string, r: string, lo: int)
  {
    && 0 <= lo <= |s| - |r| && r == s[lo..lo + |r|]
    && (forall i :: 0 <= i < lo ==> IsJsSpace(s[i]))
    && (forall i :: lo + |r| <= i < |s| ==> IsJsSpace(s[i]))
  }

  /** Trimming removes exactly the whitespace at both ends: the result is an
      infix of `s` framed by whitespace only, and it neither starts nor ends
      with whitespace. */
  lemma {:induction false} TrimSpec(s: string)
    ensures exists lo :: FramedBySpace(s, Trim(s), lo)
    ensures var r := Trim(s); |r| > 0 ==> !IsJsSpace(r[0]) && !IsJsSpace(r[|r| - 1])
  {
    var t := TrimStart(s);
    var r := TrimEnd(t);
    var lo := |s| - |t|;
    assert t == s[lo..];
    assert r == t[..|r|];
    assert r == s[lo..lo + |r|];
    forall i | 0 <= i < lo
      ensures IsJsSpace(s[i])
    {
    }
    forall i | lo + |r| <= i < |s|
      ensures IsJsSpace(s[i])
    {
      assert s[i] == t[i - lo];
    }
    assert Trim(s) == r;
    assert FramedBySpace(s, r, lo);
    if |r| > 0 {
      assert r[0] == t[0];
    }
  }

  /** A string that neither starts nor ends with whitespace is its own trim. */
  lemma {:induction false} TrimNoop(s: string)
    requires |s| > 0 ==> !IsJsSpace(s[0]) && !IsJsSpace(s[|s| - 1])
    ensures Trim(s) == s
  {
  }

  // ---------------------------------------------------------------- split/join

  /** Index of the first `c` in `s`, or `|s|` when there is none. */
  function FirstIndex(s: string, c: char): (i: nat)
    ensures i <= |s|
    ensures i < |s| ==> s[i] == c
    ensures forall j :: 0 <= j < i ==> s[j] != c
  {
    if |s| == 0 then 0
    else if s[0] == c then 0
    else 1 + FirstIndex(s[1..], c)
  }

  /** `s.split(c)` for a one-character separator. */
  function Split(s: string, c: char): (pieces: seq<string>)
    ensures |pieces| >= 1
    ensures forall k :: 0 <= k < |pieces| ==> c !in pieces[k]
    decreases |s|
  {
    var i := FirstIndex(s, c);
    if i == |s| then [s] else [s[..i]] + Split(s[i + 1..], c)
  }

  /** `pieces.join(sep)`. */
  function Join(pieces: seq<string>, sep: string): string
  {
    if |pieces| == 0 then ""
    else if |pieces| == 1 then pieces[0]
    else pieces[0] + sep + Join(pieces[1..], sep)
  }

  /** Splitting and re-joining with the same separator gives back the text. */
  lemma {:induction false} SplitJoin(s: string, c: char)
    ensures Join(Split(s, c), [c]) == s
    decreases |s|
  {
    var i := FirstIndex(s, c);
    var pieces := Split(s, c);
    if i < |s| {
      var rest := s[i + 1..];
      SplitJoin(rest, c);
      var tail := Split(rest, c);
      assert pieces == [s[..i]] + tail;
      assert |pieces| >= 2 && pieces[0] == s[..i] && pieces[1..] == tail;
      assert Join(pieces, [c]) == s[..i] + [c] + Join(tail, [c]);
      assert s == s[..i] + [c] + rest;
    } else {
      assert pieces == [s];
    }
  }

  /** Joining two pieces puts the separator between them. */
  lemma JoinTwo(a: string, b: string, sep: string)
    ensures Join([a, b], sep) == a + sep + b
  {
    assert [a, b][1..] == [b];
  }

  /** Every element of a join occurs in it. */
  lemma {:induction false} JoinContainsPiece(pieces: seq<string>, sep: string, k: nat)
    requires k < |pieces|
    ensures Contains(Join(pieces, sep), pieces[k])
  {
    if |pieces| == 1 {
      ContainsSelf(pieces[0]);
      assert Contains("" + pieces[0] + "", pieces[0]) by {
        ContainsWithin("", pieces[0], "", pieces[0]);
      }
      assert "" + pieces[0] + "" == pieces[0];
    } else if k == 0 {
      ContainsSelf(pieces[0]);
      ContainsWithin("", pieces[0], sep + Join(pieces[1..], sep), pieces[0]);
      assert "" + pieces[0] + (sep + Join(pieces[1..], sep)) == Join(pieces, sep);
    } else {
      JoinContainsPiece(pieces[1..], sep, k - 1);
      ContainsWithin(pieces[0] + sep, Join(pieces[1..], sep), "", pieces[k]);
      assert pieces[0] + sep + Join(pieces[1..], sep) + "" == Join(pieces, sep);
    }
  }

  // ---------------------------------------------------------------- case

  /** `toLowerCase` restricted to ASCII letters. */
  function ToLowerAscii(s: string): (r: string)
    ensures |r| == |s|
    ensures forall i :: 0 <= i < |s| ==>
      r[i] == (if 'A' <= s[i] <= 'Z' then (s[i] as int + 32) as char else s[i])
  {
    if |s| == 0 then ""
    else [if 'A' <= s[0] <= 'Z' then (s[0] as int + 32) as char else s[0]] + ToLowerAscii(s[1..])
  }

  // ---------------------------------------------------------------- numbers

  predicate IsDigit(c: char) { '0' <= c <= '9' }

  function DigitChar(d: nat): char
    requires d < 10
  {
    ('0' as int + d) as char
  }

  /** The decimal text of `n`, without leading zeros. */
  function NatToString(n: nat): (s: string)
    ensures |s| >= 1
    ensures forall i :: 0 <= i < |s| ==> IsDigit(s[i])
    ensures |s| > 1 ==> s[0] != '0'
  {
    if n < 10 then [DigitChar(n)] else NatToString(n / 10) + [DigitChar(n % 10)]
  }

  /** `String(n)` for an integer: the decimal text with a leading `-` when negative. */
  function IntToString(n: int): string
  {
    if n < 0 then "-" + NatToString(-n) else NatToString(n)
  }

  /** The value of a run of decimal digits. */
  function DigitsValue(s: string): nat
    requires forall i :: 0 <= i < |s| ==> IsDigit(s[i])
  {
    if |s| == 0 then 0
    else
      assert IsDigit(s[|s| - 1]);
      10 * DigitsValue(s[..|s| - 1]) + (s[|s| - 1] as int - '0' as int)
  }

  /** Decimal rendering is inverted by reading the digits back. */
  lemma {:induction false} DigitsValueOfNatToString(n: nat)
    ensures DigitsValue(NatToString(n)) == n
  {
    if n >= 10 {
      DigitsValueOfNatToString(n / 10);
      var s := NatToString(n);
      assert s[..|s| - 1] == NatToString(n / 10);
    }
  }
}
