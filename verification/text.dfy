/** String utilities the core relies on: ECMAScript `trim`, decimal digits,
    `Array.prototype.join`, and the splitting and prefix/suffix stripping used
    to read rendered text back. */
module Text {
  import opened Wrappers

  /* ---------------------------------------------------------------------- */
  /*  Whitespace and trim                                                    */
  /* ---------------------------------------------------------------------- */

  /** The characters `String.prototype.trim` removes: the ECMAScript
      WhiteSpace and LineTerminator code points. */
  const WhitespaceChars: set<char> := {
    '\t', '\n', '\U{000B}', '\U{000C}', '\r', ' ', '\U{00A0}', '\U{1680}',
    '\U{2000}', '\U{2001}', '\U{2002}', '\U{2003}', '\U{2004}', '\U{2005}',
    '\U{2006}', '\U{2007}', '\U{2008}', '\U{2009}', '\U{200A}', '\U{2028}',
    '\U{2029}', '\U{202F}', '\U{205F}', '\U{3000}', '\U{FEFF}'
  }

  predicate IsWhitespace(c: char) {
    c in WhitespaceChars
  }

  /** Every character of `s` at a position in `[lo, hi)` is whitespace. */
  predicate WhitespaceBetween(s: string, lo: nat, hi: nat)
    requires lo <= hi <= |s|
  {
    forall k :: lo <= k < hi ==> IsWhitespace(s[k])
  }

  predicate AllWhitespace(s: string) {
    WhitespaceBetween(s, 0, |s|)
  }

  /** `r` is `s[i..j]`, with only whitespace before `i` and from `j` on, and
      no whitespace at either end of `r`. */
  ghost predicate IsTrimAt(r: string, s: string, i: nat, j: nat) {
    && i <= j <= |s| && r == s[i..j]
    && WhitespaceBetween(s, 0, i) && WhitespaceBetween(s, j, |s|)
    && (i < j ==> !IsWhitespace(s[i]) && !IsWhitespace(s[j - 1]))
  }

  /** `r` is what remains of `s` once every leading and trailing whitespace
      character is removed. */
  ghost predicate IsTrimOf(r: string, s: string) {
    exists i: nat, j: nat :: IsTrimAt(r, s, i, j)
  }

  /** The first position at or after `i` that does not hold whitespace. */
  function LeadEnd(s: string, i: nat): (r: nat)
    requires i <= |s|
    ensures i <= r <= |s| && WhitespaceBetween(s, i, r)
    ensures r < |s| ==> !IsWhitespace(s[r])
    decreases |s| - i
  {
    if i < |s| && IsWhitespace(s[i]) then LeadEnd(s, i + 1) else i
  }

  /** The least position in `[lo, j]` from which only whitespace runs up to `j`. */
  function TrailStart(s: string, lo: nat, j: nat): (r: nat)
    requires lo <= j <= |s|
    ensures lo <= r <= j && WhitespaceBetween(s, r, j)
    ensures lo < r ==> !IsWhitespace(s[r - 1])
    decreases j
  {
    if lo < j && IsWhitespace(s[j - 1]) then TrailStart(s, lo, j - 1) else j
  }

  /** `String.prototype.trim`. */
  function Trim(s: string): (r: string)
    ensures IsTrimOf(r, s)
  {
    var i := LeadEnd(s, 0);
    var j := TrailStart(s, i, |s|);
    assert IsTrimAt(s[i..j], s, i, j);
    s[i..j]
  }

  /** A string trims to the empty string exactly when it is all whitespace. */
  lemma TrimEmptyIff(s: string)
    ensures Trim(s) == [] <==> AllWhitespace(s)
  {
    var r := Trim(s);
    var i: nat, j: nat :| IsTrimAt(r, s, i, j);
    if r == [] {
      assert i == j;
      forall k | 0 <= k < |s| ensures IsWhitespace(s[k]) {
        if k < i { assert WhitespaceBetween(s, 0, i); } else { assert WhitespaceBetween(s, j, |s|); }
      }
    } else {
      assert i < j && !IsWhitespace(s[i]);
    }
  }

  /** A string with no whitespace at either end is its own trim. */
  lemma TrimKeeps(s: string)
    requires s == [] || (!IsWhitespace(s[0]) && !IsWhitespace(s[|s| - 1]))
    ensures Trim(s) == s
  {
    assert LeadEnd(s, 0) == 0;
    assert TrailStart(s, 0, |s|) == |s|;
    assert s[0..|s|] == s;
  }

  /* ---------------------------------------------------------------------- */
  /*  Decimal digits                                                         */
  /* ---------------------------------------------------------------------- */

  predicate IsDigit(c: char) {
    '0' <= c <= '9'
  }

  predicate AllDigits(s: string) {
    forall i :: 0 <= i < |s| ==> IsDigit(s[i])
  }

  function DigitValue(c: char): nat
    requires IsDigit(c)
  {
    c as int - '0' as int
  }

  function DigitChar(d: nat): (c: char)
    requires d < 10
    ensures IsDigit(c) && DigitValue(c) == d
  {
    ('0' as int + d) as char
  }

  /** The number a run of decimal digits denotes, most significant first. */
  function DigitsValue(s: string): nat
    requires AllDigits(s)
    decreases |s|
  {
    if |s| == 0 then 0 else DigitsValue(s[..|s| - 1]) * 10 + DigitValue(s[|s| - 1])
  }

  /** `n.toString()` for a non-negative integer: the canonical decimal
      numeral, with no leading zero unless the number is zero. */
  function NatToString(n: nat): (r: string)
    ensures |r| > 0 && AllDigits(r) && DigitsValue(r) == n
    ensures r[0] == '0' ==> r == "0"
    decreases n
  {
    if n < 10 then [DigitChar(n)]
    else
      var h := NatToString(n / 10);
      var r := h + [DigitChar(n % 10)];
      assert r[..|r| - 1] == h;
      r
  }

  /** Reads a non-empty run of decimal digits. */
  function ParseNat(s: string): (r: Option<nat>)
    ensures r.Some? <==> |s| > 0 && AllDigits(s)
  {
    if |s| > 0 && AllDigits(s) then Some(DigitsValue(s)) else None
  }

  lemma ParseNatToString(n: nat)
    ensures ParseNat(NatToString(n)) == Some(n)
  {
  }

  /* ---------------------------------------------------------------------- */
  /*  Characters absent from a string                                        */
  /* ---------------------------------------------------------------------- */

  predicate NoChar(s: string, c: char) {
    forall i :: 0 <= i < |s| ==> s[i] != c
  }

  predicate NoCharIn(parts: seq<string>, c: char) {
    forall k :: 0 <= k < |parts| ==> NoChar(parts[k], c)
  }

  lemma NoCharConcat(a: string, b: string, c: char)
    ensures NoChar(a + b, c) <==> NoChar(a, c) && NoChar(b, c)
  {
    if NoChar(a + b, c) {
      forall i | 0 <= i < |a| ensures a[i] != c { assert a[i] == (a + b)[i]; }
      forall i | 0 <= i < |b| ensures b[i] != c { assert b[i] == (a + b)[|a| + i]; }
    }
  }

  /* ---------------------------------------------------------------------- */
  /*  Join and split                                                         */
  /* ---------------------------------------------------------------------- */

  /** `Array.prototype.join(sep)` over strings. */
  function Join(parts: seq<string>, sep: string): string
    decreases |parts|
  {
    if |parts| == 0 then ""
    else if |parts| == 1 then parts[0]
    else parts[0] + sep + Join(parts[1..], sep)
  }

  /** A join opens with the first part and closes with the last one. */
  lemma {:induction false} JoinEnds(parts: seq<string>, sep: string)
    requires |parts| > 0
    ensures parts[0] <= Join(parts, sep)
    ensures var r, last := Join(parts, sep), parts[|parts| - 1];
      |last| <= |r| && r[|r| - |last|..] == last
    decreases |parts|
  {
    if |parts| > 1 {
      var tail := Join(parts[1..], sep);
      var last := parts[|parts| - 1];
      var r := parts[0] + sep + tail;
      JoinEnds(parts[1..], sep);
      assert last == parts[1..][|parts| - 2];
      assert r[|r| - |last|..] == tail[|tail| - |last|..];
    }
  }

  /** A join of six parts, spelled out. */
  lemma JoinSix(a: string, b: string, c: string, d: string, e: string, f: string, sep: string)
    ensures Join([a, b, c, d, e, f], sep) == a + sep + b + sep + c + sep + d + sep + e + sep + f
  {
    var p := [a, b, c, d, e, f];
    assert p[5..] == [f];
    assert p[4..][1..] == p[5..];
    assert p[3..][1..] == p[4..];
    assert p[2..][1..] == p[3..];
    assert p[1..][1..] == p[2..];
    assert Join(p[5..], sep) == f;
    assert Join(p[4..], sep) == e + sep + f;
    assert Join(p[3..], sep) == d + sep + (e + sep + f);
    assert Join(p[2..], sep) == c + sep + (d + sep + (e + sep + f));
    assert Join(p[1..], sep) == b + sep + (c + sep + (d + sep + (e + sep + f)));
    assert Join(p, sep) == a + sep + (b + sep + (c + sep + (d + sep + (e + sep + f))));
  }

  /** A joined string holds a character only if a part or the separator does. */
  lemma {:induction false} JoinNoChar(parts: seq<string>, sep: string, c: char)
    requires NoCharIn(parts, c) && NoChar(sep, c)
    ensures NoChar(Join(parts, sep), c)
    decreases |parts|
  {
    if |parts| > 1 {
      JoinNoChar(parts[1..], sep, c);
      NoCharConcat(parts[0], sep, c);
      NoCharConcat(parts[0] + sep, Join(parts[1..], sep), c);
    }
  }

  /** Splits `s` at every occurrence of `sep`, scanning left to right;
      `cur` is the piece read so far. */
  function SplitFrom(s: string, sep: string, cur: string): (r: seq<string>)
    requires |sep| > 0
    ensures |r| > 0
    decreases |s|
  {
    if |s| == 0 then [cur]
    else if sep <= s then [cur] + SplitFrom(s[|sep|..], sep, "")
    else SplitFrom(s[1..], sep, cur + [s[0]])
  }

  /** `String.prototype.split(sep)` for a non-empty separator. */
  function SplitOn(s: string, sep: string): seq<string>
    requires |sep| > 0
  {
    SplitFrom(s, sep, "")
  }

  /** Text that cannot start a separator is read into the current piece. */
  lemma {:induction false} SplitSkips(x: string, rest: string, sep: string, cur: string)
    requires |sep| > 0 && NoChar(x, sep[0])
    ensures SplitFrom(x + rest, sep, cur) == SplitFrom(rest, sep, cur + x)
    decreases |x|
  {
    if |x| == 0 {
      assert x + rest == rest;
      assert cur + x == cur;
    } else {
      var s := x + rest;
      assert s[0] == x[0] && s[0] != sep[0];
      assert !(sep <= s);
      assert s[1..] == x[1..] + rest;
      SplitSkips(x[1..], rest, sep, cur + [x[0]]);
      assert cur + [x[0]] + x[1..] == cur + x;
    }
  }

  /** A separator read at the current position closes the current piece. */
  lemma SplitAtSep(rest: string, sep: string, cur: string)
    requires |sep| > 0
    ensures SplitFrom(sep + rest, sep, cur) == [cur] + SplitFrom(rest, sep, "")
  {
    assert sep <= sep + rest;
    assert (sep + rest)[|sep|..] == rest;
  }

  /** Splitting undoes joining, provided no part contains the separator's
      first character. */
  lemma {:induction false} SplitJoin(parts: seq<string>, sep: string)
    requires |parts| > 0 && |sep| > 0 && NoCharIn(parts, sep[0])
    ensures SplitOn(Join(parts, sep), sep) == parts
    decreases |parts|
  {
    if |parts| == 1 {
      SplitSkips(parts[0], "", sep, "");
      assert parts[0] + "" == parts[0];
      assert "" + parts[0] == parts[0];
    } else {
      var tail := Join(parts[1..], sep);
      assert Join(parts, sep) == parts[0] + (sep + tail);
      SplitSkips(parts[0], sep + tail, sep, "");
      assert "" + parts[0] == parts[0];
      SplitAtSep(tail, sep, parts[0]);
      SplitJoin(parts[1..], sep);
      assert [parts[0]] + parts[1..] == parts;
    }
  }

  /* ---------------------------------------------------------------------- */
  /*  Prefix and suffix stripping                                            */
  /* ---------------------------------------------------------------------- */

  function StripPrefix(s: string, pre: string): (r: Option<string>)
    ensures r.Some? <==> pre <= s
    ensures r.Some? ==> s == pre + r.value
  {
    if pre <= s then Some(s[|pre|..]) else None
  }

  function StripSuffix(s: string, suf: string): (r: Option<string>)
    ensures r.Some? <==> |suf| <= |s| && s[|s| - |suf|..] == suf
    ensures r.Some? ==> s == r.value + suf
  {
    if |suf| <= |s| && s[|s| - |suf|..] == suf then Some(s[..|s| - |suf|]) else None
  }

  lemma StripPrefixConcat(pre: string, x: string)
    ensures StripPrefix(pre + x, pre) == Some(x)
  {
    assert pre <= pre + x;
    assert (pre + x)[|pre|..] == x;
  }

  lemma StripSuffixConcat(x: string, suf: string)
    ensures StripSuffix(x + suf, suf) == Some(x)
  {
    var s := x + suf;
    assert s[|s| - |suf|..] == suf;
    assert s[..|s| - |suf|] == x;
  }

  /** The position just after the last `c` before `j` (0 when there is none). */
  function CutAfterLast(s: string, c: char, j: nat): (r: nat)
    requires j <= |s|
    ensures r <= j
    ensures forall k :: r <= k < j ==> s[k] != c
    ensures r > 0 ==> s[r - 1] == c
    decreases j
  {
    if j == 0 || s[j - 1] == c then j else CutAfterLast(s, c, j - 1)
  }

  /** The text after the last occurrence of `c` (all of `s` when there is none). */
  function AfterLast(s: string, c: char): (r: string)
    ensures |r| <= |s| && r == s[|s| - |r|..]
    ensures NoChar(r, c)
  {
    s[CutAfterLast(s, c, |s|)..]
  }

  /** The cut lands just after a `c` followed only by other characters. */
  lemma {:induction false} CutAfterLastAt(s: string, c: char, lo: nat, j: nat)
    requires 0 < lo <= j <= |s| && s[lo - 1] == c
    requires forall k :: lo <= k < j ==> s[k] != c
    ensures CutAfterLast(s, c, j) == lo
    decreases j
  {
    if j > lo {
      CutAfterLastAt(s, c, lo, j - 1);
    }
  }

  /** What follows the last `c` is recovered exactly when it holds no `c`. */
  lemma AfterLastConcat(a: string, c: char, b: string)
    requires NoChar(b, c)
    ensures AfterLast(a + [c] + b, c) == b
  {
    var s := a + [c] + b;
    var lo := |a| + 1;
    assert s[lo - 1] == c;
    forall k | lo <= k < |s| ensures s[k] != c {
      assert s[k] == b[k - lo];
    }
    CutAfterLastAt(s, c, lo, |s|);
    assert s[lo..] == b;
  }
}
