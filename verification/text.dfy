/**
 * String operations the deity parser and the annotation tool rely on: prefix, suffix and
 * substring tests, trimming, splitting on a separator and joining, ASCII lower case, and
 * Python's `int()` of a digit string.
 */
module Text {
  import opened Wrappers

  /** The code points JavaScript's `trim` removes: WhiteSpace and LineTerminator. */
  predicate IsJsSpace(c: char)
  {
    c == '\t' || c == '\n' || c == '\U{000B}' || c == '\U{000C}' || c == '\r' || c == ' '
    || c == '\U{00A0}' || c == '\U{1680}' || ('\U{2000}' <= c <= '\U{200A}')
    || c == '\U{2028}' || c == '\U{2029}' || c == '\U{202F}' || c == '\U{205F}'
    || c == '\U{3000}' || c == '\U{FEFF}'
  }

  /** The code points Python's `str.strip()` removes (`str.isspace`). */
  predicate IsPySpace(c: char)
  {
    c == '\t' || c == '\n' || c == '\U{000B}' || c == '\U{000C}' || c == '\r'
    || ('\U{001C}' <= c <= '\U{001F}') || c == ' ' || c == '\U{0085}' || c == '\U{00A0}'
    || c == '\U{1680}' || ('\U{2000}' <= c <= '\U{200A}') || c == '\U{2028}' || c == '\U{2029}'
    || c == '\U{202F}' || c == '\U{205F}' || c == '\U{3000}'
  }

  predicate StartsWith(s: string, prefix: string)
  {
    |prefix| <= |s| && s[..|prefix|] == prefix
  }

  predicate EndsWith(s: string, suffix: string)
  {
    |suffix| <= |s| && s[|s| - |suffix|..] == suffix
  }

  /** `t` occurs somewhere in `s`. */
  predicate Contains(s: string, t: string)
    decreases |s|
  {
    StartsWith(s, t) || (|s| > 0 && Contains(s[1..], t))
  }

  /** An occurrence in a suffix is an occurrence in the whole. */
  lemma {:induction false} ContainsDrop(s: string, k: nat, t: string)
    requires k <= |s| && Contains(s[k..], t)
    ensures Contains(s, t)
  {
    if k > 0 {
      assert s[1..][k - 1..] == s[k..];
      ContainsDrop(s[1..], k - 1, t);
    }
  }

  /** Whatever contains `t` contains every suffix of `t`. */
  lemma {:induction false} ContainsTail(s: string, t: string, k: nat)
    requires k <= |t| && Contains(s, t)
    ensures Contains(s, t[k..])
    decreases |s|
  {
    if StartsWith(s, t) {
      assert s[k..][..|t| - k] == t[k..];
      ContainsDrop(s, k, t[k..]);
    } else {
      ContainsTail(s[1..], t, k);
    }
  }

  /** The number of leading characters satisfying `space`. */
  function Lead(s: string, space: char -> bool): (n: nat)
    ensures n <= |s|
    ensures forall i :: 0 <= i < n ==> space(s[i])
    ensures n < |s| ==> !space(s[n])
  {
    if |s| > 0 && space(s[0]) then 1 + Lead(s[1..], space) else 0
  }

  /** The number of trailing characters satisfying `space`. */
  function Trail(s: string, space: char -> bool): (n: nat)
    ensures n <= |s|
    ensures forall i :: |s| - n <= i < |s| ==> space(s[i])
    ensures n < |s| ==> !space(s[|s| - n - 1])
  {
    if |s| > 0 && space(s[|s| - 1]) then 1 + Trail(s[..|s| - 1], space) else 0
  }

  /**
   * Both ends stripped: the slice of `s` after its leading spaces that is empty or starts and
   * ends with a non-space, and is empty only when `s` is all space.
   */
  function Strip(s: string, space: char -> bool): (r: string)
    ensures Lead(s, space) + |r| <= |s|
    ensures r == s[Lead(s, space)..Lead(s, space) + |r|]
    ensures forall k :: Lead(s, space) + |r| <= k < |s| ==> space(s[k])
    ensures r == [] <==> (forall k :: 0 <= k < |s| ==> space(s[k]))
    ensures r == [] || (!space(r[0]) && !space(r[|r| - 1]))
  {
    var i := Lead(s, space);
    if i == |s| then []
    else
      var j := Trail(s, space);
      assert j < |s| - i;
      s[i..|s| - j]
  }

  /** JavaScript's `String.prototype.trim`. */
  function Trim(s: string): string
  {
    Strip(s, IsJsSpace)
  }

  /** Stripping a string that already starts and ends with a non-space changes nothing. */
  lemma StripUnchanged(s: string, space: char -> bool)
    requires s == [] || (!space(s[0]) && !space(s[|s| - 1]))
    ensures Strip(s, space) == s
  {
    if s != [] {
      assert Lead(s, space) == 0;
      assert Trail(s, space) == 0;
    }
  }

  /** Stripping is idempotent. */
  lemma StripTwice(s: string, space: char -> bool)
    ensures Strip(Strip(s, space), space) == Strip(s, space)
  {
    StripUnchanged(Strip(s, space), space);
  }

  /** The index of the first `c` in `s`, or `|s|` when there is none. */
  function FirstIndex(s: string, c: char): (r: nat)
    ensures r <= |s|
    ensures c !in s[..r]
    ensures r < |s| ==> s[r] == c
    ensures r == |s| <==> c !in s
  {
    if |s| == 0 then 0
    else if s[0] == c then 0
    else
      var k := FirstIndex(s[1..], c);
      assert s[1..][..k] == s[1..k + 1];
      assert s[..k + 1] == [s[0]] + s[1..k + 1];
      k + 1
  }

  /** `s.split(sep)` in JavaScript and Python alike: the pieces between separators, at least one. */
  function SplitOn(s: string, sep: char): (r: seq<string>)
    ensures |r| > 0
    ensures forall i :: 0 <= i < |r| ==> sep !in r[i]
    decreases |s|
  {
    var i := FirstIndex(s, sep);
    if i == |s| then [s] else [s[..i]] + SplitOn(s[i + 1..], sep)
  }

  /** `parts.join(sep)`. */
  function Join(parts: seq<string>, sep: char): string
  {
    if |parts| == 0 then ""
    else if |parts| == 1 then parts[0]
    else parts[0] + [sep] + Join(parts[1..], sep)
  }

  /** Joining a part in front of a non-empty list adds the part and a separator. */
  lemma JoinCons(a: string, t: seq<string>, sep: char)
    requires |t| > 0
    ensures Join([a] + t, sep) == a + [sep] + Join(t, sep)
  {
    assert ([a] + t)[1..] == t;
  }

  /** Splitting stops at the first separator. */
  lemma SplitStep(a: string, sep: char, b: string)
    requires sep !in a
    ensures SplitOn(a + [sep] + b, sep) == [a] + SplitOn(b, sep)
  {
    var s := a + [sep] + b;
    FirstIndexPast(a, sep, b);
    assert s[..|a|] == a;
    assert s[|a| + 1..] == b;
  }

  /** Joining the pieces of a split gives the string back. */
  lemma {:induction false} JoinSplit(s: string, sep: char)
    ensures Join(SplitOn(s, sep), sep) == s
    decreases |s|
  {
    var i := FirstIndex(s, sep);
    if i < |s| {
      var rest := s[i + 1..];
      assert s == s[..i] + [sep] + rest;
      SplitStep(s[..i], sep, rest);
      JoinSplit(rest, sep);
      JoinCons(s[..i], SplitOn(rest, sep), sep);
    }
  }

  /** Splitting a join gives the parts back when no part holds the separator. */
  lemma {:induction false} SplitJoin(parts: seq<string>, sep: char)
    requires |parts| > 0
    requires forall i :: 0 <= i < |parts| ==> sep !in parts[i]
    ensures SplitOn(Join(parts, sep), sep) == parts
  {
    if |parts| > 1 {
      var tail := parts[1..];
      assert parts == [parts[0]] + tail;
      JoinCons(parts[0], tail, sep);
      SplitStep(parts[0], sep, Join(tail, sep));
      SplitJoin(tail, sep);
    } else {
      assert FirstIndex(parts[0], sep) == |parts[0]|;
    }
  }

  lemma FirstIndexPast(a: string, c: char, b: string)
    requires c !in a
    ensures FirstIndex(a + [c] + b, c) == |a|
  {
    var s := a + [c] + b;
    assert s[|a|] == c;
    assert s[..|a|] == a;
  }

  /** Appending one more part adds the separator and the part at the end. */
  lemma {:induction false} JoinSnoc(parts: seq<string>, x: string, sep: char)
    requires |parts| > 0
    ensures Join(parts + [x], sep) == Join(parts, sep) + [sep] + x
  {
    if |parts| > 1 {
      JoinSnoc(parts[1..], x, sep);
      assert (parts + [x])[1..] == parts[1..] + [x];
    } else {
      assert (parts + [x])[1..] == [x];
    }
  }

  function LowerChar(c: char): (r: char)
    ensures 'A' <= c <= 'Z' ==> 'a' <= r <= 'z'
    ensures !('A' <= c <= 'Z') ==> r == c
  {
    if 'A' <= c <= 'Z' then (c as int + 32) as char else c
  }

  /** ASCII `toLowerCase`: upper-case letters become lower case, everything else is kept. */
  function ToLower(s: string): (r: string)
    ensures |r| == |s|
    ensures forall i :: 0 <= i < |s| ==> r[i] == LowerChar(s[i])
    ensures forall i :: 0 <= i < |r| ==> !('A' <= r[i] <= 'Z')
  {
    seq(|s|, i requires 0 <= i < |s| => LowerChar(s[i]))
  }

  /** The value of a digit character in `base` (2 to 16), if it is one. */
  function DigitValue(c: char, base: nat): (r: Option<nat>)
    ensures r.Some? ==> r.value < base
  {
    var v :=
      if '0' <= c <= '9' then c as int - '0' as int
      else if 'a' <= c <= 'f' then c as int - 'a' as int + 10
      else if 'A' <= c <= 'F' then c as int - 'A' as int + 10
      else 16;
    if v < 16 && v < base then Some(v) else None
  }

  lemma DigitNotSpace(c: char, base: nat)
    requires DigitValue(c, base).Some?
    ensures !IsPySpace(c) && c != '-' && c != '+'
  {
  }

  predicate AllDigits(s: string, base: nat)
  {
    forall i :: 0 <= i < |s| ==> DigitValue(s[i], base).Some?
  }

  /** The number written by a run of digits, most significant first. */
  function DigitsValue(s: string, base: nat): nat
    requires AllDigits(s, base)
  {
    if |s| == 0 then 0 else DigitsValue(s[..|s| - 1], base) * base + DigitValue(s[|s| - 1], base).value
  }

  /**
   * Python's `int(s, base)` over ASCII digits: surrounding whitespace, an optional sign and at
   * least one digit; anything else raises `ValueError`, modelled as `None`.
   */
  function PyInt(s: string, base: nat): Option<int>
  {
    var t := Strip(s, IsPySpace);
    var negative := |t| > 0 && t[0] == '-';
    var body := if |t| > 0 && (t[0] == '-' || t[0] == '+') then t[1..] else t;
    if |body| > 0 && AllDigits(body, base) then
      var n: int := DigitsValue(body, base);
      Some(if negative then -n else n)
    else None
  }

  /** A plain run of digits reads as its value. */
  lemma PyIntOfDigits(s: string, base: nat)
    requires |s| > 0 && AllDigits(s, base)
    ensures PyInt(s, base) == Some(DigitsValue(s, base) as int)
  {
    DigitNotSpace(s[0], base);
    DigitNotSpace(s[|s| - 1], base);
    StripUnchanged(s, IsPySpace);
  }

  /** Python's `int(x)` on a float: truncation toward zero. */
  function Truncate(x: real): (r: int)
    ensures x >= 0.0 ==> r as real <= x < r as real + 1.0
    ensures x < 0.0 ==> r as real - 1.0 < x <= r as real
  {
    if x >= 0.0 then x.Floor else -((-x).Floor)
  }
}
