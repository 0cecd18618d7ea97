/**
 * The handful of Python string operations the advisor relies on: `lower()`/`upper()` on
 * ASCII letters, the substring test `sub in s`, `split()` on whitespace, `split(c)` and
 * `join`, `strip()`, `int(s)` and `str(n)`.
 */
module Text {
  import opened Common

  /** ASCII white space; the other characters Python counts as white space are not included. */
  predicate IsSpace(c: char)
  {
    c == ' ' || c == '\t' || c == '\n' || c == '\r' || c == '\U{B}' || c == '\U{C}'
  }

  predicate IsDigit(c: char)
  {
    '0' <= c <= '9'
  }

  function LowerChar(c: char): char
  {
    if 'A' <= c <= 'Z' then (c as int + 32) as char else c
  }

  function UpperChar(c: char): char
  {
    if 'a' <= c <= 'z' then (c as int - 32) as char else c
  }

  /** `s.lower()` restricted to ASCII letters. */
  function Lower(s: string): (r: string)
    ensures |r| == |s|
  {
    seq(|s|, i requires 0 <= i < |s| => LowerChar(s[i]))
  }

  /** `s.upper()` restricted to ASCII letters. */
  function Upper(s: string): (r: string)
    ensures |r| == |s|
  {
    seq(|s|, i requires 0 <= i < |s| => UpperChar(s[i]))
  }

  // ---------------------------------------------------------------------------------------
  // Substrings
  // ---------------------------------------------------------------------------------------

  predicate OccursAt(s: string, sub: string, i: int)
  {
    0 <= i && i + |sub| <= |s| && s[i..i + |sub|] == sub
  }

  /** Python's `sub in s`. */
  predicate Contains(s: string, sub: string)
  {
    exists i :: 0 <= i <= |s| - |sub| && OccursAt(s, sub, i)
  }

  /** The first position at or after `from` where `sub` occurs (`s.find(sub, from)`). */
  function FindFrom(s: string, sub: string, from: nat): (r: Option<nat>)
    requires from <= |s|
    ensures r.Some? ==> from <= r.value && OccursAt(s, sub, r.value)
    ensures forall j :: from <= j < (if r.Some? then r.value else |s| + 1) ==> !OccursAt(s, sub, j)
    decreases |s| - from
  {
    if OccursAt(s, sub, from) then Some(from)
    else if from == |s| then None
    else FindFrom(s, sub, from + 1)
  }

  /** `s.find(sub)`, with `None` for -1. */
  function IndexOf(s: string, sub: string): (r: Option<nat>)
    ensures r.Some? ==> OccursAt(s, sub, r.value)
    ensures r.Some? ==> forall j :: 0 <= j < r.value ==> !OccursAt(s, sub, j)
    ensures r.None? <==> !Contains(s, sub)
  {
    FindFrom(s, sub, 0)
  }

  /** `s.split(sep)[0]`: everything before the first occurrence of `sep`. */
  function BeforeFirst(s: string, sep: string): string
  {
    match IndexOf(s, sep)
    case Some(i) => s[..i]
    case None => s
  }

  /** Everything after the first occurrence of `sep`. */
  function AfterFirst(s: string, sep: string): string
  {
    match IndexOf(s, sep)
    case Some(i) => s[i + |sep|..]
    case None => ""
  }

  /** A substring of either part is a substring of the concatenation. */
  lemma ContainsConcat(a: string, b: string, sub: string)
    ensures Contains(a, sub) ==> Contains(a + b, sub)
    ensures Contains(b, sub) ==> Contains(a + b, sub)
  {
    if Contains(a, sub) {
      var i :| 0 <= i <= |a| - |sub| && OccursAt(a, sub, i);
      assert (a + b)[i..i + |sub|] == a[i..i + |sub|];
      assert OccursAt(a + b, sub, i);
    }
    if Contains(b, sub) {
      var i :| 0 <= i <= |b| - |sub| && OccursAt(b, sub, i);
      assert (a + b)[|a| + i..|a| + i + |sub|] == b[i..i + |sub|];
      assert OccursAt(a + b, sub, |a| + i);
    }
  }

  lemma ContainsSelf(s: string)
    ensures Contains(s, s)
  {
    assert OccursAt(s, s, 0);
  }

  /** The part of `s` before the first `sep` never contains `sep`. */
  lemma BeforeFirstHasNoSeparator(s: string, sep: string)
    requires |sep| > 0
    ensures !Contains(BeforeFirst(s, sep), sep)
  {
    match IndexOf(s, sep)
    case None =>
    case Some(i) =>
      var b := s[..i];
      forall j | 0 <= j <= |b| - |sep| ensures !OccursAt(b, sep, j) {
        assert b[j..j + |sep|] == s[j..j + |sep|];
        assert !OccursAt(s, sep, j);
      }
  }

  /** A slice of a string that lacks `sub` lacks it too. */
  lemma SliceKeepsAbsence(s: string, sub: string, a: nat, b: nat)
    requires a <= b <= |s|
    requires !Contains(s, sub)
    ensures !Contains(s[a..b], sub)
  {
    var t := s[a..b];
    forall j | 0 <= j <= |t| - |sub| ensures !OccursAt(t, sub, j) {
      var u, w := t[j..j + |sub|], s[a + j..a + j + |sub|];
      forall k | 0 <= k < |sub| ensures u[k] == w[k] {
        assert u[k] == t[j + k] == s[a + j + k];
      }
      assert u == w;
      assert !OccursAt(s, sub, a + j);
    }
  }

  // ---------------------------------------------------------------------------------------
  // strip() and split()
  // ---------------------------------------------------------------------------------------

  function TrimStart(s: string): (r: string)
    ensures |r| <= |s| && r == s[|s| - |r|..]
    ensures |r| > 0 ==> !IsSpace(r[0])
  {
    if |s| > 0 && IsSpace(s[0]) then TrimStart(s[1..]) else s
  }

  function TrimEnd(s: string): (r: string)
    ensures |r| <= |s| && r == s[..|r|]
    ensures |r| > 0 ==> !IsSpace(r[|r| - 1])
  {
    if |s| > 0 && IsSpace(s[|s| - 1]) then TrimEnd(s[..|s| - 1]) else s
  }

  /** How many leading white-space characters `strip()` removes. */
  function StripOffset(s: string): nat
  {
    |s| - |TrimStart(s)|
  }

  /** `s.strip()`: a slice of `s` with no white space at either end. */
  function Strip(s: string): (r: string)
    ensures StripOffset(s) + |r| <= |s| && r == s[StripOffset(s)..StripOffset(s) + |r|]
    ensures |r| > 0 ==> !IsSpace(r[0]) && !IsSpace(r[|r| - 1])
  {
    var t := TrimStart(s);
    var r := TrimEnd(t);
    assert t == s[StripOffset(s)..];
    assert r == t[..|r|];
    r
  }

  lemma {:induction false} TrimStartKeeps(s: string, i: nat)
    requires i < |s| && !IsSpace(s[i])
    ensures |TrimStart(s)| > 0
    decreases i
  {
    if IsSpace(s[0]) {
      TrimStartKeeps(s[1..], i - 1);
    }
  }

  lemma {:induction false} TrimEndKeeps(s: string)
    requires |s| > 0 && !IsSpace(s[0])
    ensures |TrimEnd(s)| > 0
    decreases |s|
  {
    if IsSpace(s[|s| - 1]) {
      TrimEndKeeps(s[..|s| - 1]);
    }
  }

  /** A string with a character that is not white space does not strip to nothing. */
  lemma StripKeeps(s: string, i: nat)
    requires i < |s| && !IsSpace(s[i])
    ensures |Strip(s)| > 0
  {
    TrimStartKeeps(s, i);
    TrimEndKeeps(TrimStart(s));
  }

  lemma StripAbsence(s: string, sub: string)
    requires !Contains(s, sub)
    ensures !Contains(Strip(s), sub)
  {
    var r := Strip(s);
    SliceKeepsAbsence(s, sub, StripOffset(s), StripOffset(s) + |r|);
  }

  /** A string whose ends are not white space is its own `strip()`. */
  lemma StripUnchanged(s: string)
    requires |s| > 0 && !IsSpace(s[0]) && !IsSpace(s[|s| - 1])
    ensures Strip(s) == s
  {
  }

  /** True when position `i` starts a white-space separated word. */
  predicate WordStart(s: string, i: int)
    requires 0 <= i < |s|
  {
    !IsSpace(s[i]) && (i == 0 || IsSpace(s[i - 1]))
  }

  /** `len(s.split())`: the number of maximal runs of non-white-space characters. */
  function WordCount(s: string): nat
  {
    if |s| == 0 then 0
    else WordCount(s[..|s| - 1]) + (if WordStart(s, |s| - 1) then 1 else 0)
  }

  lemma {:induction false} WordCountAtMostLength(s: string)
    ensures WordCount(s) <= |s|
    decreases |s|
  {
    if |s| > 0 {
      WordCountAtMostLength(s[..|s| - 1]);
    }
  }

  /** White space alone holds no words. */
  lemma {:induction false} BlankHasNoWords(s: string)
    requires forall i :: 0 <= i < |s| ==> IsSpace(s[i])
    ensures WordCount(s) == 0
    decreases |s|
  {
    if |s| > 0 {
      BlankHasNoWords(s[..|s| - 1]);
    }
  }

  /** `s.split()[0]`, or `None` where Python raises IndexError (no word at all). */
  function FirstWord(s: string): (r: Option<string>)
    ensures r.Some? ==> |r.value| > 0 && forall i :: 0 <= i < |r.value| ==> !IsSpace(r.value[i])
  {
    var t := TrimStart(s);
    if |t| == 0 then None else Some(WordPrefix(t))
  }

  /** The longest prefix free of white space. */
  function WordPrefix(s: string): (r: string)
    ensures |r| <= |s| && r == s[..|r|]
    ensures forall i :: 0 <= i < |r| ==> !IsSpace(r[i])
    ensures |s| > 0 && !IsSpace(s[0]) ==> |r| > 0
  {
    if |s| == 0 || IsSpace(s[0]) then "" else [s[0]] + WordPrefix(s[1..])
  }

  /** `s.split(c)` for a one-character separator: the pieces between separators. */
  function SplitOn(s: string, c: char): (r: seq<string>)
    ensures |r| > 0
    ensures forall k :: 0 <= k < |r| ==> c !in r[k]
  {
    if |s| == 0 then [""]
    else
      var rest := SplitOn(s[..|s| - 1], c);
      if s[|s| - 1] == c then rest + [""]
      else rest[..|rest| - 1] + [rest[|rest| - 1] + [s[|s| - 1]]]
  }

  /** `sep.join(parts)`. */
  function Join(parts: seq<string>, sep: string): string
  {
    if |parts| == 0 then ""
    else if |parts| == 1 then parts[0]
    else Join(parts[..|parts| - 1], sep) + sep + parts[|parts| - 1]
  }

  /** A join ends with its last part, so it is at least as long. */
  lemma JoinEndsWithLast(parts: seq<string>, sep: string)
    requires |parts| > 0
    ensures |Join(parts, sep)| >= |parts[|parts| - 1]|
  {
  }

  /** Every part occurs in the join. */
  lemma {:induction false} JoinContainsParts(parts: seq<string>, sep: string, i: nat)
    requires i < |parts|
    ensures Contains(Join(parts, sep), parts[i])
    decreases |parts|
  {
    if |parts| == 1 {
      ContainsSelf(parts[0]);
    } else {
      var init := parts[..|parts| - 1];
      var last := parts[|parts| - 1];
      ContainsSelf(last);
      ContainsConcat(Join(init, sep) + sep, last, last);
      if i < |parts| - 1 {
        JoinContainsParts(init, sep, i);
        ContainsConcat(Join(init, sep), sep, parts[i]);
        ContainsConcat(Join(init, sep) + sep, last, parts[i]);
      }
    }
  }

  /** Joining the pieces of a split with the same separator gives back the string. */
  lemma {:induction false} SplitJoinRoundTrip(s: string, c: char)
    ensures Join(SplitOn(s, c), [c]) == s
    decreases |s|
  {
    if |s| > 0 {
      var init := s[..|s| - 1];
      var rest := SplitOn(init, c);
      SplitJoinRoundTrip(init, c);
      assert s == init + [s[|s| - 1]];
      if s[|s| - 1] == c {
        var r := rest + [""];
        assert r[..|r| - 1] == rest;
      } else {
        var r := rest[..|rest| - 1] + [rest[|rest| - 1] + [s[|s| - 1]]];
        if |rest| == 1 {
          assert Join(rest, [c]) == rest[0];
        } else {
          assert r[..|r| - 1] == rest[..|rest| - 1];
          assert Join(rest, [c]) == Join(rest[..|rest| - 1], [c]) + [c] + rest[|rest| - 1];
        }
      }
    }
  }

  // ---------------------------------------------------------------------------------------
  // Decimal numbers: str(n) and int(s)
  // ---------------------------------------------------------------------------------------

  function DigitChar(d: nat): char
    requires d < 10
  {
    ('0' as int + d) as char
  }

  function DigitValue(c: char): nat
    requires IsDigit(c)
  {
    c as int - '0' as int
  }

  /** `str(n)` for a natural number. */
  function NatToString(n: nat): (r: string)
    ensures |r| > 0
    ensures forall i :: 0 <= i < |r| ==> IsDigit(r[i])
  {
    if n < 10 then [DigitChar(n)] else NatToString(n / 10) + [DigitChar(n % 10)]
  }

  /** `str(i)` for an integer. */
  function IntToString(i: int): (r: string)
    ensures |r| > 0 && !IsSpace(r[0]) && !IsSpace(r[|r| - 1])
  {
    if i < 0 then "-" + NatToString(-i) else NatToString(i)
  }

  predicate AllDigits(s: string)
  {
    forall i :: 0 <= i < |s| ==> IsDigit(s[i])
  }

  function DigitsValue(s: string): nat
    requires AllDigits(s)
  {
    if |s| == 0 then 0 else 10 * DigitsValue(s[..|s| - 1]) + DigitValue(s[|s| - 1])
  }

  lemma {:induction false} DigitsOfNat(n: nat)
    ensures DigitsValue(NatToString(n)) == n
    decreases n
  {
    if n >= 10 {
      var s := NatToString(n / 10);
      DigitsOfNat(n / 10);
      var t := s + [DigitChar(n % 10)];
      assert t[..|t| - 1] == s;
    }
  }

  /**
   * Python's `int(s)` on a string: optional white space, an optional sign and at least one
   * decimal digit; `None` where Python raises ValueError.
   */
  function ParseInt(s: string): Option<int>
  {
    var t := Strip(s);
    if |t| > 0 && (t[0] == '-' || t[0] == '+') then
      var ds := t[1..];
      if |ds| > 0 && AllDigits(ds) then
        var n: int := DigitsValue(ds);
        Some(if t[0] == '-' then -n else n)
      else None
    else if |t| > 0 && AllDigits(t) then Some(DigitsValue(t))
    else None
  }

  lemma ParseNatString(n: nat)
    ensures ParseInt(NatToString(n)) == Some(n)
  {
    var s := NatToString(n);
    StripUnchanged(s);
    DigitsOfNat(n);
    assert IsDigit(s[0]);
  }

  /** `int(str(i)) == i`. */
  lemma ParseIntRoundTrip(i: int)
    ensures ParseInt(IntToString(i)) == Some(i)
  {
    if i < 0 {
      var s := IntToString(i);
      StripUnchanged(s);
      assert s[1..] == NatToString(-i);
      DigitsOfNat(-i);
    } else {
      ParseNatString(i);
    }
  }

  /** Python's `int(x)` on a float: truncation toward zero. */
  function TruncateReal(x: real): int
  {
    if x >= 0.0 then x.Floor else -((-x).Floor)
  }

  lemma TruncateBounds(x: real)
    ensures x >= 0.0 ==> TruncateReal(x) as real <= x < TruncateReal(x) as real + 1.0
    ensures x < 0.0 ==> TruncateReal(x) as real - 1.0 < x <= TruncateReal(x) as real
  {
  }

  /** Whole minutes between two clock readings in seconds, truncated toward zero. */
  function DurationMinutes(start: int, end: int): (m: int)
    ensures start <= end ==> 0 <= m && (m * 60) <= end - start < (m + 1) * 60
  {
    var x := (end - start) as real / 60.0;
    TruncateBounds(x);
    TruncateReal(x)
  }
}
