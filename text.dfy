/**
 * The string expressions of the deploy builder: `escapeRegExp`, the
 * first-occurrence `String.prototype.replace` used to derive staging roots,
 * the `split(':')[0]` of a target string and `getVersionRange`.
 */
module Text {
  import opened Wrappers

  // ---------------------------------------------------------------------
  // escapeRegExp (actions.ts:46)
  // ---------------------------------------------------------------------

  /** The characters of the class `[\-\[\]\/{}()*+?.\\^$|]`. */
  predicate IsRegExpSpecial(c: char)
  {
    c in {'-', '[', ']', '/', '{', '}', '(', ')', '*', '+', '?', '.', '\\', '^', '$', '|'}
  }

  /** Number of characters of `s` that `EscapeRegExp` prefixes. */
  function CountSpecials(s: string): nat
  {
    if s == [] then 0 else (if IsRegExpSpecial(s[0]) then 1 else 0) + CountSpecials(s[1..])
  }

  /** Global replace of every special character `c` by `\c` (the `$&` of the replacement). */
  function EscapeRegExp(s: string): (r: string)
    ensures |r| == |s| + CountSpecials(s)
    ensures s == [] <==> r == []
  {
    if s == [] then []
    else (if IsRegExpSpecial(s[0]) then ['\\', s[0]] else [s[0]]) + EscapeRegExp(s[1..])
  }

  /**
   * Reading of a pattern as a literal: an escaped special character stands
   * for itself, any other character that is not special stands for itself,
   * and a bare special character or a backslash before anything else (a
   * character class such as `\d`, or nothing) makes the pattern non-literal.
   */
  function LiteralOf(p: string): (r: Option<string>)
    decreases |p|
  {
    if p == [] then Some([])
    else if p[0] == '\\' then
      if |p| >= 2 && IsRegExpSpecial(p[1]) then
        match LiteralOf(p[2..])
        case None => None
        case Some(t) => Some([p[1]] + t)
      else None
    else if IsRegExpSpecial(p[0]) then None
    else
      match LiteralOf(p[1..])
      case None => None
      case Some(t) => Some([p[0]] + t)
  }

  /** The escaped string is a pattern that matches exactly the original text. */
  lemma {:induction false} EscapeRegExpIsLiteral(s: string)
    ensures LiteralOf(EscapeRegExp(s)) == Some(s)
  {
    if s != [] {
      EscapeRegExpIsLiteral(s[1..]);
      var rest := EscapeRegExp(s[1..]);
      if IsRegExpSpecial(s[0]) {
        var e := ['\\', s[0]] + rest;
        assert e[2..] == rest;
      } else {
        var e := [s[0]] + rest;
        assert e[1..] == rest;
      }
      assert [s[0]] + s[1..] == s;
    }
  }

  /** Escaping works character by character: it distributes over concatenation. */
  lemma {:induction false} EscapeRegExpConcat(a: string, b: string)
    ensures EscapeRegExp(a + b) == EscapeRegExp(a) + EscapeRegExp(b)
  {
    if a != [] {
      assert (a + b)[1..] == a[1..] + b;
      EscapeRegExpConcat(a[1..], b);
    } else {
      assert a + b == b;
    }
  }

  /** `CountSpecials` is zero exactly for strings without special characters. */
  lemma {:induction false} CountSpecialsZero(s: string)
    ensures CountSpecials(s) == 0 <==> forall i :: 0 <= i < |s| ==> !IsRegExpSpecial(s[i])
  {
    if s != [] {
      CountSpecialsZero(s[1..]);
      assert forall i :: 1 <= i < |s| ==> s[i] == s[1..][i - 1];
    }
  }

  /** A string without special characters escapes to itself. */
  lemma {:induction false} NoSpecialsUnchanged(s: string)
    requires CountSpecials(s) == 0
    ensures EscapeRegExp(s) == s
  {
    if s != [] {
      NoSpecialsUnchanged(s[1..]);
      assert [s[0]] + s[1..] == s;
    }
  }

  /** A string without special characters is left unchanged, and only such a string is. */
  lemma EscapeRegExpIdentity(s: string)
    ensures EscapeRegExp(s) == s <==> forall i :: 0 <= i < |s| ==> !IsRegExpSpecial(s[i])
  {
    CountSpecialsZero(s);
    if CountSpecials(s) == 0 {
      NoSpecialsUnchanged(s);
    }
  }

  // ---------------------------------------------------------------------
  // String.prototype.replace with a string pattern: first occurrence only
  // ---------------------------------------------------------------------

  /** `pat` occurs in `s` at index `i`. */
  predicate OccursAt(s: string, pat: string, i: int)
  {
    0 <= i && i + |pat| <= |s| && s[i..i + |pat|] == pat
  }

  /** An occurrence at `i > 0` is an occurrence at `i - 1` in the string without its first character. */
  lemma OccursShift(s: string, pat: string, i: int)
    requires 1 <= i && 1 <= |s|
    ensures OccursAt(s, pat, i) == OccursAt(s[1..], pat, i - 1)
  {
    if i + |pat| <= |s| {
      assert s[1..][i - 1..i - 1 + |pat|] == s[i..i + |pat|];
    }
  }

  /** `String.prototype.indexOf`: the first index at which `pat` occurs, if any. */
  function IndexOf(s: string, pat: string): (r: Option<nat>)
    ensures r.None? <==> forall i :: 0 <= i <= |s| ==> !OccursAt(s, pat, i)
    ensures r.Some? ==> OccursAt(s, pat, r.value) && forall j :: 0 <= j < r.value ==> !OccursAt(s, pat, j)
    decreases |s|
  {
    if |s| < |pat| then None
    else if s[..|pat|] == pat then
      assert OccursAt(s, pat, 0);
      Some(0)
    else
      assert !OccursAt(s, pat, 0);
      match IndexOf(s[1..], pat)
      case None =>
        assert forall i :: 1 <= i <= |s| ==> !OccursAt(s, pat, i) by {
          forall i | 1 <= i <= |s| ensures !OccursAt(s, pat, i) {
            OccursShift(s, pat, i);
          }
        }
        None
      case Some(k) =>
        OccursShift(s, pat, k + 1);
        assert forall j :: 1 <= j < k + 1 ==> !OccursAt(s, pat, j) by {
          forall j | 1 <= j < k + 1 ensures !OccursAt(s, pat, j) {
            OccursShift(s, pat, j);
          }
        }
        Some(k + 1)
  }

  /** `s.replace(pat, rep)` for a string `pat` and a replacement without `$` patterns. */
  function ReplaceFirst(s: string, pat: string, rep: string): string
  {
    match IndexOf(s, pat)
    case None => s
    case Some(i) => s[..i] + rep + s[i + |pat|..]
  }

  /**
   * Replacing in `a + pat + b`, where `pat` does not occur before the end of
   * `a + pat`'s first copy, yields `a + rep + b`: only the first occurrence
   * is replaced.
   */
  lemma ReplaceFirstOccurrence(a: string, pat: string, b: string, rep: string)
    requires forall i :: 0 <= i < |a| ==> !OccursAt(a + pat + b, pat, i)
    ensures ReplaceFirst(a + pat + b, pat, rep) == a + rep + b
  {
    var s := a + pat + b;
    assert s[|a|..|a| + |pat|] == pat;
    assert OccursAt(s, pat, |a|);
    var k := IndexOf(s, pat).value;
    assert k == |a|;
    assert s[..k] == a;
    assert s[k + |pat|..] == b;
  }

  /** Without an occurrence of `pat`, replace leaves the string unchanged. */
  lemma ReplaceFirstAbsent(s: string, pat: string, rep: string)
    requires forall i :: 0 <= i <= |s| ==> !OccursAt(s, pat, i)
    ensures ReplaceFirst(s, pat, rep) == s
  {
  }

  // ---------------------------------------------------------------------
  // name.split(':')[0]
  // ---------------------------------------------------------------------

  /** The part of `s` before the first `sep`; all of `s` when `sep` does not occur. */
  function BeforeFirst(s: string, sep: char): (r: string)
    ensures r <= s
    ensures sep !in r
    ensures |r| < |s| ==> s[|r|] == sep
  {
    if s == [] then []
    else if s[0] == sep then []
    else [s[0]] + BeforeFirst(s[1..], sep)
  }

  // ---------------------------------------------------------------------
  // getVersionRange (actions.ts:99)
  // ---------------------------------------------------------------------

  /** Reads the major version back out of a range of the form `^<major>.0.0`. */
  function CaretMajor(range: string): (r: Option<string>)
    ensures r.Some? ==> "^" + r.value + ".0.0" == range
  {
    if |range| >= 5 && range[0] == '^' && range[|range| - 4..] == ".0.0" then
      assert range == "^" + range[1..|range| - 4] + ".0.0";
      Some(range[1..|range| - 4])
    else None
  }

  /** `^<v>.0.0`: the caret range that admits every release of major version `v`. */
  function VersionRange(major: string): (r: string)
    ensures CaretMajor(r) == Some(major)
  {
    "^" + major + ".0.0"
  }
}
