/**
  The JavaScript string primitives the prompt builders rely on, stated over
  `seq<char>`: the whitespace class shared by `\s` and `String.prototype.trim`,
  `trim`, `includes`, `indexOf`, `startsWith`/`endsWith`, `split` on one
  character, `join`, and ASCII case mapping.
 */
module Strings {
  import opened Basics

  /** The characters JavaScript counts as white space in `\s` and in `trim()`
      (WhiteSpace and LineTerminator of ECMA-262). */
  predicate IsSpace(c: char)
  {
    || c == '\t' || c == '\n' || c == '\U{000B}' || c == '\U{000C}' || c == '\r' || c == ' '
    || c == '\U{00A0}' || c == '\U{1680}' || ('\U{2000}' <= c <= '\U{200A}')
    || c == '\U{2028}' || c == '\U{2029}' || c == '\U{202F}' || c == '\U{205F}'
    || c == '\U{3000}' || c == '\U{FEFF}'
  }

  /** The characters the regular-expression `.` refuses to match. */
  predicate IsLineTerminator(c: char)
  {
    c == '\n' || c == '\r' || c == '\U{2028}' || c == '\U{2029}'
  }

  /** Length of the white-space run at the start of `s`. */
  function SpaceRunLength(s: string): (n: nat)
    ensures n <= |s|
    ensures forall i :: 0 <= i < n ==> IsSpace(s[i])
    ensures n < |s| ==> !IsSpace(s[n])
  {
    if |s| > 0 && IsSpace(s[0]) then 1 + SpaceRunLength(s[1..]) else 0
  }

  /** `trimStart()`: drops the leading white space, keeps everything else. */
  function TrimStart(s: string): (r: string)
    ensures |r| <= |s| && r == s[|s| - |r|..]
    ensures |r| == 0 || !IsSpace(r[0])
    ensures forall i :: 0 <= i < |s| - |r| ==> IsSpace(s[i])
  {
    if |s| > 0 && IsSpace(s[0]) then TrimStart(s[1..]) else s
  }

  /** `trimEnd()`: drops the trailing white space, keeps everything else. */
  function TrimEnd(s: string): (r: string)
    ensures |r| <= |s| && r == s[..|r|]
    ensures |r| == 0 || !IsSpace(r[|r| - 1])
    ensures forall i :: |r| <= i < |s| ==> IsSpace(s[i])
  {
    if |s| > 0 && IsSpace(s[|s| - 1]) then TrimEnd(s[..|s| - 1]) else s
  }

  /** No white space at either end. */
  predicate Trimmed(s: string)
  {
    |s| == 0 || (!IsSpace(s[0]) && !IsSpace(s[|s| - 1]))
  }

  /** `trim()`. */
  function Trim(s: string): (r: string)
    ensures Trimmed(r)
  {
    TrimEnd(TrimStart(s))
  }

  /** A string with no white space at either end is its own trim. */
  lemma TrimFixpoint(s: string)
    requires Trimmed(s)
    ensures Trim(s) == s
  {
    if |s| > 0 {
      TrimStartFixpoint(s);
      TrimEndFixpoint(s);
    }
  }

  lemma TrimStartFixpoint(s: string)
    requires s != [] && !IsSpace(s[0])
    ensures TrimStart(s) == s
  {
  }

  lemma TrimEndFixpoint(s: string)
    requires s != [] && !IsSpace(s[|s| - 1])
    ensures TrimEnd(s) == s
  {
  }

  /** `trim()` keeps a contiguous middle part of its input and drops only
      white space before and after it. */
  lemma TrimIsSlice(s: string)
    ensures exists i, j ::
              && 0 <= i <= j <= |s| && Trim(s) == s[i..j]
              && (forall k :: 0 <= k < i ==> IsSpace(s[k]))
              && (forall k :: j <= k < |s| ==> IsSpace(s[k]))
  {
    var t := TrimStart(s);
    var r := TrimEnd(t);
    var i := |s| - |t|;
    var j := i + |r|;
    assert t == s[i..];
    assert r == s[i..][..|r|] == s[i..j];
    forall k | j <= k < |s| ensures IsSpace(s[k]) {
      assert s[k] == t[k - i];
    }
  }


  /** A leading white-space character never survives `trim()`. */
  lemma TrimSpacePrefix(c: char, s: string)
    requires IsSpace(c)
    ensures Trim([c] + s) == Trim(s)
  {
    assert ([c] + s)[1..] == s;
  }

  /** Appending a trailing white-space character does not change `trim()`. */
  lemma TrimSpaceSuffix(s: string, c: char)
    requires IsSpace(c)
    ensures Trim(s + [c]) == Trim(s)
  {
    var t := TrimStart(s);
    if |t| == 0 {
      assert forall i :: 0 <= i < |s| ==> IsSpace(s[i]);
      TrimStartAllSpace(s + [c]);
    } else {
      TrimStartKeepsSuffix(s, [c]);
      assert TrimStart(s + [c]) == t + [c];
      assert (t + [c])[..|t + [c]| - 1] == t;
    }
  }

  lemma TrimStartAllSpace(s: string)
    requires forall i :: 0 <= i < |s| ==> IsSpace(s[i])
    ensures TrimStart(s) == []
  {
  }

  /** Once the leading white space of `s` ends inside `s`, appending text does not move it. */
  lemma TrimStartKeepsSuffix(s: string, u: string)
    requires TrimStart(s) != []
    ensures TrimStart(s + u) == TrimStart(s) + u
  {
    if |s| > 0 && IsSpace(s[0]) {
      assert (s + u)[1..] == s[1..] + u;
      TrimStartKeepsSuffix(s[1..], u);
    }
  }

  /** `startsWith`. */
  predicate StartsWith(s: string, p: string)
  {
    |p| <= |s| && s[..|p|] == p
  }

  /** `endsWith`. */
  predicate EndsWith(s: string, p: string)
  {
    |p| <= |s| && s[|s| - |p|..] == p
  }

  lemma StartsWithAppend(p: string, x: string)
    ensures StartsWith(p + x, p)
  {
    assert (p + x)[..|p|] == p;
  }

  /** A prefix stays a prefix when more text follows. */
  lemma StartsWithExtend(s: string, p: string, x: string)
    requires StartsWith(s, p)
    ensures StartsWith(s + x, p)
  {
    assert (s + x)[..|p|] == s[..|p|];
  }

  /** Whatever a string contains, it still contains with text around it. */
  lemma ContainsExtend(s: string, p: string, x: string, y: string)
    requires Contains(s, p)
    ensures Contains(x + s + y, p)
  {
    var i :| 0 <= i <= |s| - |p| && OccursAt(s, p, i);
    assert (x + s + y)[|x| + i..|x| + i + |p|] == s[i..i + |p|];
    assert OccursAt(x + s + y, p, |x| + i);
  }

  /** A character in none of three parts is not in their concatenation. */
  lemma NotInConcat(c: char, x: string, y: string, z: string)
    requires c !in x && c !in y && c !in z
    ensures c !in x + y + z
  {
  }

  /** The three parts of a concatenation can be read back by position. */
  lemma Middle(h: string, x: string, t: string)
    ensures StartsWith(h + x + t, h)
    ensures (h + x + t)[|h|..|h| + |x|] == x && (h + x + t)[|h| + |x|..] == t
  {
    assert (h + x + t)[..|h|] == h;
  }

  lemma EndsWithAppend(x: string, y: string, z: string)
    requires EndsWith(y, z)
    ensures EndsWith(x + y, z)
  {
    assert (x + y)[|x + y| - |z|..] == y[|y| - |z|..];
  }

  /** `p` occurs in `s` starting at index `i`. */
  predicate OccursAt(s: string, p: string, i: int)
  {
    0 <= i && i + |p| <= |s| && s[i..i + |p|] == p
  }

  /** `includes`. */
  predicate Contains(s: string, p: string)
  {
    exists i :: 0 <= i <= |s| - |p| && OccursAt(s, p, i)
  }

  /** A string contains each of its slices. */
  lemma ContainsSlice(s: string, i: nat, j: nat)
    requires i <= j <= |s|
    ensures Contains(s, s[i..j])
  {
    assert OccursAt(s, s[i..j], i);
  }

  /** The middle part of a concatenation occurs right after the first part. */
  lemma OccursAtMiddle(a: string, b: string, c: string)
    ensures OccursAt(a + b + c, b, |a|)
  {
    assert (a + b + c)[|a|..|a| + |b|] == b;
  }

  /** In `pre + (h + q) + rest`, `h` occurs right after `pre`, and the text before it is `pre`. */
  lemma OccursAfter(pre: string, h: string, q: string, rest: string)
    ensures OccursAt(pre + (h + q) + rest, h, |pre|)
    ensures (pre + (h + q) + rest)[..|pre|] == pre
  {
    assert pre + (h + q) + rest == pre + h + (q + rest);
    OccursAtMiddle(pre, h, q + rest);
  }

  /** A string contains the middle part of every concatenation it is made of. */
  lemma ContainsMiddle(a: string, b: string, c: string)
    ensures Contains(a + b + c, b)
  {
    OccursAtMiddle(a, b, c);
  }

  /** An occurrence of `p` contains every character of `p`. */
  lemma ContainsChar(s: string, p: string, c: char)
    requires Contains(s, p) && c in p
    ensures c in s
  {
    var i :| 0 <= i <= |s| - |p| && OccursAt(s, p, i);
    var k :| 0 <= k < |p| && p[k] == c;
    assert s[i + k] == s[i..i + |p|][k];
  }

  /** Dropping the first character shifts every occurrence one place to the left. */
  lemma OccursShift(s: string, p: string, i: int)
    requires |s| > 0 && i >= 1
    ensures OccursAt(s, p, i) <==> OccursAt(s[1..], p, i - 1)
  {
    var j := i - 1;
    if j + 1 + |p| <= |s| {
      var x := s[j + 1..j + 1 + |p|];
      var y := s[1..][j..j + |p|];
      forall k | 0 <= k < |p| ensures x[k] == y[k] {}
      assert x == y;
    }
  }

  /** An occurrence in a suffix is an occurrence in the whole string, shifted. */
  lemma OccursDrop(s: string, p: string, k: nat, j: int)
    requires k <= |s| && j >= 0
    ensures OccursAt(s[k..], p, j) <==> OccursAt(s, p, k + j)
  {
    if 0 <= j && k + j + |p| <= |s| {
      assert s[k..][j..j + |p|] == s[k + j..k + j + |p|];
    }
  }

  /** An occurrence in a prefix is an occurrence in the whole string. */
  lemma OccursTake(s: string, p: string, m: nat, j: int)
    requires m <= |s| && OccursAt(s[..m], p, j)
    ensures OccursAt(s, p, j)
  {
    assert s[..m][j..j + |p|] == s[j..j + |p|];
  }

  /** `indexOf`: the first index at which `p` occurs, if any. */
  function IndexOf(s: string, p: string): (r: Option<nat>)
    ensures r.Some? ==> OccursAt(s, p, r.value) && forall j :: 0 <= j < r.value ==> !OccursAt(s, p, j)
    ensures r.None? <==> !Contains(s, p)
    decreases |s|
  {
    if OccursAt(s, p, 0) then Some(0)
    else if |s| <= |p| then
      assert forall j :: 0 < j ==> !OccursAt(s, p, j);
      None
    else
      var rest := IndexOf(s[1..], p);
      assert forall i :: 1 <= i ==> (OccursAt(s, p, i) <==> OccursAt(s[1..], p, i - 1)) by {
        forall i | 1 <= i { OccursShift(s, p, i); }
      }
      if rest.None? then None
      else
        OccursShift(s, p, rest.value + 1);
        assert forall j :: 0 <= j < rest.value + 1 ==> !OccursAt(s, p, j);
        Some(rest.value + 1)
  }

  /** `split(sep)` for a one-character separator: the pieces between separators, in order. */
  function Split(s: string, sep: char): (r: seq<string>)
    ensures |r| >= 1
    ensures forall i :: 0 <= i < |r| ==> sep !in r[i]
  {
    if |s| == 0 then [""]
    else
      var rest := Split(s[1..], sep);
      if s[0] == sep then [""] + rest else [[s[0]] + rest[0]] + rest[1..]
  }

  /** `join(sep)`. */
  function Join(parts: seq<string>, sep: string): string
  {
    if |parts| == 0 then ""
    else if |parts| == 1 then parts[0]
    else parts[0] + sep + Join(parts[1..], sep)
  }

  /** Joining the pieces of a split with the separator gives back the original string. */
  lemma {:induction false} SplitJoin(s: string, sep: char)
    ensures Join(Split(s, sep), [sep]) == s
  {
    if |s| > 0 {
      var rest := Split(s[1..], sep);
      SplitJoin(s[1..], sep);
      if s[0] == sep {
        assert Split(s, sep) == [""] + rest;
        assert ([""] + rest)[1..] == rest;
      } else {
        var r := [[s[0]] + rest[0]] + rest[1..];
        assert Split(s, sep) == r;
        if |rest| == 1 {
          assert Join(rest, [sep]) == rest[0];
        } else {
          assert r[1..] == rest[1..];
          assert Join(rest, [sep]) == rest[0] + [sep] + Join(rest[1..], [sep]);
        }
      }
    }
  }

  /** A string without the separator splits into itself alone. */
  lemma {:induction false} SplitNoSeparator(s: string, sep: char)
    requires sep !in s
    ensures Split(s, sep) == [s]
  {
    if |s| > 0 {
      SplitNoSeparator(s[1..], sep);
      assert [s[0]] + s[1..] == s;
    }
  }

  /** Splitting distributes over a separator placed between two strings. */
  lemma {:induction false} SplitAround(a: string, b: string, sep: char)
    ensures Split(a + [sep] + b, sep) == Split(a, sep) + Split(b, sep)
  {
    var s := a + [sep] + b;
    if |a| == 0 {
      assert s == [sep] + b;
      assert s[1..] == b;
      assert Split(s, sep) == [""] + Split(b, sep);
    } else {
      assert s[0] == a[0];
      assert s[1..] == a[1..] + [sep] + b;
      SplitAround(a[1..], b, sep);
      var ra := Split(a[1..], sep);
      var rb := Split(b, sep);
      assert Split(s[1..], sep) == ra + rb;
      if a[0] == sep {
        assert Split(s, sep) == [""] + (ra + rb);
        assert Split(a, sep) == [""] + ra;
      } else {
        assert (ra + rb)[0] == ra[0];
        assert (ra + rb)[1..] == ra[1..] + rb;
        assert Split(s, sep) == [[a[0]] + ra[0]] + (ra[1..] + rb);
        assert Split(a, sep) == [[a[0]] + ra[0]] + ra[1..];
      }
    }
  }

  /** A separator-free piece followed by the separator splits off as one piece. */
  lemma SplitLine(x: string, rest: string, sep: char)
    requires sep !in x
    ensures Split(x + [sep] + rest, sep) == [x] + Split(rest, sep)
  {
    SplitAround(x, rest, sep);
    SplitNoSeparator(x, sep);
  }

  /** ASCII lower-casing of one character (`toLowerCase` restricted to ASCII). */
  function ToLowerChar(c: char): char
  {
    if 'A' <= c <= 'Z' then (c as int + 32) as char else c
  }

  /** ASCII upper-casing of one character (`toUpperCase` restricted to ASCII). */
  function ToUpperChar(c: char): char
  {
    if 'a' <= c <= 'z' then (c as int - 32) as char else c
  }

  /** `toLowerCase()` over ASCII letters: changes letters only, keeps the length. */
  function ToLower(s: string): (r: string)
    ensures |r| == |s|
    ensures forall i :: 0 <= i < |s| ==> r[i] == ToLowerChar(s[i])
  {
    if |s| == 0 then "" else [ToLowerChar(s[0])] + ToLower(s[1..])
  }

  /** Lower-casing only touches letters, so any non-letter character is kept or absent alike. */
  lemma ToLowerKeepsNonLetter(s: string, c: char)
    requires !('A' <= c <= 'Z') && !('a' <= c <= 'z')
    ensures c in ToLower(s) <==> c in s
  {
    var r := ToLower(s);
    if c in r {
      var i :| 0 <= i < |r| && r[i] == c;
      assert s[i] == c;
    }
    if c in s {
      var i :| 0 <= i < |s| && s[i] == c;
      assert r[i] == c;
    }
  }
}
