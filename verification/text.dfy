/** The Python string operations the analysis modules and the chat endpoint
    rely on: `s.replace(p, "")`, `s.strip()` and `"\n".join(docs)`, with
    the semantics CPython gives them. */
module Text {

  // ---------------------------------------------------------------------
  // Occurrences of a pattern
  // ---------------------------------------------------------------------

  /** `p` occurs in `s` starting at index `i`. */
  predicate OccursAt(s: string, p: string, i: int) {
    0 <= i && i + |p| <= |s| && s[i..i + |p|] == p
  }

  /** `p not in s`. */
  ghost predicate Absent(s: string, p: string) {
    forall i :: !OccursAt(s, p, i)
  }

  lemma AbsentInSuffix(s: string, p: string, k: nat)
    requires Absent(s, p) && k <= |s|
    ensures Absent(s[k..], p)
  {
    forall i ensures !OccursAt(s[k..], p, i) {
      assert !OccursAt(s, p, i + k);
      if 0 <= i && i + |p| <= |s| - k {
        assert s[k..][i..i + |p|] == s[i + k..i + k + |p|];
      }
    }
  }

  lemma AbsentInPrefix(s: string, p: string, k: nat)
    requires Absent(s, p) && k <= |s|
    ensures Absent(s[..k], p)
  {
    forall i ensures !OccursAt(s[..k], p, i) {
      assert !OccursAt(s, p, i);
      if 0 <= i && i + |p| <= k {
        assert s[..k][i..i + |p|] == s[i..i + |p|];
      }
    }
  }

  /** A string free of `p` is also free of every pattern that starts with `p`
      (no "```json" survives where no "```" does). */
  lemma AbsentExtended(s: string, p: string, q: string)
    requires Absent(s, p)
    ensures Absent(s, p + q)
  {
    forall i ensures !OccursAt(s, p + q, i) {
      assert !OccursAt(s, p, i);
      if 0 <= i && i + |p + q| <= |s| {
        assert s[i..i + |p + q|][..|p|] == s[i..i + |p|];
        assert (p + q)[..|p|] == p;
      }
    }
  }

  // ---------------------------------------------------------------------
  // str.replace(p, "")
  // ---------------------------------------------------------------------

  /** `s.replace(p, "")`: scan left to right and drop each non-overlapping
      occurrence of `p`, the leftmost first. */
  function RemoveAll(s: string, p: string): (r: string)
    requires |p| > 0
    ensures |r| <= |s|
    decreases |s|
  {
    if |s| == 0 then s
    else if |p| <= |s| && s[..|p|] == p then RemoveAll(s[|p|..], p)
    else [s[0]] + RemoveAll(s[1..], p)
  }

  /** Removing a pattern that does not occur changes nothing. */
  lemma {:induction false} RemoveAllAbsent(s: string, p: string)
    requires |p| > 0 && Absent(s, p)
    ensures RemoveAll(s, p) == s
    decreases |s|
  {
    if |s| > 0 {
      assert !OccursAt(s, p, 0);
      AbsentInSuffix(s, p, 1);
      RemoveAllAbsent(s[1..], p);
      assert s == [s[0]] + s[1..];
    }
  }

  /** A leading part holding no first character of `p` is copied unchanged. */
  lemma {:induction false} RemoveAllCopiesPrefix(x: string, y: string, p: string)
    requires |p| > 0 && p[0] !in x
    ensures RemoveAll(x + y, p) == x + RemoveAll(y, p)
    decreases |x|
  {
    if |x| > 0 {
      var s := x + y;
      assert s[0] == x[0] != p[0];
      assert |p| <= |s| ==> s[..|p|][0] != p[0];
      assert s[1..] == x[1..] + y;
      RemoveAllCopiesPrefix(x[1..], y, p);
      calc {
        RemoveAll(x + y, p);
        [s[0]] + RemoveAll(s[1..], p);
        [x[0]] + (x[1..] + RemoveAll(y, p));
        { assert x == [x[0]] + x[1..]; }
        x + RemoveAll(y, p);
      }
    } else {
      assert x + y == y;
    }
  }

  /** An occurrence at the front is dropped. */
  lemma RemoveAllLeading(p: string, y: string)
    requires |p| > 0
    ensures RemoveAll(p + y, p) == RemoveAll(y, p)
  {
    assert (p + y)[..|p|] == p;
    assert (p + y)[|p|..] == y;
  }

  /** When `s` does not start with `p`, its first character is kept. */
  lemma RemoveAllHead(s: string, p: string)
    requires |p| > 0 && |s| > 0 && !OccursAt(s, p, 0)
    ensures RemoveAll(s, p) == [s[0]] + RemoveAll(s[1..], p)
  {
  }

  // ---------------------------------------------------------------------
  // str.strip()
  // ---------------------------------------------------------------------

  /** `c.isspace()` in CPython: the ASCII controls TAB..CR and the file,
      group, record and unit separators, the space, NEL, NO-BREAK SPACE and
      the Unicode space separators, line and paragraph separators. */
  predicate IsSpace(c: char) {
    ('\t' <= c <= '\r') || ('\U{1C}' <= c <= '\U{20}')
    || c == '\U{85}' || c == '\U{A0}' || c == '\U{1680}'
    || ('\U{2000}' <= c <= '\U{200A}')
    || c == '\U{2028}' || c == '\U{2029}' || c == '\U{202F}'
    || c == '\U{205F}' || c == '\U{3000}'
  }

  /** Neither end of `s` is whitespace. */
  predicate Trimmed(s: string) {
    s == [] || (!IsSpace(s[0]) && !IsSpace(s[|s| - 1]))
  }

  /** `s.lstrip()`: the suffix left after dropping all leading whitespace. */
  function TrimStart(s: string): (r: string)
    ensures |r| <= |s| && r == s[|s| - |r|..]
    ensures r == [] || !IsSpace(r[0])
    ensures forall i :: 0 <= i < |s| - |r| ==> IsSpace(s[i])
  {
    if |s| > 0 && IsSpace(s[0]) then TrimStart(s[1..]) else s
  }

  /** `s.rstrip()`: the prefix left after dropping all trailing whitespace. */
  function TrimEnd(s: string): (r: string)
    ensures |r| <= |s| && r == s[..|r|]
    ensures r == [] || !IsSpace(r[|r| - 1])
    ensures forall i :: |r| <= i < |s| ==> IsSpace(s[i])
  {
    if |s| > 0 && IsSpace(s[|s| - 1]) then TrimEnd(s[..|s| - 1]) else s
  }

  /** `s` is `r` surrounded by `a` leading and some trailing whitespace. */
  predicate StripsTo(s: string, r: string, a: int) {
    0 <= a && a + |r| <= |s| && r == s[a..a + |r|]
    && (forall i :: 0 <= i < a ==> IsSpace(s[i]))
    && (forall i :: a + |r| <= i < |s| ==> IsSpace(s[i]))
  }

  /** `s.strip()`: the longest slice of `s` with no whitespace at either end,
      obtained by removing only whitespace. */
  function Strip(s: string): (r: string)
    ensures |r| <= |s| && Trimmed(r)
    ensures exists a :: StripsTo(s, r, a)
  {
    var t := TrimStart(s);
    var r := TrimEnd(t);
    TrimmedBothEnds(s, t, r);
    r
  }

  /** Trimming the front and then the back leaves a slice of `s` with only
      whitespace around it. */
  lemma TrimmedBothEnds(s: string, t: string, r: string)
    requires |t| <= |s| && t == s[|s| - |t|..]
    requires forall i :: 0 <= i < |s| - |t| ==> IsSpace(s[i])
    requires |r| <= |t| && r == t[..|r|]
    requires forall i :: |r| <= i < |t| ==> IsSpace(t[i])
    ensures StripsTo(s, r, |s| - |t|)
  {
    var a := |s| - |t|;
    assert r == s[a..a + |r|];
    forall i | a + |r| <= i < |s| ensures IsSpace(s[i]) {
      assert s[i] == t[i - a];
    }
  }

  /** Stripping keeps a pattern out: the result is a slice of its input. */
  lemma StripKeepsAbsent(s: string, p: string)
    requires Absent(s, p)
    ensures Absent(Strip(s), p)
  {
    var r := Strip(s);
    var a :| StripsTo(s, r, a);
    AbsentInSuffix(s, p, a);
    AbsentInPrefix(s[a..], p, |r|);
    assert s[a..][..|r|] == r;
  }

  /** Stripping a string with no whitespace at either end returns it. */
  lemma StripTrimmed(s: string)
    requires Trimmed(s)
    ensures Strip(s) == s
  {
  }

  // ---------------------------------------------------------------------
  // "\n".join(docs) and its inverse, text.split("\n")
  // ---------------------------------------------------------------------

  /** `"\n".join(docs)`. */
  function JoinLines(docs: seq<string>): string {
    if |docs| == 0 then ""
    else if |docs| == 1 then docs[0]
    else docs[0] + "\n" + JoinLines(docs[1..])
  }

  /** `text.split("\n")`: the pieces between newlines, at least one. */
  function SplitLines(text: string): (r: seq<string>)
    ensures |r| >= 1
  {
    if |text| == 0 then [""]
    else
      var rest := SplitLines(text[1..]);
      if text[0] == '\n' then [""] + rest
      else [[text[0]] + rest[0]] + rest[1..]
  }

  /** Joining the pieces of any text gives the text back. */
  lemma {:induction false} JoinSplit(text: string)
    ensures JoinLines(SplitLines(text)) == text
  {
    if |text| > 0 {
      var rest := SplitLines(text[1..]);
      JoinSplit(text[1..]);
      if text[0] == '\n' {
        assert SplitLines(text)[1..] == rest;
      } else {
        var pieces := SplitLines(text);
        assert pieces[0] == [text[0]] + rest[0];
        assert pieces[1..] == rest[1..];
        if |rest| == 1 {
          assert JoinLines(rest) == rest[0];
        } else {
          assert JoinLines(rest) == rest[0] + "\n" + JoinLines(rest[1..]);
        }
      }
      assert text == [text[0]] + text[1..];
    }
  }

  /** A newline-free piece followed by a newline splits off as one piece. */
  lemma {:induction false} SplitAfterLine(a: string, b: string)
    requires '\n' !in a
    ensures SplitLines(a + "\n" + b) == [a] + SplitLines(b)
    decreases |a|
  {
    var t := a + "\n" + b;
    if |a| == 0 {
      assert t == "\n" + b && t[1..] == b;
    } else {
      assert t[0] == a[0] && t[1..] == a[1..] + "\n" + b;
      SplitAfterLine(a[1..], b);
      assert a == [a[0]] + a[1..];
    }
  }

  /** A newline-free text is a single piece. */
  lemma {:induction false} SplitNoLine(a: string)
    requires '\n' !in a
    ensures SplitLines(a) == [a]
    decreases |a|
  {
    if |a| > 0 {
      SplitNoLine(a[1..]);
      assert a == [a[0]] + a[1..];
    }
  }

  /** Splitting a join of newline-free documents recovers the documents
      (an empty list joins to "" and splits to [""], hence `|docs| > 0`). */
  lemma {:induction false} SplitJoin(docs: seq<string>)
    requires |docs| > 0
    requires forall i :: 0 <= i < |docs| ==> '\n' !in docs[i]
    ensures SplitLines(JoinLines(docs)) == docs
  {
    if |docs| == 1 {
      SplitNoLine(docs[0]);
    } else {
      SplitJoin(docs[1..]);
      SplitAfterLine(docs[0], JoinLines(docs[1..]));
      assert docs == [docs[0]] + docs[1..];
    }
  }
}
