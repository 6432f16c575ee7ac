/** The reply-cleaning chain shared by the four analysis modules:
    `raw.replace("```json", "").replace("```", "").strip()`, which removes the
    Markdown code fences a model puts around its JSON before `json.loads`. */
module Fences {
  import opened Text

  const Fence := "```"
  const JsonFence := "```json"

  /** A fence starts at `i` exactly when three backticks do. */
  lemma FenceAt(s: string, i: int)
    requires 0 <= i && i + 3 <= |s|
    ensures OccursAt(s, Fence, i) <==> s[i] == '`' && s[i + 1] == '`' && s[i + 2] == '`'
  {
    if s[i] == '`' && s[i + 1] == '`' && s[i + 2] == '`' {
      assert s[i..i + 3] == Fence;
    }
  }

  /** A backtick that `replace` keeps is never followed, in the result, by
      two more: had they followed it in the input, a fence would have started
      at the kept backtick and been removed. */
  lemma KeptBacktickEndsRun(s: string)
    requires |s| > 0 && s[0] == '`' && !OccursAt(s, Fence, 0)
    ensures var t := RemoveAll(s[1..], Fence); |t| < 2 || t[0] != '`' || t[1] != '`'
  {
    var s1 := s[1..];
    if |s| == 2 && s[1] == '`' {
      assert s1 == "`";
      RemoveAllHead(s1, Fence);
    } else if |s| >= 2 {
      if s[1] != '`' {
        RemoveAllHead(s1, Fence);
      } else {
        FenceAt(s, 0);
        assert s[2] != '`';
        RemoveAllHead(s1, Fence);
        assert s1[1..] == s[2..];
        RemoveAllHead(s[2..], Fence);
      }
    }
  }

  /** No "```" survives `s.replace("```", "")`, whatever `s` holds, so also
      when the earlier "```json" removal brought backticks together: a kept
      backtick is never followed by two more in the result. */
  lemma {:induction false} NoFenceAfterRemoval(s: string)
    ensures Absent(RemoveAll(s, Fence), Fence)
    decreases |s|
  {
    var r := RemoveAll(s, Fence);
    if |s| == 0 {
      assert forall i :: !OccursAt(r, Fence, i);
    } else if |Fence| <= |s| && s[..3] == Fence {
      NoFenceAfterRemoval(s[3..]);
    } else {
      var t := RemoveAll(s[1..], Fence);
      NoFenceAfterRemoval(s[1..]);
      assert r == [s[0]] + t;
      forall i ensures !OccursAt(r, Fence, i) {
        if 1 <= i && i + 3 <= |r| {
          assert !OccursAt(t, Fence, i - 1);
          assert r[i..i + 3] == t[i - 1..i + 2];
        } else if i == 0 && 3 <= |r| {
          FenceAt(r, 0);
          if s[0] == '`' {
            KeptBacktickEndsRun(s);
          }
        }
      }
    }
  }

  /** A string with no backtick is left alone by either removal. */
  lemma RemoveAllNoBacktick(s: string, p: string)
    requires |p| > 0 && p[0] == '`' && '`' !in s
    ensures RemoveAll(s, p) == s
  {
    RemoveAllCopiesPrefix(s, "", p);
    assert s + "" == s;
  }

  /** The cleaned reply handed to `json.loads`: contains no "```" (hence no
      "```json" either), has no whitespace at either end and is never longer
      than the raw reply. */
  function Clean(raw: string): (r: string)
    ensures |r| <= |raw|
    ensures Absent(r, Fence) && Absent(r, JsonFence)
    ensures Trimmed(r)
  {
    var unfenced := RemoveAll(RemoveAll(raw, JsonFence), Fence);
    StrippedFenceFree(RemoveAll(raw, JsonFence));
    Strip(unfenced)
  }

  /** Whatever the first removal left, the second removal and the strip leave
      no fence, tagged or not. */
  lemma StrippedFenceFree(untagged: string)
    ensures Absent(Strip(RemoveAll(untagged, Fence)), Fence)
    ensures Absent(Strip(RemoveAll(untagged, Fence)), JsonFence)
  {
    var unfenced := RemoveAll(untagged, Fence);
    NoFenceAfterRemoval(untagged);
    StripKeepsAbsent(unfenced, Fence);
    NoJsonFence(Strip(unfenced));
  }

  /** "```json" starts with "```", so a text free of the one is free of the
      other. */
  lemma NoJsonFence(s: string)
    requires Absent(s, Fence)
    ensures Absent(s, JsonFence)
  {
    assert Fence + "json" == JsonFence;
    AbsentExtended(s, Fence, "json");
  }

  /** Cleaning a cleaned reply changes nothing. */
  lemma CleanIdempotent(raw: string)
    ensures Clean(Clean(raw)) == Clean(raw)
  {
    var c := Clean(raw);
    RemoveAllAbsent(c, JsonFence);
    RemoveAllAbsent(c, Fence);
    StripTrimmed(c);
  }

  /** A reply wrapped as "```json" + body + "```", with no backtick in the
      body, cleans to the body without its surrounding whitespace. */
  lemma CleanFenced(body: string)
    requires '`' !in body
    ensures Clean(JsonFence + body + Fence) == Strip(body)
  {
    assert JsonFence + body + Fence == JsonFence + (body + Fence);
    RemoveAllLeading(JsonFence, body + Fence);
    RemoveAllCopiesPrefix(body, Fence, JsonFence);
    RemoveAllAbsent(Fence, JsonFence) by {
      assert forall i :: !OccursAt(Fence, JsonFence, i);
    }
    RemoveAllCopiesPrefix(body, Fence, Fence);
    RemoveAllLeading(Fence, "");
    assert Fence + "" == Fence;
    assert body + "" == body;
  }

  /** A reply without backticks is only stripped. */
  lemma CleanUnfenced(raw: string)
    requires '`' !in raw
    ensures Clean(raw) == Strip(raw)
  {
    RemoveAllNoBacktick(raw, JsonFence);
    RemoveAllNoBacktick(raw, Fence);
  }
}
