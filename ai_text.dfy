/** The generative-AI service as the actions see it, and the normaliser they
    apply to its replies (actions/dashboard.js:55, actions/interview.js:186):
    every match of the pattern /```(?:json)?\n?/g is removed, then the text is
    trimmed. */
module AiText {
  import opened Wrappers
  import opened Text

  /** One call to the text-generation model: it either returns text or throws
      (network failure, rejected request, missing response). */
  datatype AiReply = Replied(text: string) | Threw

  /** `if (!apiKey)`: an unset or empty `GEMINI_API_KEY` routes to the fallback. */
  predicate Configured(apiKey: Option<string>) {
    apiKey.Some? && apiKey.value != ""
  }

  /** A fence marker "```" starts at the front of `s`. */
  predicate StartsWithFence(s: string) {
    |s| >= 3 && s[0] == '`' && s[1] == '`' && s[2] == '`'
  }

  /** Some "```" occurs somewhere in `s`. */
  predicate ContainsFence(s: string)
    decreases |s|
  {
    |s| >= 3 && (StartsWithFence(s) || ContainsFence(s[1..]))
  }

  predicate NoBacktick(s: string) {
    forall k :: 0 <= k < |s| ==> s[k] != '`'
  }

  /** `s` begins with the letters of the `json` tag. */
  predicate StartsWithJson(s: string) {
    |s| >= 4 && s[0] == 'j' && s[1] == 's' && s[2] == 'o' && s[3] == 'n'
  }

  /** The optional `json` tag after a fence. */
  function SkipTag(s: string): string {
    if StartsWithJson(s) then s[4..] else s
  }

  /** The optional newline after a fence and its tag. */
  function SkipNewline(s: string): string {
    if |s| >= 1 && s[0] == '\n' then s[1..] else s
  }

  /** `s.replace(/```(?:json)?\n?/g, "")`: scanning left to right, each "```"
      is dropped together with a directly following "json" and then a directly
      following newline; scanning resumes after the removed text. Text that
      holds no fence is returned unchanged. */
  function StripFences(s: string): (r: string)
    ensures |r| <= |s|
    decreases |s|
  {
    if StartsWithFence(s) then StripFences(SkipNewline(SkipTag(s[3..])))
    else if s == [] then []
    else [s[0]] + StripFences(s[1..])
  }

  /** Text that holds no fence is returned unchanged. */
  lemma {:induction false} StripFencesPlain(s: string)
    requires !ContainsFence(s)
    ensures StripFences(s) == s
    decreases |s|
  {
    if s != [] {
      assert !ContainsFence(s[1..]);
      StripFencesPlain(s[1..]);
    }
  }

  /** `text.replace(/```(?:json)?\n?/g, "").trim()`. */
  function Clean(s: string): (r: string)
    ensures Trimmed(r)
  {
    Trim(StripFences(s))
  }

  /** The characters in front of the first fence are copied as they are. */
  lemma {:induction false} StripFencesKeepsPlainPrefix(p: string, s: string)
    requires NoBacktick(p)
    ensures StripFences(p + s) == p + StripFences(s)
  {
    if p == [] {
      assert p + s == s;
    } else {
      StripFencesKeepsPlainPrefix(p[1..], s);
      SplitFirst(p, s);
      StripFencesKeepsChar(p[0], p[1..] + s);
      SplitFirst(p, StripFences(s));
    }
  }

  /** A concatenation, regrouped around the first character of its left part. */
  lemma SplitFirst(p: string, x: string)
    requires p != []
    ensures p + x == [p[0]] + (p[1..] + x)
  {
    assert p == [p[0]] + p[1..];
  }

  /** A character other than a backtick in front is copied. */
  lemma StripFencesKeepsChar(c: char, s: string)
    requires c != '`'
    ensures StripFences([c] + s) == [c] + StripFences(s)
  {
    var q := [c] + s;
    assert q[0] == c && q[1..] == s;
  }

  /** No "```" survives the removal: a backtick is kept only when fewer than
      three backticks start at its position, and the scan never lets a kept
      backtick touch a later removed marker. */
  lemma {:induction false} StripFencesLeavesNoFence(s: string)
    ensures !ContainsFence(StripFences(s))
    decreases |s|
  {
    if StartsWithFence(s) {
      StripFencesLeavesNoFence(SkipNewline(SkipTag(s[3..])));
    } else if s != [] {
      var rest := StripFences(s[1..]);
      StripFencesLeavesNoFence(s[1..]);
      assert ([s[0]] + rest)[1..] == rest;
      if s[0] == '`' && |s| >= 2 {
        // s[1..] does not start a fence, or s itself would
        assert !StartsWithFence(s[1..]);
        assert rest == [s[1]] + StripFences(s[2..]);
        if s[1] == '`' && |s| >= 3 {
          assert s[2] != '`';
          assert !StartsWithFence(s[2..]);
          assert StripFences(s[2..]) == [s[2]] + StripFences(s[3..]);
        }
      }
    }
  }

  /** Dropping the last character cannot create a fence. */
  lemma {:induction false} NoFenceDropLast(s: string)
    requires |s| > 0 && !ContainsFence(s)
    ensures !ContainsFence(s[..|s| - 1])
    decreases |s|
  {
    var t := s[..|s| - 1];
    if |t| >= 3 {
      assert t[0] == s[0] && t[1] == s[1] && t[2] == s[2];
      assert t[1..] == s[1..][..|s[1..]| - 1];
      NoFenceDropLast(s[1..]);
    }
  }

  /** A fence in a slice is a fence in the whole string. */
  lemma {:induction false} SliceKeepsNoFence(s: string, i: nat, j: nat)
    requires i <= j <= |s|
    requires !ContainsFence(s)
    ensures !ContainsFence(s[i..j])
    decreases |s|
  {
    if |s| < 3 {
    } else if i > 0 {
      assert s[i..j] == s[1..][i - 1..j - 1];
      SliceKeepsNoFence(s[1..], i - 1, j - 1);
    } else if j < |s| {
      NoFenceDropLast(s);
      assert s[i..j] == s[..|s| - 1][i..j];
      SliceKeepsNoFence(s[..|s| - 1], i, j);
    } else {
      assert s[i..j] == s;
    }
  }

  /** Text without backticks has no fence. */
  lemma {:induction false} NoBacktickNoFence(s: string)
    requires NoBacktick(s)
    ensures !ContainsFence(s)
    decreases |s|
  {
    if |s| >= 3 {
      NoBacktickNoFence(s[1..]);
    }
  }

  /** Cleaned text holds no fence: none survives the removal, and trimming
      only cuts a slice out of the text. */
  lemma CleanLeavesNoFence(s: string)
    ensures !ContainsFence(Clean(s))
  {
    var t := StripFences(s);
    var c := Trim(t);
    StripFencesLeavesNoFence(s);
    var i := SkipSpaces(t, 0);
    SliceKeepsNoFence(t, i, BackSpaces(t, i, |t|));
  }

  /** Cleaning is idempotent. */
  lemma CleanIdempotent(s: string)
    ensures Clean(Clean(s)) == Clean(s)
  {
    var c := Clean(s);
    CleanLeavesNoFence(s);
    StripFencesPlain(c);
    TrimmedIsFixed(c);
  }

  /** Text without backticks cleans to its trimmed self. */
  lemma CleanPlain(j: string)
    requires NoBacktick(j)
    ensures Clean(j) == Trim(j)
  {
    NoBacktickNoFence(j);
    StripFencesPlain(j);
  }

  /** A reply fenced as "```json\n" + J + "```" cleans exactly like the bare
      J, namely to J trimmed. */
  lemma CleanJsonFence(j: string)
    requires NoBacktick(j)
    ensures Clean("```json\n" + j + "```") == Trim(j)
    ensures Clean("```json\n" + j + "```") == Clean(j)
  {
    var v := j + "```";
    JsonFenceShape(j);
    StripOpeningFence("json\n" + v);
    SkipJsonLine(v);
    StripPlainThenFence(j);
    CleanPlain(j);
  }

  /** How "```json\n" + J + "```" splits into the opening fence and the rest. */
  lemma JsonFenceShape(j: string)
    ensures "```json\n" + j + "```" == "```" + ("json\n" + (j + "```"))
  {
  }

  /** The tag and the newline after an opening fence are both dropped. */
  lemma SkipJsonLine(v: string)
    ensures SkipNewline(SkipTag("json\n" + v)) == v
  {
    var u := "json\n" + v;
    assert StartsWithJson(u) && u[4..] == "\n" + v;
    assert ("\n" + v)[1..] == v;
  }

  /** An opening fence goes, with the tag and the newline after it. */
  lemma StripOpeningFence(u: string)
    ensures StripFences("```" + u) == StripFences(SkipNewline(SkipTag(u)))
  {
    var s := "```" + u;
    assert StartsWithFence(s) && s[3..] == u;
  }

  /** A lone closing fence disappears. */
  lemma StripClosingFence()
    ensures StripFences("```") == ""
  {
    assert StartsWithFence("```");
    assert "```"[3..] == "";
  }

  /** Plain text followed by a closing fence keeps only the plain text. */
  lemma StripPlainThenFence(j: string)
    requires NoBacktick(j)
    ensures StripFences(j + "```") == j
  {
    StripFencesKeepsPlainPrefix(j, "```");
    StripClosingFence();
    assert j + "" == j;
  }

  /** Without a "json" tag in front, the tag step leaves the text alone. */
  lemma SkipTagUntagged(j: string)
    requires NoBacktick(j)
    requires !StartsWithJson(j)
    ensures SkipTag(j + "```") == j + "```"
  {
    var u := j + "```";
    if |j| < 4 {
      assert u[|j|] == '`';
    } else {
      assert u[0] == j[0] && u[1] == j[1] && u[2] == j[2] && u[3] == j[3];
    }
  }

  /** A bare "```" + J + "```" fence also cleans to J trimmed, unless J itself
      begins with "json": the pattern would swallow those four letters. */
  lemma CleanBareFence(j: string)
    requires NoBacktick(j)
    requires !StartsWithJson(j)
    ensures Clean("```" + j + "```") == Trim(j)
  {
    var s := "```" + j + "```";
    var u := j + "```";
    assert StartsWithFence(s);
    assert s[3..] == u;
    SkipTagUntagged(j);
    if |j| >= 1 && j[0] == '\n' {
      assert SkipNewline(u) == j[1..] + "```";
      StripPlainThenFence(j[1..]);
      assert StripFences(s) == j[1..];
      assert j == [j[0]] + j[1..];
      TrimSkipsLeadingSpace([j[0]], j[1..]);
    } else {
      assert SkipNewline(u) == u;
      StripPlainThenFence(j);
      assert StripFences(s) == j;
    }
  }

  /** The pattern's quirk: after a bare fence, a leading "json" is removed
      even when it is part of the payload ("```jsonData```" cleans to "Data"). */
  lemma CleanEatsLeadingJson(j: string)
    requires NoBacktick(j)
    requires !(|j| >= 1 && j[0] == '\n')
    ensures Clean("```json" + j + "```") == Trim(j)
  {
    var s := "```json" + j + "```";
    var u := "json" + j + "```";
    assert StartsWithFence(s);
    assert s[3..] == u;
    assert StartsWithJson(u);
    assert SkipTag(u) == j + "```";
    if |j| == 0 {
      assert (j + "```")[0] == '`';
    } else {
      assert (j + "```")[0] == j[0];
    }
    assert SkipNewline(j + "```") == j + "```";
    StripPlainThenFence(j);
  }
}
