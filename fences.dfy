/**
  Removal of Markdown code fences from a model completion. Both backends use
  the same rule: when the left-trimmed completion starts with three backticks,
  the stripped text goes through
  `re.sub(r"^```(\w+)?\s*|```$", "", text, flags=re.DOTALL)` and is stripped
  again; otherwise the completion is left as it is.
 */
module Fences {
  import opened Text

  const Fence := "```"

  /** Index just past the run of characters satisfying `p` that starts at `i`. */
  function RunEnd(t: string, i: nat, p: char -> bool): (j: nat)
    requires i <= |t|
    ensures i <= j <= |t|
    ensures forall k :: i <= k < j ==> p(t[k])
    ensures j == |t| || !p(t[j])
    decreases |t| - i
  {
    if i < |t| && p(t[i]) then RunEnd(t, i + 1, p) else i
  }

  /**
    End of the match of the first alternative, "```(\w+)?\s*" anchored at the
    start (both repetitions greedy); 0 when `t` does not start with a fence,
    since the anchor lets it match nowhere else.
   */
  function OpeningFenceEnd(t: string): (a: nat)
    ensures a <= |t|
    ensures StartsWith(t, Fence) ==> 3 <= a
  {
    if StartsWith(t, Fence) then RunEnd(t, RunEnd(t, 3, IsWordChar), IsPySpace) else 0
  }

  /**
    Python `re.sub(r"^```(\w+)?\s*|```$", "", t, flags=re.DOTALL)`. After the
    opening match the scan resumes at its end, and the second alternative can
    only match a fence that ends the text or stands just before a final newline
    (Python's `$` without MULTILINE).
   */
  function RemoveFenceMarks(t: string): string {
    var a := OpeningFenceEnd(t);
    if EndsWith(t, Fence) && |t| - 3 >= a then t[a..|t| - 3]
    else if EndsWith(t, Fence + "\n") && |t| - 4 >= a then t[a..|t| - 4] + "\n"
    else t[a..]
  }

  /** The conditional fence stripping of `grab_json`, `analyze_prompt` and `suggest_improvements`. */
  function StripFences(s: string): (r: string)
    ensures !StartsWith(PyLStrip(s), Fence) ==> r == s
    ensures StartsWith(PyLStrip(s), Fence) ==>
              r == PyStrip(r) && exists i :: InfixAt(r, s, i)
  {
    if StartsWith(PyLStrip(s), Fence) then
      var t := PyStrip(s);
      var m := RemoveFenceMarks(t);
      StripOfSliceIsInfix(s, t, m);
      StripIsIdempotent(m);
      PyStrip(m)
    else s
  }

  /** A completion wrapped in a fence with an optional word tag on the opening line. */
  function Fenced(tag: string, body: string): string {
    Fence + tag + "\n" + body + "\n" + Fence
  }

  lemma FencedShape(tag: string, body: string)
    ensures var s := Fenced(tag, body);
            && |s| == |tag| + |body| + 8
            && s[..3] == Fence && s[|s| - 3..] == Fence
            && s[3..3 + |tag|] == tag
            && s[3 + |tag|..|s| - 3] == "\n" + body + "\n"
  {
  }

  /** Removing the fence recovers the stripped body, whatever the body is. */
  lemma {:induction false} FencedRoundTrip(tag: string, body: string)
    requires forall k :: 0 <= k < |tag| ==> IsWordChar(tag[k])
    ensures StripFences(Fenced(tag, body)) == PyStrip(body)
  {
    FencedStripUnfold(tag, body);
    FencedInnerStrip(tag, body);
    StripNewlines(body);
  }

  lemma StripNewlines(body: string)
    ensures PyStrip("\n" + body + "\n") == PyStrip(body)
  {
    StripSurroundingSpace("\n", body, "\n");
  }

  lemma FencedStripUnfold(tag: string, body: string)
    ensures StripFences(Fenced(tag, body)) == PyStrip(RemoveFenceMarks(Fenced(tag, body)))
  {
    var s := Fenced(tag, body);
    FencedIsStripped(tag, body);
    assert StartsWith(PyLStrip(s), Fence);
  }

  /** What is left between the fence marks strips to the stripped body's surroundings. */
  lemma FencedInnerStrip(tag: string, body: string)
    requires forall k :: 0 <= k < |tag| ==> IsWordChar(tag[k])
    ensures PyStrip(RemoveFenceMarks(Fenced(tag, body))) == PyStrip("\n" + body + "\n")
  {
    var s := Fenced(tag, body);
    var e := 3 + |tag|;
    var a := OpeningFenceEnd(s);
    FencedOpening(tag, body);
    FencedSplit(tag, body, a);
    StripSpacePrefix(s[e..a], s[a..|s| - 3]);
  }

  /** The text between the tag and the closing fence, cut where the opening match ends. */
  lemma FencedSplit(tag: string, body: string, a: nat)
    requires 3 + |tag| <= a <= |Fenced(tag, body)| - 3
    ensures var s := Fenced(tag, body);
            s[3 + |tag|..a] + s[a..|s| - 3] == "\n" + body + "\n"
  {
    var s := Fenced(tag, body);
    FencedShape(tag, body);
    assert s[3 + |tag|..a] + s[a..|s| - 3] == s[3 + |tag|..|s| - 3];
  }

  /** Python `strip()` ignores leading whitespace. */
  lemma StripSpacePrefix(pre: string, w: string)
    requires forall k :: 0 <= k < |pre| ==> IsPySpace(pre[k])
    ensures PyStrip(pre + w) == PyStrip(w)
  {
    DropLeadingSpacePrefix(pre, w, IsPySpace);
  }

  lemma FencedIsStripped(tag: string, body: string)
    ensures var s := Fenced(tag, body);
            PyLStrip(s) == s && PyStrip(s) == s && StartsWith(s, Fence) && EndsWith(s, Fence)
  {
    var s := Fenced(tag, body);
    FencedShape(tag, body);
    var n := |s|;
    assert s[0] == '`' && s[n - 1] == '`' by {
      assert s[0] == s[..3][0] && s[n - 1] == s[n - 3..][2];
    }
  }

  /** The opening match ends after the tag and the whitespace that follows it. */
  lemma FencedOpening(tag: string, body: string)
    requires forall k :: 0 <= k < |tag| ==> IsWordChar(tag[k])
    ensures var s := Fenced(tag, body);
            var a := OpeningFenceEnd(s);
            && 3 + |tag| < a <= |s| - 3
            && (forall k :: 3 + |tag| <= k < a ==> IsPySpace(s[k]))
            && RemoveFenceMarks(s) == s[a..|s| - 3]
  {
    var s := Fenced(tag, body);
    FencedShape(tag, body);
    FencedIsStripped(tag, body);
    var n := |s|;
    var e := 3 + |tag|;
    assert s[e] == '\n' by { assert s[e] == s[e..n - 3][0]; }
    forall k | 3 <= k < e ensures IsWordChar(s[k]) {
      assert s[k] == s[3..e][k - 3];
    }
    RunEndOver(s, 3, e, IsWordChar);
    var a := RunEnd(s, e, IsPySpace);
    assert a <= n - 3 by {
      assert s[n - 3] == s[n - 3..][0];
    }
    assert OpeningFenceEnd(s) == a;
  }

  lemma {:induction false} RunEndOver(t: string, i: nat, j: nat, p: char -> bool)
    requires i <= j < |t|
    requires forall k :: i <= k < j ==> p(t[k])
    requires !p(t[j])
    ensures RunEnd(t, i, p) == j
    decreases j - i
  {
    if i < j { RunEndOver(t, i + 1, j, p); }
  }

  lemma {:induction false} DropLeadingSpacePrefix(pre: string, w: string, sp: char -> bool)
    requires forall k :: 0 <= k < |pre| ==> sp(pre[k])
    ensures DropLeading(pre + w, sp) == DropLeading(w, sp)
    decreases |pre|
  {
    if pre != [] {
      assert (pre + w)[0] == pre[0] && sp(pre[0]);
      assert (pre + w)[1..] == pre[1..] + w;
      DropLeadingSpacePrefix(pre[1..], w, sp);
    } else {
      assert pre + w == w;
    }
  }

  lemma {:induction false} DropTrailingSpaceSuffix(w: string, suf: string, sp: char -> bool)
    requires forall k :: 0 <= k < |suf| ==> sp(suf[k])
    ensures DropTrailing(w + suf, sp) == DropTrailing(w, sp)
    decreases |suf|
  {
    if suf != [] {
      var n := |w + suf|;
      assert (w + suf)[n - 1] == suf[|suf| - 1] && sp(suf[|suf| - 1]);
      assert (w + suf)[..n - 1] == w + suf[..|suf| - 1];
      DropTrailingSpaceSuffix(w, suf[..|suf| - 1], sp);
    } else {
      assert w + suf == w;
    }
  }

  lemma {:induction false} DropLeadingAppend(w: string, suf: string, sp: char -> bool)
    ensures DropLeading(w + suf, sp) ==
            if DropLeading(w, sp) == [] then DropLeading(suf, sp) else DropLeading(w, sp) + suf
    decreases |w|
  {
    if w != [] {
      assert (w + suf)[0] == w[0];
      assert (w + suf)[1..] == w[1..] + suf;
      if sp(w[0]) { DropLeadingAppend(w[1..], suf, sp); }
    } else {
      assert w + suf == suf;
    }
  }

  /** Python `strip()` ignores whitespace added on either side. */
  lemma StripSurroundingSpace(pre: string, w: string, suf: string)
    requires forall k :: 0 <= k < |pre| ==> IsPySpace(pre[k])
    requires forall k :: 0 <= k < |suf| ==> IsPySpace(suf[k])
    ensures PyStrip(pre + w + suf) == PyStrip(w)
  {
    assert pre + w + suf == pre + (w + suf);
    DropLeadingSpacePrefix(pre, w + suf, IsPySpace);
    DropLeadingAppend(w, suf, IsPySpace);
    var l := DropLeading(w, IsPySpace);
    if l != [] {
      DropTrailingSpaceSuffix(l, suf, IsPySpace);
    } else {
      DropLeadingIsSuffix(suf, IsPySpace);
    }
  }

  lemma StripIsIdempotent(s: string)
    ensures PyStrip(PyStrip(s)) == PyStrip(s)
  {
    var t := PyStrip(s);
    DropTrailingIsPrefix(DropLeading(s, IsPySpace), IsPySpace);
    assert DropLeading(t, IsPySpace) == t;
  }

  /** Where `PyStrip(s)` starts inside `s`. */
  lemma StripIsSlice(s: string) returns (x: nat)
    ensures InfixAt(PyStrip(s), s, x)
  {
    var l := DropLeading(s, IsPySpace);
    x := |s| - |l|;
    var t := PyStrip(s);
    DropLeadingIsSuffix(s, IsPySpace);
    DropTrailingIsPrefix(l, IsPySpace);
    assert t == l[..|t|];
  }

  lemma InfixTrans(x: string, y: string, z: string, i: nat, j: nat)
    requires InfixAt(x, y, i) && InfixAt(y, z, j)
    ensures InfixAt(x, z, i + j)
  {
    forall k | 0 <= k < |x| ensures x[k] == z[i + j + k] {
      assert x[k] == y[i + k];
    }
  }

  lemma LStripFenceKeepsFence(s: string)
    requires StartsWith(PyLStrip(s), Fence)
    ensures StartsWith(PyStrip(s), Fence)
  {
    var l := PyLStrip(s);
    var t := PyStrip(s);
    DropTrailingIsPrefix(l, IsPySpace);
    assert l[2] == '`';
    assert |t| >= 3;
    assert t[..3] == l[..3];
  }

  /** Stripping a text that was cut out of the stripped `s` yields a piece of `s`. */
  lemma StripOfSliceIsInfix(s: string, t: string, m: string)
    requires StartsWith(PyLStrip(s), Fence)
    requires t == PyStrip(s)
    requires m == RemoveFenceMarks(t)
    ensures exists i :: InfixAt(PyStrip(m), s, i)
  {
    var x := StripIsSlice(s);
    var a := MarksRemovedIsSlice(s, t);
    var y := StripIsSlice(m);
    var i := InfixTrans3(PyStrip(m), m, t, s, y, a, x);
  }

  lemma InfixTrans3(w: string, x: string, y: string, z: string, i: nat, j: nat, k: nat) returns (p: nat)
    requires InfixAt(w, x, i) && InfixAt(x, y, j) && InfixAt(y, z, k)
    ensures InfixAt(w, z, p)
  {
    InfixTrans(x, y, z, j, k);
    InfixTrans(w, x, z, i, j + k);
    p := i + j + k;
  }

  /** On a stripped fenced text the removal only cuts off both ends. */
  lemma MarksRemovedIsSlice(s: string, t: string) returns (a: nat)
    requires StartsWith(PyLStrip(s), Fence)
    requires t == PyStrip(s)
    ensures InfixAt(RemoveFenceMarks(t), t, a)
  {
    StrippedEndsInNonSpace(s);
    a := OpeningFenceEnd(t);
    MarksRemovedAt(t);
  }

  lemma StrippedEndsInNonSpace(s: string)
    ensures var t := PyStrip(s); !EndsWith(t, Fence + "\n")
  {
    var t := PyStrip(s);
    if |t| >= 4 {
      assert t[|t| - 1] != '\n' by { assert IsPySpace('\n'); }
      assert t[|t| - 4..][3] == t[|t| - 1];
    }
  }

  lemma MarksRemovedAt(t: string)
    requires !EndsWith(t, Fence + "\n")
    ensures InfixAt(RemoveFenceMarks(t), t, OpeningFenceEnd(t))
  {
  }
}
