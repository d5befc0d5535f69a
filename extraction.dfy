/**
  `grab_json` of the assist backend: after the conditional fence stripping,
  `re.search(r"\{[\s\S]*?\}", text)` returns the text from the first `{` to
  the first `}` after it, or the helper raises
  `ValueError("No JSON object detected in LLM response")`.

  The lazy match stops at the first closing brace, not at the one that
  matches the opening brace, so a nested object is cut short; the balanced
  extractor below is the evidently intended behaviour.
 */
module Extraction {
  import opened Wrappers
  import opened Text
  import opened Fences

  const NoJsonMessage := "No JSON object detected in LLM response"

  /** The first index at or after `from` that holds `c`. */
  function IndexFrom(t: string, c: char, from: nat): (r: Option<nat>)
    requires from <= |t|
    ensures r.Some? ==> from <= r.value < |t| && t[r.value] == c
                        && forall k :: from <= k < r.value ==> t[k] != c
    ensures r.None? ==> forall k :: from <= k < |t| ==> t[k] != c
  {
    var i := IndexOf(t, c, from);
    if i < |t| then Some(i) else None
  }

  /** Some `{` in `t` is followed, somewhere later, by a `}`. */
  predicate HasBracePair(t: string) {
    exists i, j :: 0 <= i < j < |t| && t[i] == '{' && t[j] == '}'
  }

  /**
    `x` is the lazy match in `t` starting at `i`: `i` holds the first `{` of
    `t`, and `x` runs from there to the first `}` after it.
   */
  predicate FirstObjectAt(x: string, t: string, i: int) {
    && InfixAt(x, t, i)
    && 2 <= |x| && x[0] == '{' && x[|x| - 1] == '}'
    && (forall k :: 0 <= k < |x| - 1 ==> x[k] != '}')
    && (forall k :: 0 <= k < i ==> t[k] != '{')
  }

  predicate IsFirstObject(x: string, t: string) {
    exists i :: 0 <= i <= |t| && FirstObjectAt(x, t, i)
  }

  /** `re.search(r"\{[\s\S]*?\}", t)`. */
  function FirstObject(t: string): (r: Option<string>)
    ensures r.None? <==> !HasBracePair(t)
    ensures r.Some? ==> IsFirstObject(r.value, t)
  {
    match IndexFrom(t, '{', 0)
    case None => None
    case Some(i) =>
      match IndexFrom(t, '}', i + 1)
      case None => None
      case Some(j) =>
        SpanIsFirstObject(t, i, j);
        Some(t[i..j + 1])
  }

  /** The span from the first `{` to the first `}` after it is the lazy match. */
  lemma SpanIsFirstObject(t: string, i: nat, j: nat)
    requires i < j < |t| && t[i] == '{' && t[j] == '}'
    requires forall k :: 0 <= k < i ==> t[k] != '{'
    requires forall k :: i + 1 <= k < j ==> t[k] != '}'
    ensures FirstObjectAt(t[i..j + 1], t, i)
  {
    var x := t[i..j + 1];
    assert InfixAt(x, t, i);
    forall k | 0 <= k < |x| - 1 ensures x[k] != '}' {
      assert x[k] == t[i + k];
    }
  }

  /** `grab_json(obj_str)`. */
  function GrabJson(s: string): (r: Result<string, string>)
    ensures r.Err? <==> !HasBracePair(StripFences(s))
    ensures r.Err? ==> r.error == NoJsonMessage
    ensures r.Ok? ==> IsFirstObject(r.value, StripFences(s))
  {
    match FirstObject(StripFences(s))
    case None => Err(NoJsonMessage)
    case Some(x) => Ok(x)
  }

  /** The lazy match is determined by the text: there is only one. */
  lemma FirstObjectUnique(x: string, y: string, t: string)
    requires IsFirstObject(x, t) && IsFirstObject(y, t)
    ensures x == y
  {
    var i :| 0 <= i <= |t| && FirstObjectAt(x, t, i);
    var j :| 0 <= j <= |t| && FirstObjectAt(y, t, j);
    assert t[i] == x[0] by { assert t[i] == t[i..i + |x|][0]; }
    assert t[j] == y[0] by { assert t[j] == t[j..j + |y|][0]; }
    assert i == j;
    forall k | 0 <= k < |x| && k < |y| ensures x[k] == y[k] {
      assert x[k] == t[i + k] == y[k];
    }
    assert |x| == |y|;
    assert x == t[i..i + |x|];
  }

  /** Text around `t[lo..hi]` holds no brace. */
  predicate BraceFreeOutside(t: string, lo: nat, hi: nat)
    requires lo <= hi <= |t|
  {
    forall k :: 0 <= k < |t| && !(lo <= k < hi) ==> t[k] != '{' && t[k] != '}'
  }

  lemma FramePairs(t: string, lo: nat, hi: nat)
    requires lo <= hi <= |t| && BraceFreeOutside(t, lo, hi)
    ensures HasBracePair(t[lo..hi]) <==> HasBracePair(t)
  {
    var u := t[lo..hi];
    if HasBracePair(t) {
      var i, j :| 0 <= i < j < |t| && t[i] == '{' && t[j] == '}';
      assert lo <= i < hi && lo <= j < hi;
      assert u[i - lo] == '{' && u[j - lo] == '}';
    }
    if HasBracePair(u) {
      var i, j :| 0 <= i < j < |u| && u[i] == '{' && u[j] == '}';
      assert t[lo + i] == '{' && t[lo + j] == '}';
    }
  }

  lemma FrameObject(t: string, lo: nat, hi: nat, x: string, p: int)
    requires lo <= hi <= |t| && BraceFreeOutside(t, lo, hi)
    requires FirstObjectAt(x, t[lo..hi], p)
    ensures FirstObjectAt(x, t, lo + p)
  {
    var u := t[lo..hi];
    assert x == u[p..p + |x|];
    forall k | 0 <= k < |x| ensures t[lo + p + k] == x[k] {
      assert x[k] == u[p + k];
    }
    assert t[lo + p..lo + p + |x|] == x;
    forall k | 0 <= k < lo + p ensures t[k] != '{' {
      if lo <= k { assert t[k] == u[k - lo]; }
    }
  }

  /** Characters without braces around the text do not change the match. */
  lemma FirstObjectFrame(t: string, lo: nat, hi: nat)
    requires lo <= hi <= |t| && BraceFreeOutside(t, lo, hi)
    ensures FirstObject(t[lo..hi]) == FirstObject(t)
  {
    var u := t[lo..hi];
    FramePairs(t, lo, hi);
    var r := FirstObject(u);
    if r.Some? {
      var p :| 0 <= p <= |u| && FirstObjectAt(r.value, u, p);
      FrameObject(t, lo, hi, r.value, p);
      FirstObjectUnique(r.value, FirstObject(t).value, t);
    }
  }

  /** Where `PyStrip(w)` sits inside `w`: everything around it is whitespace. */
  lemma StripSpan(w: string) returns (x: nat)
    ensures x + |PyStrip(w)| <= |w| && PyStrip(w) == w[x..x + |PyStrip(w)|]
    ensures forall k :: 0 <= k < |w| && !(x <= k < x + |PyStrip(w)|) ==> IsPySpace(w[k])
  {
    var l := DropLeading(w, IsPySpace);
    var r := DropTrailing(l, IsPySpace);
    x := |w| - |l|;
    DropLeadingIsSuffix(w, IsPySpace);
    DropTrailingIsPrefix(l, IsPySpace);
    assert l == w[x..];
    forall k | 0 <= k < |w| && !(x <= k < x + |r|) ensures IsPySpace(w[k]) {
      if k >= x + |r| { assert w[k] == l[k - x]; }
    }
  }

  /** Python `strip()` does not change which object `grab_json` finds. */
  lemma FirstObjectOfStripped(w: string)
    ensures FirstObject(PyStrip(w)) == FirstObject(w)
  {
    var x := StripFrame(w);
    FirstObjectOfSlice(w, PyStrip(w), x);
  }

  lemma FirstObjectOfSlice(w: string, u: string, x: nat)
    requires x + |u| <= |w| && u == w[x..x + |u|]
    requires BraceFreeOutside(w, x, x + |u|)
    ensures FirstObject(u) == FirstObject(w)
  {
    FirstObjectFrame(w, x, x + |u|);
  }

  /** `PyStrip(w)` sits inside `w` with no brace around it. */
  lemma StripFrame(w: string) returns (x: nat)
    ensures x + |PyStrip(w)| <= |w| && PyStrip(w) == w[x..x + |PyStrip(w)|]
    ensures BraceFreeOutside(w, x, x + |PyStrip(w)|)
  {
    x := StripSpan(w);
    SpaceOutsideIsBraceFree(w, x, x + |PyStrip(w)|);
  }

  lemma SpaceOutsideIsBraceFree(w: string, lo: nat, hi: nat)
    requires lo <= hi <= |w|
    requires forall k :: 0 <= k < |w| && !(lo <= k < hi) ==> IsPySpace(w[k])
    ensures BraceFreeOutside(w, lo, hi)
  {
  }

  /**
    For a completion that is a fenced block (with an optional word tag), the
    extractor returns what it returns for the block's body.
   */
  lemma FencedExtraction(tag: string, body: string)
    requires forall k :: 0 <= k < |tag| ==> IsWordChar(tag[k])
    requires !StartsWith(PyLStrip(body), Fence)
    ensures GrabJson(Fenced(tag, body)) == GrabJson(body)
  {
    FencedRoundTrip(tag, body);
    FirstObjectOfStripped(body);
    SameObjectSameResult(Fenced(tag, body), body);
  }

  lemma SameObjectSameResult(s1: string, s2: string)
    requires FirstObject(StripFences(s1)) == FirstObject(StripFences(s2))
    ensures GrabJson(s1) == GrabJson(s2)
  {
  }

  // ---------------------------------------------------------------------
  // The brace-matching extractor the "stops at the matching }" comment asks for.

  function Delta(c: char): int {
    if c == '{' then 1 else if c == '}' then -1 else 0
  }

  /** Opening braces minus closing braces in `s`. */
  function Depth(s: string): int {
    if s == [] then 0 else Depth(s[..|s| - 1]) + Delta(s[|s| - 1])
  }

  /** A `{` ... `}` span whose closing brace is the one matching its opening brace. */
  predicate IsBalancedObject(x: string) {
    && 2 <= |x| && x[0] == '{' && Depth(x) == 0
    && forall k :: 1 <= k < |x| ==> Depth(x[..k]) > 0
  }

  /** The index of the `}` that brings the brace depth from `depth` down to zero. */
  function MatchingClose(t: string, k: nat, depth: nat): (r: Option<nat>)
    requires k <= |t| && depth > 0
    ensures r.Some? ==> k <= r.value < |t|
    decreases |t| - k
  {
    if k == |t| then None
    else if t[k] == '}' then (if depth == 1 then Some(k) else MatchingClose(t, k + 1, depth - 1))
    else if t[k] == '{' then MatchingClose(t, k + 1, depth + 1)
    else MatchingClose(t, k + 1, depth)
  }

  /** `x` occurs in `t` at `i`, and `i` holds the first `{` of `t`. */
  predicate StartsAtFirstBrace(x: string, t: string, i: int) {
    InfixAt(x, t, i) && forall k :: 0 <= k < i ==> t[k] != '{'
  }

  /** From the first `{` of `t` to the `}` that matches it. */
  function BalancedObject(t: string): (r: Option<string>)
    ensures r.Some? ==> IsBalancedObject(r.value)
    ensures r.Some? ==> exists i :: 0 <= i <= |t| && StartsAtFirstBrace(r.value, t, i)
  {
    match IndexFrom(t, '{', 0)
    case None => None
    case Some(i) =>
      match MatchingClose(t, i + 1, 1)
      case None => None
      case Some(j) =>
        assert Depth(t[i..i + 1]) == 1 by {
          assert t[i..i + 1][..0] == [];
        }
        MatchingCloseSound(t, i, i + 1, j);
        assert StartsAtFirstBrace(t[i..j + 1], t, i);
        Some(t[i..j + 1])
  }

  /** The corrected `grab_json`: from the first `{` to the brace that matches it. */
  function GrabBalancedJson(s: string): (r: Result<string, string>)
    ensures r.Ok? ==> IsBalancedObject(r.value)
    ensures r.Ok? ==> exists i :: 0 <= i <= |StripFences(s)| && StartsAtFirstBrace(r.value, StripFences(s), i)
    ensures r.Err? ==> r.error == NoJsonMessage
  {
    match BalancedObject(StripFences(s))
    case None => Err(NoJsonMessage)
    case Some(x) => Ok(x)
  }

  lemma DepthStep(t: string, i: nat, m: nat)
    requires i <= m < |t|
    ensures Depth(t[i..m + 1]) == Depth(t[i..m]) + Delta(t[m])
  {
    assert t[i..m + 1][..m - i] == t[i..m];
  }

  lemma {:induction false} MatchingCloseSound(t: string, i: nat, k: nat, j: nat)
    requires i < k <= |t| && t[i] == '{'
    requires forall m :: i < m <= k ==> Depth(t[i..m]) > 0
    requires MatchingClose(t, k, Depth(t[i..k])) == Some(j)
    ensures IsBalancedObject(t[i..j + 1])
    decreases |t| - k
  {
    var d := Depth(t[i..k]);
    DepthStep(t, i, k);
    if t[k] == '}' && d == 1 {
      assert j == k;
      var x := t[i..j + 1];
      forall q | 1 <= q < |x| ensures Depth(x[..q]) > 0 {
        assert x[..q] == t[i..i + q];
      }
      assert x[..|x|] == x;
    } else {
      MatchingCloseSound(t, i, k + 1, j);
    }
  }

  lemma {:induction false} MatchingCloseComplete(t: string, off: nat, x: string, k: nat)
    requires IsBalancedObject(x) && InfixAt(x, t, off)
    requires 1 <= k < |x|
    ensures Depth(x[..k]) > 0
    ensures MatchingClose(t, off + k, Depth(x[..k])) == Some(off + |x| - 1)
    decreases |x| - k
  {
    var d := Depth(x[..k]);
    assert x[..k + 1][..k] == x[..k];
    assert x[k] == t[off + k];
    if k == |x| - 1 {
      assert x[..k + 1] == x;
    } else {
      MatchingCloseComplete(t, off, x, k + 1);
    }
  }

  lemma BalancedObjectAfter(pre: string, x: string, post: string)
    requires IsBalancedObject(x)
    requires forall k :: 0 <= k < |pre| ==> pre[k] != '{'
    ensures BalancedObject(pre + x + post) == Some(x)
  {
    var t := pre + x + post;
    assert InfixAt(x, t, |pre|);
    assert t[|pre|] == x[0];
    assert IndexFrom(t, '{', 0) == Some(|pre|);
    assert x[..1] == "{";
    MatchingCloseComplete(t, |pre|, x, 1);
  }

  /**
    Round trip for the corrected extractor: a brace-balanced object placed
    after text without `{` is recovered whole, whatever follows it.
   */
  lemma BalancedExtraction(pre: string, x: string, post: string)
    requires IsBalancedObject(x)
    requires forall k :: 0 <= k < |pre| ==> pre[k] != '{'
    requires !StartsWith(PyLStrip(pre + x + post), Fence)
    ensures GrabBalancedJson(pre + x + post) == Ok(x)
  {
    BalancedObjectAfter(pre, x, post);
  }

  /** An object with one nested object, `{"a":{}}`, and its prefix up to the inner `}`. */
  const Nested := "{\"a\":{}}"
  const NestedCut := "{\"a\":{}"

  lemma NestedIsNotFenced()
    ensures StripFences(Nested) == Nested
  {
    assert Nested[0] == '{' && !IsPySpace('{');
    assert PyLStrip(Nested) == Nested;
    assert Nested[..3][0] != Fence[0];
  }

  lemma DepthSnoc(s: string, c: char)
    ensures Depth(s + [c]) == Depth(s) + Delta(c)
  {
    assert (s + [c])[..|s|] == s;
  }

  lemma NestedCutDepth()
    ensures Depth(NestedCut) == 1
    ensures forall k :: 1 <= k <= 7 ==> Depth(NestedCut[..k]) > 0
  {
    var c := NestedCut;
    assert c[..1] == [] + [c[0]];
    DepthSnoc([], c[0]);
    forall k | 1 <= k < 7 ensures Depth(c[..k + 1]) == Depth(c[..k]) + Delta(c[k]) {
      assert c[..k + 1] == c[..k] + [c[k]];
      DepthSnoc(c[..k], c[k]);
    }
    assert Depth(c[..1]) == 1;
    assert Depth(c[..2]) == 1;
    assert Depth(c[..3]) == 1;
    assert Depth(c[..4]) == 1;
    assert Depth(c[..5]) == 1;
    assert Depth(c[..6]) == 2;
    assert Depth(c[..7]) == 1;
    assert c[..7] == c;
  }

  lemma NestedIsBalanced()
    ensures IsBalancedObject(Nested)
  {
    NestedCutDepth();
    forall k | 1 <= k <= 7 ensures Nested[..k] == NestedCut[..k] {
    }
    assert Nested[..7] == NestedCut;
    assert Nested[..8] == Nested;
  }

  /**
    The lazy match cuts the nested object after the inner `}`: the result is
    not a balanced object, while the corrected extractor returns it whole.
   */
  lemma NestedObjectIsCut()
    ensures GrabJson(Nested) == Ok(NestedCut)
    ensures !IsBalancedObject(NestedCut)
    ensures GrabBalancedJson(Nested) == Ok(Nested)
  {
    NestedGrabIsCut();
    NestedCutDepth();
    NestedGrabBalanced();
  }

  lemma NestedGrabIsCut()
    ensures GrabJson(Nested) == Ok(NestedCut)
  {
    NestedIsNotFenced();
    assert FirstObjectAt(NestedCut, Nested, 0);
    FirstObjectUnique(NestedCut, FirstObject(Nested).value, Nested);
  }

  lemma NestedGrabBalanced()
    ensures GrabBalancedJson(Nested) == Ok(Nested)
  {
    NestedIsNotFenced();
    NestedIsBalanced();
    BalancedObjectAlone(Nested);
  }

  lemma BalancedObjectAlone(x: string)
    requires IsBalancedObject(x)
    ensures BalancedObject(x) == Some(x)
  {
    BalancedObjectAfter("", x, "");
    assert "" + x + "" == x;
  }
}
