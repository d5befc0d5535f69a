/**
  The web app's slug helpers: `slugify` turns an industry name into a URL
  segment and `unslugify` turns a segment back into a display name.
  JavaScript's `\s` is the same character class as `trim()` strips, and
  without the `u` flag `\w` is exactly the ASCII letters, digits and `_`.
 */
module Slug {
  import opened Text

  /** `.replace(/\s+/g, '-')`: every maximal run of whitespace becomes one dash. */
  function DashRuns(s: string): (r: string)
    ensures |r| <= |s|
    ensures forall i :: 0 <= i < |r| ==> !IsJsSpace(r[i])
  {
    if |s| == 0 then ""
    else if !IsJsSpace(s[0]) then [s[0]] + DashRuns(s[1..])
    else if |s| > 1 && IsJsSpace(s[1]) then DashRuns(s[1..])
    else "-" + DashRuns(s[1..])
  }

  /** A slug character: a word character or a dash. */
  predicate IsSlugChar(c: char) {
    IsWordChar(c) || c == '-'
  }

  predicate IsSlug(s: string) {
    forall i :: 0 <= i < |s| ==> IsSlugChar(s[i])
  }

  /** `.replace(/[^\w-]/g, '')`: every character that is not a slug character is removed. */
  function KeepSlugChars(s: string): (r: string)
    ensures |r| <= |s|
    ensures IsSlug(r)
  {
    if |s| == 0 then ""
    else if IsSlugChar(s[0]) then [s[0]] + KeepSlugChars(s[1..])
    else KeepSlugChars(s[1..])
  }

  /** `slugify(str)`: trim, turn whitespace runs into dashes, drop everything else that is not a slug character. */
  function Slugify(s: string): (r: string)
    ensures |r| <= |s|
    ensures IsSlug(r)
  {
    KeepSlugChars(DashRuns(JsTrim(s)))
  }

  /** Trimming a string that neither starts nor ends with whitespace leaves it alone. */
  lemma TrimUnspaced(s: string)
    requires s != [] ==> !IsJsSpace(s[0]) && !IsJsSpace(s[|s| - 1])
    ensures JsTrim(s) == s
  {
  }

  lemma {:induction false} DashRunsWithoutSpace(s: string)
    requires forall i :: 0 <= i < |s| ==> !IsJsSpace(s[i])
    ensures DashRuns(s) == s
  {
    if |s| > 0 {
      DashRunsWithoutSpace(s[1..]);
    }
  }

  lemma {:induction false} KeepSlugCharsOfSlug(s: string)
    requires IsSlug(s)
    ensures KeepSlugChars(s) == s
  {
    if |s| > 0 {
      KeepSlugCharsOfSlug(s[1..]);
    }
  }

  /** Slugifying a slug changes nothing. */
  lemma SlugifyIdempotent(s: string)
    ensures Slugify(Slugify(s)) == Slugify(s)
  {
    var t := Slugify(s);
    assert forall i :: 0 <= i < |t| ==> !IsJsSpace(t[i]) by {
      forall i | 0 <= i < |t| ensures !IsJsSpace(t[i]) {
        assert IsSlugChar(t[i]);
      }
    }
    TrimUnspaced(t);
    DashRunsWithoutSpace(t);
    KeepSlugCharsOfSlug(t);
  }

  /** The word characters of `s`, in order. */
  function WordChars(s: string): string {
    if |s| == 0 then ""
    else if IsWordChar(s[0]) then [s[0]] + WordChars(s[1..])
    else WordChars(s[1..])
  }

  lemma {:induction false} WordCharsConcat(a: string, b: string)
    ensures WordChars(a + b) == WordChars(a) + WordChars(b)
  {
    if |a| == 0 {
      assert a + b == b;
    } else {
      assert (a + b)[0] == a[0];
      assert (a + b)[1..] == a[1..] + b;
      WordCharsConcat(a[1..], b);
      var x, y := WordChars(a[1..]), WordChars(b);
      assert [a[0]] + (x + y) == ([a[0]] + x) + y;
    }
  }

  lemma {:induction false} WordCharsOfSpace(s: string)
    requires forall i :: 0 <= i < |s| ==> IsJsSpace(s[i])
    ensures WordChars(s) == ""
  {
    if |s| > 0 {
      WordCharsOfSpace(s[1..]);
    }
  }

  lemma WordCharsOfTrim(s: string)
    ensures WordChars(JsTrim(s)) == WordChars(s)
  {
    var d := DropLeading(s, IsJsSpace);
    DropLeadingIsSuffix(s, IsJsSpace);
    assert s == s[..|s| - |d|] + d;
    WordCharsConcat(s[..|s| - |d|], d);
    WordCharsOfSpace(s[..|s| - |d|]);
    var t := DropTrailing(d, IsJsSpace);
    DropTrailingIsPrefix(d, IsJsSpace);
    assert d == t + d[|t|..];
    WordCharsConcat(t, d[|t|..]);
    WordCharsOfSpace(d[|t|..]);
  }

  lemma {:induction false} WordCharsOfDashRuns(s: string)
    ensures WordChars(DashRuns(s)) == WordChars(s)
  {
    if |s| > 0 {
      WordCharsOfDashRuns(s[1..]);
      if IsJsSpace(s[0]) && !(|s| > 1 && IsJsSpace(s[1])) {
        assert DashRuns(s) == "-" + DashRuns(s[1..]);
      }
    }
  }

  lemma {:induction false} WordCharsOfKeep(s: string)
    ensures WordChars(KeepSlugChars(s)) == WordChars(s)
  {
    if |s| > 0 {
      WordCharsOfKeep(s[1..]);
    }
  }

  /** `slugify` never removes a word character: the input's word characters come out in order. */
  lemma SlugifyKeepsWordChars(s: string)
    ensures WordChars(Slugify(s)) == WordChars(s)
  {
    WordCharsOfTrim(s);
    WordCharsOfDashRuns(JsTrim(s));
    WordCharsOfKeep(DashRuns(JsTrim(s)));
  }

  /** `s.split(sep)` for a one-character separator: one segment more than there are separators, none containing it. */
  function Split(s: string, sep: char): (parts: seq<string>)
    ensures |parts| == Count(s, sep) + 1
    ensures forall k, i :: 0 <= k < |parts| && 0 <= i < |parts[k]| ==> parts[k][i] != sep
  {
    if |s| == 0 then [""]
    else
      var rest := Split(s[1..], sep);
      if s[0] == sep then [""] + rest
      else [[s[0]] + rest[0]] + rest[1..]
  }

  lemma JoinCons(x: string, w: string, ws: seq<string>, sep: string)
    ensures Join([x + w] + ws, sep) == x + Join([w] + ws, sep)
  {
    if |ws| > 0 {
      assert ([x + w] + ws)[1..] == ws;
      assert ([w] + ws)[1..] == ws;
    }
  }

  /** Joining the segments with the separator gives the string back. */
  lemma {:induction false} JoinSplit(s: string, sep: char)
    ensures Join(Split(s, sep), [sep]) == s
  {
    if |s| > 0 {
      var rest := Split(s[1..], sep);
      JoinSplit(s[1..], sep);
      assert rest == [rest[0]] + rest[1..];
      if s[0] == sep {
        assert ([""] + rest)[1..] == rest;
      } else {
        JoinCons([s[0]], rest[0], rest[1..], [sep]);
      }
    }
  }

  /** `toUpperCase()` on the ASCII lower-case letters; other characters are kept. */
  function Upper(c: char): char {
    if 'a' <= c <= 'z' then (c as int - 32) as char else c
  }

  /** `w.charAt(0).toUpperCase() + w.slice(1)`. */
  function Capitalize(w: string): string {
    if |w| == 0 then "" else [Upper(w[0])] + w[1..]
  }

  function CapitalizeAll(ws: seq<string>): (r: seq<string>)
    ensures |r| == |ws|
  {
    if |ws| == 0 then [] else [Capitalize(ws[0])] + CapitalizeAll(ws[1..])
  }

  /** `unslugify(slug)`: split on dashes, capitalize each segment, join with single spaces. */
  function Unslugify(slug: string): string {
    Join(CapitalizeAll(Split(slug, '-')), " ")
  }

  /**
    `unslugify` character by character: each dash becomes a space, each
    character that opens a segment is upper-cased, the rest are kept.
    `atStart` says whether `s[0]` opens a segment.
   */
  function UnslugFrom(s: string, atStart: bool): (r: string)
    ensures |r| == |s|
  {
    if |s| == 0 then ""
    else if s[0] == '-' then " " + UnslugFrom(s[1..], true)
    else [if atStart then Upper(s[0]) else s[0]] + UnslugFrom(s[1..], false)
  }

  /** What `unslugify` makes of the character at index `i`. */
  function UnslugChar(s: string, atStart: bool, i: nat): char
    requires i < |s|
  {
    if s[i] == '-' then ' '
    else if (i == 0 && atStart) || (i > 0 && s[i - 1] == '-') then Upper(s[i])
    else s[i]
  }

  lemma {:induction false} UnslugFromAt(s: string, atStart: bool, i: nat)
    requires i < |s|
    ensures UnslugFrom(s, atStart)[i] == UnslugChar(s, atStart, i)
  {
    if i > 0 {
      UnslugFromAt(s[1..], s[0] == '-', i - 1);
      if i > 1 {
        assert s[1..][i - 2] == s[i - 1];
      }
    }
  }

  lemma {:induction false} UnslugFromSegments(s: string, atStart: bool)
    ensures var parts := Split(s, '-');
            UnslugFrom(s, atStart)
            == Join([if atStart then Capitalize(parts[0]) else parts[0]] + CapitalizeAll(parts[1..]), " ")
  {
    if |s| > 0 {
      var rest := Split(s[1..], '-');
      UnslugFromSegments(s[1..], s[0] == '-');
      if s[0] == '-' {
        assert Split(s, '-') == [""] + rest;
        assert CapitalizeAll(rest) == [Capitalize(rest[0])] + CapitalizeAll(rest[1..]);
        assert ([""] + CapitalizeAll(rest))[1..] == CapitalizeAll(rest);
      } else {
        assert Split(s, '-') == [[s[0]] + rest[0]] + rest[1..];
        var c := if atStart then Upper(s[0]) else s[0];
        assert (if atStart then Capitalize([s[0]] + rest[0]) else [s[0]] + rest[0]) == [c] + rest[0];
        JoinCons([c], rest[0], CapitalizeAll(rest[1..]), " ");
      }
    }
  }

  /** `unslugify` is the character-by-character mapping: same length, dashes become spaces, segment starts are upper-cased. */
  lemma UnslugifyPointwise(slug: string)
    ensures |Unslugify(slug)| == |slug|
    ensures forall i :: 0 <= i < |slug| ==> Unslugify(slug)[i] == UnslugChar(slug, true, i)
  {
    UnslugFromSegments(slug, true);
    var parts := Split(slug, '-');
    assert CapitalizeAll(parts) == [Capitalize(parts[0])] + CapitalizeAll(parts[1..]);
    forall i | 0 <= i < |slug|
      ensures Unslugify(slug)[i] == UnslugChar(slug, true, i)
    {
      UnslugFromAt(slug, true, i);
    }
  }

  predicate IsAsciiLetter(c: char) {
    ('a' <= c <= 'z') || ('A' <= c <= 'Z')
  }

  /** ASCII words, each starting with a capital letter, separated by single spaces. */
  predicate IsTitleWords(s: string) {
    forall i :: 0 <= i < |s| ==>
      (s[i] == ' ' || IsAsciiLetter(s[i]))
      && (StartsWord(s, i) ==> 'A' <= s[i] <= 'Z')
      && (s[i] == ' ' ==> i + 1 < |s|)
  }

  /** Index `i` opens a word: it is the first index or follows a space. */
  predicate StartsWord(s: string, i: nat)
    requires i < |s|
  {
    i == 0 || s[i - 1] == ' '
  }

  /** Letters and spaces, every space followed by a letter. */
  predicate SingleSpaced(s: string) {
    |s| == 0
    || ((s[0] == ' ' || IsAsciiLetter(s[0])) && (s[0] == ' ' ==> |s| > 1 && s[1] != ' ') && SingleSpaced(s[1..]))
  }

  /** `s` with every space turned into a dash. */
  function Dashed(s: string): (r: string)
    ensures |r| == |s|
    ensures forall i :: 0 <= i < |s| ==> r[i] == (if s[i] == ' ' then '-' else s[i])
  {
    if |s| == 0 then "" else [if s[0] == ' ' then '-' else s[0]] + Dashed(s[1..])
  }

  lemma {:induction false} DashRunsSingleSpaced(s: string)
    requires SingleSpaced(s)
    ensures DashRuns(s) == Dashed(s)
  {
    if |s| > 0 {
      DashRunsSingleSpaced(s[1..]);
      if s[0] == ' ' {
        assert !IsJsSpace(s[1]);
      }
    }
  }

  lemma {:induction false} TitleWordsSingleSpaced(s: string, k: nat)
    requires IsTitleWords(s) && k <= |s|
    ensures SingleSpaced(s[k..])
    decreases |s| - k
  {
    if k < |s| {
      TitleWordsSingleSpaced(s, k + 1);
      assert s[k..][1..] == s[k + 1..];
      if s[k] == ' ' {
        assert StartsWord(s, k + 1);
      }
    }
  }

  /** `slugify` turns the single spaces of title words into dashes and keeps everything else. */
  lemma SlugifyTitleWords(s: string)
    requires IsTitleWords(s)
    ensures Slugify(s) == Dashed(s)
  {
    TitleWordsSingleSpaced(s, 0);
    if s != [] {
      assert StartsWord(s, 0);
      assert s[|s| - 1] != ' ';
    }
    TrimUnspaced(s);
    DashRunsSingleSpaced(s);
    KeepSlugCharsOfSlug(Dashed(s));
  }

  /** For capitalized ASCII words separated by single spaces, `unslugify` undoes `slugify`. */
  lemma UnslugifySlugify(s: string)
    requires IsTitleWords(s)
    ensures Unslugify(Slugify(s)) == s
  {
    SlugifyTitleWords(s);
    var d := Dashed(s);
    UnslugifyPointwise(d);
    forall i | 0 <= i < |s|
      ensures Unslugify(d)[i] == s[i]
    {
      if i > 0 && d[i - 1] == '-' {
        assert StartsWord(s, i);
      }
    }
  }
}
