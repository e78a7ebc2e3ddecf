/** The `replaceSpaces` pipe: a genre name becomes the URL slug the genre is reached by
    (lower case, accents stripped, whitespace runs replaced, other symbols removed). */
module ReplaceSpaces {
  import opened Wrappers
  import opened Js

  /** The canonical decomposition of a Latin-1 small letter (U+00E0..U+00FF) as a base letter
      and a combining mark; `None` for the code points that have none (æ, ð, ÷, ø, þ). */
  function SmallDecomposition(n: int): (d: Option<(char, int)>)
    ensures d.Some? ==> 'a' <= d.value.0 <= 'z' && 0x300 <= d.value.1 <= 0x36F
  {
    if 0xE0 <= n <= 0xE5 then Some(('a', if n == 0xE5 then 0x30A else if n == 0xE4 then 0x308 else 0x300 + (n - 0xE0)))
    else if n == 0xE7 then Some(('c', 0x327))
    else if 0xE8 <= n <= 0xEB then Some(('e', AccentOf(n - 0xE8)))
    else if 0xEC <= n <= 0xEF then Some(('i', AccentOf(n - 0xEC)))
    else if n == 0xF1 then Some(('n', 0x303))
    else if 0xF2 <= n <= 0xF6 then Some(('o', if n == 0xF6 then 0x308 else 0x300 + (n - 0xF2)))
    else if 0xF9 <= n <= 0xFC then Some(('u', AccentOf(n - 0xF9)))
    else if n == 0xFD then Some(('y', 0x301))
    else if n == 0xFF then Some(('y', 0x308))
    else None
  }

  /** Grave, acute, circumflex, diaeresis: the four accents of è..ë, ì..ï and ù..ü, in order. */
  function AccentOf(k: int): int {
    if k == 0 then 0x300 else if k == 1 then 0x301 else if k == 2 then 0x302 else 0x308
  }

  /** The range `[̀-ͯ]` the pipe deletes. */
  predicate IsCombiningMark(c: char) {
    0x300 <= c as int <= 0x36F
  }

  /** The Latin-1 capitals `toLowerCase` maps down (all of U+00C0..U+00DE except `×`). */
  predicate IsLatinCapital(c: char) {
    0xC0 <= c as int <= 0xDE && c as int != 0xD7
  }

  predicate IsAsciiLower(c: char) {
    'a' <= c <= 'z'
  }

  /** `normalize('NFD')` on one code point: the Latin-1 letters with a decomposition become base
      letter plus combining mark (capitals decompose to a capital base); every other code
      point is its own decomposition. */
  function NfdChar(c: char): (r: seq<char>)
    ensures 1 <= |r| <= 2
    ensures |r| == 1 ==> r[0] == c
    ensures |r| == 2 ==> IsCombiningMark(r[1]) && (IsAsciiLower(r[0]) || IsAsciiUpper(r[0]))
    ensures |r| == 2 && IsAsciiUpper(r[0]) ==> IsLatinCapital(c)
  {
    var n := c as int;
    if 0xE0 <= n <= 0xFF && SmallDecomposition(n).Some? then
      var (base, mark) := SmallDecomposition(n).value;
      [base, mark as char]
    else if 0xC0 <= n <= 0xDE && SmallDecomposition(n + 0x20).Some? then
      var (base, mark) := SmallDecomposition(n + 0x20).value;
      [(base as int - 0x20) as char, mark as char]
    else [c]
  }

  function Nfd(s: string): (r: string)
    ensures |r| >= |s|
    decreases |s|
  {
    if s == [] then [] else NfdChar(s[0]) + Nfd(s[1..])
  }

  /** `replace(/[̀-ͯ]/g, "")`. */
  function StripMarks(s: string): string
    decreases |s|
  {
    if s == [] then [] else (if IsCombiningMark(s[0]) then [] else [s[0]]) + StripMarks(s[1..])
  }

  /** `replace(/\s+/g, replaceChar)`: each maximal run of whitespace becomes one `replaceChar`. */
  function ReplaceRuns(s: string, replaceChar: string): (r: string)
    decreases |s|
  {
    if s == [] then []
    else if IsSpace(s[0]) then replaceChar + ReplaceRuns(TrimStart(s[1..]), replaceChar)
    else [s[0]] + ReplaceRuns(s[1..], replaceChar)
  }

  predicate IsSlugChar(c: char) {
    IsWordChar(c) || c == '-'
  }

  /** `replace(/[^\w-]+/g, '')`: everything that is neither a word character nor `-` is removed. */
  function StripNonWord(s: string): (r: string)
    ensures forall i :: 0 <= i < |r| ==> IsSlugChar(r[i])
    decreases |s|
  {
    if s == [] then [] else (if IsSlugChar(s[0]) then [s[0]] else []) + StripNonWord(s[1..])
  }

  /** `transform(value, replaceChar = '-')`. */
  function Transform(value: string, replaceChar: string := "-"): (slug: string)
    ensures forall i :: 0 <= i < |slug| ==> IsSlugChar(slug[i])
    ensures value == "" ==> slug == ""
  {
    if value == "" then ""
    else StripNonWord(ReplaceRuns(StripMarks(Nfd(Lower(value))), replaceChar))
  }

  /** The slug of a genre name, as links and lookups compute it. */
  function Slug(name: string): string {
    Transform(name)
  }

  // --- properties of the stages ---

  predicate NoAsciiUpper(s: string) {
    forall i :: 0 <= i < |s| ==> !IsAsciiUpper(s[i])
  }

  predicate NoSpace(s: string) {
    forall i :: 0 <= i < |s| ==> !IsSpace(s[i])
  }

  predicate OnlySlugChars(s: string) {
    forall i :: 0 <= i < |s| ==> IsSlugChar(s[i])
  }

  lemma {:induction false} NfdNoAsciiUpper(s: string)
    requires NoAsciiUpper(s)
    requires forall i :: 0 <= i < |s| ==> !IsLatinCapital(s[i])
    ensures NoAsciiUpper(Nfd(s))
    decreases |s|
  {
    if s != [] {
      NfdNoAsciiUpper(s[1..]);
      var h := NfdChar(s[0]);
      assert Nfd(s) == h + Nfd(s[1..]);
    }
  }

  lemma {:induction false} StripMarksNoAsciiUpper(s: string)
    requires NoAsciiUpper(s)
    ensures NoAsciiUpper(StripMarks(s))
    decreases |s|
  {
    if s != [] {
      StripMarksNoAsciiUpper(s[1..]);
    }
  }

  lemma {:induction false} ReplaceRunsNoAsciiUpper(s: string, replaceChar: string)
    requires NoAsciiUpper(s) && NoAsciiUpper(replaceChar)
    ensures NoAsciiUpper(ReplaceRuns(s, replaceChar))
    decreases |s|
  {
    if s != [] {
      if IsSpace(s[0]) {
        var t := TrimStart(s[1..]);
        TrimStartSuffix(s[1..]);
        ReplaceRunsNoAsciiUpper(t, replaceChar);
      } else {
        ReplaceRunsNoAsciiUpper(s[1..], replaceChar);
      }
    }
  }

  /** `TrimStart` returns a suffix of its argument. */
  lemma {:induction false} TrimStartSuffix(s: string)
    ensures |TrimStart(s)| <= |s| && TrimStart(s) == s[|s| - |TrimStart(s)|..]
    decreases |s|
  {
    if s != [] && IsSpace(s[0]) {
      TrimStartSuffix(s[1..]);
      assert s[1..][|s| - 1 - |TrimStart(s[1..])|..] == s[|s| - |TrimStart(s)|..];
    }
  }

  lemma {:induction false} StripNonWordNoAsciiUpper(s: string)
    requires NoAsciiUpper(s)
    ensures NoAsciiUpper(StripNonWord(s))
    decreases |s|
  {
    if s != [] {
      StripNonWordNoAsciiUpper(s[1..]);
    }
  }

  lemma LowerLeavesNoLatinCapital(s: string)
    ensures NoAsciiUpper(Lower(s))
    ensures forall i :: 0 <= i < |Lower(s)| ==> !IsLatinCapital(Lower(s)[i])
  {
    forall i | 0 <= i < |s| ensures !IsLatinCapital(LowerChar(s[i])) {
      var n := s[i] as int;
      if 0xC0 <= n <= 0xDE && n != 0xD7 {
        assert LowerChar(s[i]) as int == n + 32;
      }
    }
  }

  /** A slug has no capital letters, provided the replacement has none. */
  lemma SlugIsLowerCase(value: string, replaceChar: string)
    requires NoAsciiUpper(replaceChar)
    ensures NoAsciiUpper(Transform(value, replaceChar))
  {
    if value != "" {
      var l := Lower(value);
      LowerLeavesNoLatinCapital(value);
      NfdNoAsciiUpper(l);
      StripMarksNoAsciiUpper(Nfd(l));
      ReplaceRunsNoAsciiUpper(StripMarks(Nfd(l)), replaceChar);
      StripNonWordNoAsciiUpper(ReplaceRuns(StripMarks(Nfd(l)), replaceChar));
    }
  }

  /** A run of whitespace, however long, turns into a single replacement. */
  lemma {:induction false} WhitespaceRunCollapses(run: string, rest: string, replaceChar: string)
    requires run != [] && AllSpace(run)
    requires rest == [] || !IsSpace(rest[0])
    ensures ReplaceRuns(run + rest, replaceChar) == replaceChar + ReplaceRuns(rest, replaceChar)
  {
    assert (run + rest)[0] == run[0];
    TrimStartOfSpaces(run[1..], rest);
    assert (run + rest)[1..] == run[1..] + rest;
  }

  lemma {:induction false} TrimStartOfSpaces(run: string, rest: string)
    requires AllSpace(run)
    requires rest == [] || !IsSpace(rest[0])
    ensures TrimStart(run + rest) == rest
    decreases |run|
  {
    if run == [] {
      assert run + rest == rest;
    } else {
      assert (run + rest)[1..] == run[1..] + rest;
      TrimStartOfSpaces(run[1..], rest);
    }
  }

  /** A string without whitespace has nothing to replace, and one of slug characters alone has
      nothing to strip. */
  lemma {:induction false} ReplaceRunsNoSpace(s: string, replaceChar: string)
    requires NoSpace(s)
    ensures ReplaceRuns(s, replaceChar) == s
    decreases |s|
  {
    if s != [] {
      ReplaceRunsNoSpace(s[1..], replaceChar);
    }
  }

  lemma {:induction false} StripNonWordOfSlugChars(s: string)
    requires OnlySlugChars(s)
    ensures StripNonWord(s) == s
    decreases |s|
  {
    if s != [] {
      StripNonWordOfSlugChars(s[1..]);
    }
  }

  lemma {:induction false} NfdOfAscii(s: string)
    requires forall i :: 0 <= i < |s| ==> s[i] as int < 0x80
    ensures Nfd(s) == s
    decreases |s|
  {
    if s != [] {
      NfdOfAscii(s[1..]);
    }
  }

  lemma {:induction false} StripMarksOfAscii(s: string)
    requires forall i :: 0 <= i < |s| ==> s[i] as int < 0x80
    ensures StripMarks(s) == s
    decreases |s|
  {
    if s != [] {
      StripMarksOfAscii(s[1..]);
    }
  }

  /** A slug is its own slug: the slug of a URL segment taken from a link is that segment. */
  lemma SlugIdempotent(value: string)
    ensures Slug(Slug(value)) == Slug(value)
  {
    var s := Slug(value);
    SlugIsLowerCase(value, "-");
    if s != "" {
      var l := Lower(s);
      assert l == s by {
        forall i | 0 <= i < |s| ensures LowerChar(s[i]) == s[i] {
          assert IsSlugChar(s[i]) && !IsAsciiUpper(s[i]);
        }
      }
      NfdOfAscii(s);
      StripMarksOfAscii(s);
      ReplaceRunsNoSpace(s, "-");
      StripNonWordOfSlugChars(s);
    }
  }

  /** A replacement that is not a slug character leaves no trace: whitespace runs are then
      deleted outright. */
  lemma {:induction false} StripNonWordDropsForeign(a: string, b: string, replaceChar: string)
    requires forall i :: 0 <= i < |replaceChar| ==> !IsSlugChar(replaceChar[i])
    ensures StripNonWord(a + replaceChar + b) == StripNonWord(a + b)
    decreases |a|
  {
    if a == [] {
      assert a + replaceChar + b == replaceChar + b;
      assert a + b == b;
      StripNonWordForeignPrefix(replaceChar, b);
    } else {
      assert (a + replaceChar + b)[1..] == a[1..] + replaceChar + b;
      assert (a + b)[1..] == a[1..] + b;
      StripNonWordDropsForeign(a[1..], b, replaceChar);
    }
  }

  lemma {:induction false} StripNonWordForeignPrefix(p: string, b: string)
    requires forall i :: 0 <= i < |p| ==> !IsSlugChar(p[i])
    ensures StripNonWord(p + b) == StripNonWord(b)
    decreases |p|
  {
    if p == [] {
      assert p + b == b;
    } else {
      assert (p + b)[1..] == p[1..] + b;
      StripNonWordForeignPrefix(p[1..], b);
    }
  }

  // --- the slug of a name, word by word and letter by letter ---

  /** The stages before the whitespace replacement, which work code point by code point. */
  function Prepared(s: string): string {
    StripMarks(Nfd(Lower(s)))
  }

  lemma LowerAppend(a: string, b: string)
    ensures Lower(a + b) == Lower(a) + Lower(b)
  {
    assert forall i :: 0 <= i < |a + b| ==> Lower(a + b)[i] == (Lower(a) + Lower(b))[i];
  }

  lemma {:induction false} NfdAppend(a: string, b: string)
    ensures Nfd(a + b) == Nfd(a) + Nfd(b)
    decreases |a|
  {
    if a == [] {
      assert a + b == b;
    } else {
      assert (a + b)[1..] == a[1..] + b;
      NfdAppend(a[1..], b);
    }
  }

  lemma {:induction false} StripMarksAppend(a: string, b: string)
    ensures StripMarks(a + b) == StripMarks(a) + StripMarks(b)
    decreases |a|
  {
    if a == [] {
      assert a + b == b;
    } else {
      assert (a + b)[1..] == a[1..] + b;
      StripMarksAppend(a[1..], b);
    }
  }

  lemma {:induction false} StripNonWordAppend(a: string, b: string)
    ensures StripNonWord(a + b) == StripNonWord(a) + StripNonWord(b)
    decreases |a|
  {
    if a == [] {
      assert a + b == b;
    } else {
      assert (a + b)[1..] == a[1..] + b;
      StripNonWordAppend(a[1..], b);
    }
  }

  lemma PreparedAppend(a: string, b: string)
    ensures Prepared(a + b) == Prepared(a) + Prepared(b)
  {
    LowerAppend(a, b);
    NfdAppend(Lower(a), Lower(b));
    StripMarksAppend(Nfd(Lower(a)), Nfd(Lower(b)));
  }

  /** Code points outside U+00C0..U+00FF are their own decomposition. */
  lemma {:induction false} NfdOutsideLatinLetters(s: string)
    requires forall i :: 0 <= i < |s| ==> s[i] as int < 0xC0 || s[i] as int > 0xFF
    ensures Nfd(s) == s
    decreases |s|
  {
    if s != [] {
      NfdOutsideLatinLetters(s[1..]);
    }
  }

  lemma {:induction false} StripMarksWithoutMarks(s: string)
    requires forall i :: 0 <= i < |s| ==> !IsCombiningMark(s[i])
    ensures StripMarks(s) == s
    decreases |s|
  {
    if s != [] {
      StripMarksWithoutMarks(s[1..]);
    }
  }

  /** Whitespace passes the first stages untouched. */
  lemma PreparedOfSpaces(w: string)
    requires AllSpace(w)
    ensures Prepared(w) == w
  {
    assert Lower(w) == w;
    NfdOutsideLatinLetters(w);
    StripMarksWithoutMarks(w);
  }

  lemma {:induction false} ReplaceRunsAfterWord(a: string, b: string, replaceChar: string)
    requires NoSpace(a)
    ensures ReplaceRuns(a + b, replaceChar) == a + ReplaceRuns(b, replaceChar)
    decreases |a|
  {
    if a == [] {
      assert a + b == b;
    } else {
      assert (a + b)[1..] == a[1..] + b;
      assert !IsSpace(a[0]);
      ReplaceRunsAfterWord(a[1..], b, replaceChar);
    }
  }

  /** One whitespace run between two words becomes the replacement. */
  lemma ReplaceRunsBetween(a: string, w: string, b: string, replaceChar: string)
    requires NoSpace(a) && NoSpace(b) && w != [] && AllSpace(w)
    ensures ReplaceRuns(a + w + b, replaceChar) == a + replaceChar + b
  {
    assert a + w + b == a + (w + b);
    ReplaceRunsAfterWord(a, w + b, replaceChar);
    if b != [] {
      assert !IsSpace(b[0]);
    }
    WhitespaceRunCollapses(w, b, replaceChar);
    ReplaceRunsNoSpace(b, replaceChar);
  }

  /** The slug of one word (no whitespace once prepared). */
  lemma SlugOfWord(a: string)
    requires a != "" && NoSpace(Prepared(a))
    ensures Slug(a) == StripNonWord(Prepared(a))
  {
    ReplaceRunsNoSpace(Prepared(a), "-");
  }

  /** Two words separated by whitespace: the slug joins the words' slugs with `-`, as in
      "Ficção Científica" to "ficcao-cientifica". */
  lemma SlugOfTwoWords(a: string, w: string, b: string)
    requires a != "" && b != "" && w != "" && AllSpace(w)
    requires NoSpace(Prepared(a)) && NoSpace(Prepared(b))
    ensures Slug(a + w + b) == Slug(a) + "-" + Slug(b)
  {
    PreparedAppend(a + w, b);
    PreparedAppend(a, w);
    PreparedOfSpaces(w);
    var pa, pb := Prepared(a), Prepared(b);
    assert Prepared(a + w + b) == pa + w + pb;
    ReplaceRunsBetween(pa, w, pb, "-");
    StripNonWordAppend(pa + "-", pb);
    StripNonWordAppend(pa, "-");
    assert StripNonWord("-") == "-";
    SlugOfWord(a);
    SlugOfWord(b);
  }

  /** An accented Latin-1 letter, small or capital, slugs to its base letter: "ç" and "Ç" to "c",
      "ã" to "a", "í" to "i". */
  lemma SlugOfAccentedLetter(c: char)
    requires 0xE0 <= LowerChar(c) as int <= 0xFF && SmallDecomposition(LowerChar(c) as int).Some?
    ensures Slug([c]) == [SmallDecomposition(LowerChar(c) as int).value.0]
  {
    var l := LowerChar(c);
    var (base, mark) := SmallDecomposition(l as int).value;
    assert Lower([c]) == [l];
    assert Nfd([l]) == NfdChar(l) + Nfd([]);
    assert NfdChar(l) == [base, mark as char];
    assert StripMarks([base, mark as char]) == [base] + StripMarks([mark as char]);
    assert StripMarks([mark as char]) == [] + StripMarks([]);
    assert ReplaceRuns([base], "-") == [base] + ReplaceRuns([], "-");
    assert StripNonWord([base]) == [base] + StripNonWord([]);
    assert StripMarks(Nfd(Lower([c]))) == [base];
    assert Slug([c]) == StripNonWord(ReplaceRuns([base], "-"));
  }
}
