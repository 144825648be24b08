/**
 * `sanitize_text` of streamlit_app.py: a fixed chain of rewrites applied to
 * an agent's reply. HTML tags are removed first, then surrounding
 * whitespace, then HTML entities are decoded, and last the Markdown
 * characters `*`, `_`, backquote and `#` are deleted. The text is free of
 * tags only before decoding: an encoded tag such as `&lt;b&gt;` passes tag
 * removal and comes out of decoding as a tag (`DecodedTagSurvives`).
 *
 * Each regular-expression substitution is a left-to-right scanner with the
 * leftmost, non-overlapping semantics of `re.sub`. The entity decoder
 * (`html.unescape`) is a parameter of which nothing is assumed.
 */
module Sanitize {
  import opened Wrappers
  import opened Sequences

  // ---------------------------------------------------------------------
  // Character filters
  // ---------------------------------------------------------------------

  /** `s` with every character of `marks` deleted. */
  function Without(s: string, marks: set<char>): (r: string)
    ensures forall i :: 0 <= i < |r| ==> r[i] !in marks
    ensures forall c :: c !in marks ==> multiset(r)[c] == multiset(s)[c]
  {
    if |s| == 0 then ""
    else
      assert s == [s[0]] + s[1..];
      if s[0] in marks then Without(s[1..], marks) else [s[0]] + Without(s[1..], marks)
  }

  /** Deleting characters keeps every other character in its order. */
  lemma {:induction false} WithoutIsSubsequence(s: string, marks: set<char>)
    ensures IsSubsequence(Without(s, marks), s)
  {
    if |s| > 0 {
      WithoutIsSubsequence(s[1..], marks);
      if s[0] in marks {
        SubsequenceOfSuffix(Without(s, marks), s, 1);
      }
    }
  }

  /** Deleting one set of characters and then another deletes both. */
  lemma {:induction false} WithoutTwice(s: string, first: set<char>, second: set<char>)
    ensures Without(Without(s, first), second) == Without(s, first + second)
  {
    if |s| > 0 {
      WithoutTwice(s[1..], first, second);
      if s[0] !in first {
        assert Without(s, first) == [s[0]] + Without(s[1..], first);
        assert Without(s, first)[1..] == Without(s[1..], first);
      }
    }
  }

  // ---------------------------------------------------------------------
  // Tag removal: re.sub(r'</?[^>]+>', '', text)
  // ---------------------------------------------------------------------

  /** The position of the first `>` in `s`, if any. */
  function FirstGt(s: string): (r: Option<nat>)
    ensures r.Some? ==> r.value < |s| && s[r.value] == '>' && '>' !in s[..r.value]
    ensures r.None? ==> '>' !in s
  {
    if |s| == 0 then None
    else if s[0] == '>' then Some(0)
    else
      match FirstGt(s[1..])
      case None => None
      case Some(k) =>
        assert s[..k + 1] == [s[0]] + s[1..][..k];
        Some(k + 1)
  }

  /**
   * `t` as a whole matches `</?[^>]+>`: `<`, at least one character other
   * than `>`, and `>`. The optional `/` of the pattern adds no match of its
   * own, since a `/` is itself a character other than `>`.
   */
  predicate IsTag(t: string)
  {
    3 <= |t| && t[0] == '<' && t[|t| - 1] == '>' && '>' !in t[1..|t| - 1]
  }

  /**
   * The length of the match of the pattern at the start of `s`: it runs up
   * to the first `>`, and there is none when that `>` comes right after the
   * `<` or there is no `>` at all.
   */
  function TagLength(s: string): Option<nat>
  {
    if |s| == 0 || s[0] != '<' then None
    else
      match FirstGt(s[1..])
      case None => None
      case Some(k) => if k == 0 then None else Some(k + 2)
  }

  /** A `>` with none before it is the first one. */
  lemma {:induction false} FirstGtAt(u: string, k: nat)
    requires k < |u| && u[k] == '>' && '>' !in u[..k]
    ensures FirstGt(u) == Some(k)
  {
    if k > 0 {
      assert u[0] == u[..k][0];
      assert u[1..][..k - 1] == u[..k][1..];
      FirstGtAt(u[1..], k - 1);
    }
  }

  /** `TagLength` finds exactly the prefixes of `s` that the pattern matches: the match at a position is unique. */
  lemma TagLengthMatches(s: string, n: nat)
    ensures TagLength(s) == Some(n) <==> n <= |s| && IsTag(s[..n])
  {
    if n <= |s| && IsTag(s[..n]) {
      assert s[..n][1..n - 1] == s[1..][..n - 2];
      FirstGtAt(s[1..], n - 2);
    }
    if TagLength(s) == Some(n) {
      var k := n - 2;
      assert s[..n][1..n - 1] == s[1..][..k];
    }
  }

  /**
   * `re.sub(r'</?[^>]+>', '', s)`: scan from the left, deleting each match
   * and keeping every other character. It only deletes: what remains is a
   * subsequence of the input.
   */
  function StripTags(s: string): (r: string)
    ensures IsSubsequence(r, s)
    decreases |s|
  {
    if |s| == 0 then ""
    else
      match TagLength(s)
      case Some(n) =>
        SubsequenceOfSuffix(StripTags(s[n..]), s, n);
        StripTags(s[n..])
      case None =>
        assert ([s[0]] + StripTags(s[1..]))[1..] == StripTags(s[1..]);
        [s[0]] + StripTags(s[1..])
  }

  /** Text with no `<` passes through tag removal unchanged. */
  lemma {:induction false} NoAngleUnchanged(s: string)
    requires '<' !in s
    ensures StripTags(s) == s
    decreases |s|
  {
    if |s| > 0 {
      assert s[0] in s;
      assert forall c :: c in s[1..] ==> c in s;
      NoAngleUnchanged(s[1..]);
    }
  }

  /** A bare `<>` is kept: the pattern needs a character between the brackets. */
  lemma EmptyBracketsKept(rest: string)
    ensures StripTags("<>" + rest) == "<>" + StripTags(rest)
  {
    var s := "<>" + rest;
    assert FirstGt(s[1..]) == Some(0);
    assert s[1..][1..] == rest;
  }

  /** A whole tag at the front is deleted, whatever follows it. */
  lemma TagRemoved(tag: string, rest: string)
    requires IsTag(tag)
    ensures StripTags(tag + rest) == StripTags(rest)
  {
    var s := tag + rest;
    assert s[..|tag|] == tag;
    TagLengthMatches(s, |tag|);
    assert s[|tag|..] == rest;
  }

  /** No position of `s` starts a match of the pattern. */
  ghost predicate TagFree(s: string)
  {
    forall i :: 0 <= i <= |s| ==> TagLength(s[i..]).None?
  }

  /** Text without a tag passes through tag removal unchanged. */
  lemma {:induction false} TagFreeUnchanged(s: string)
    requires TagFree(s)
    ensures StripTags(s) == s
    decreases |s|
  {
    if |s| > 0 {
      assert s[0..] == s;
      assert forall i :: 0 <= i <= |s| - 1 ==> s[1..][i..] == s[i + 1..];
      TagFreeUnchanged(s[1..]);
    }
  }

  /** A string that does not start with `<` keeps its first character through tag removal. */
  lemma FirstKept(s: string)
    requires 0 < |s| && s[0] != '<'
    ensures StripTags(s) == [s[0]] + StripTags(s[1..])
  {
  }

  /** Tag removal leaves no tag behind: `<` survives only where no `>` could close a tag. */
  lemma {:induction false} StripTagsTagFree(s: string)
    ensures TagFree(StripTags(s))
    decreases |s|
  {
    if |s| > 0 {
      match TagLength(s)
      case Some(n) =>
        StripTagsTagFree(s[n..]);
      case None =>
        var r := StripTags(s[1..]);
        var out := [s[0]] + r;
        StripTagsTagFree(s[1..]);
        assert forall i :: 1 <= i <= |out| ==> out[i..] == r[i - 1..];
        assert out[0..] == out;
        if s[0] == '<' {
          match FirstGt(s[1..])
          case None =>
            SubsequenceElements(r, s[1..]);
            assert out[1..] == r;
          case Some(k) =>
            assert k == 0;
            FirstKept(s[1..]);
            assert out[1..][0] == '>';
        }
    }
  }

  /** Removing tags twice removes nothing more. */
  lemma StripTagsIdempotent(s: string)
    ensures StripTags(StripTags(s)) == StripTags(s)
  {
    StripTagsTagFree(s);
    TagFreeUnchanged(StripTags(s));
  }

  // ---------------------------------------------------------------------
  // str.strip()
  // ---------------------------------------------------------------------

  /** Python's `str.isspace` for one character: the ASCII and Unicode white space and separators. */
  predicate IsSpace(c: char)
  {
    || ('\t' <= c <= '\r') || ('\U{1C}' <= c <= '\U{1F}') || c == ' '
    || c == '\U{85}' || c == '\U{A0}' || c == '\U{1680}'
    || ('\U{2000}' <= c <= '\U{200A}') || c == '\U{2028}' || c == '\U{2029}'
    || c == '\U{202F}' || c == '\U{205F}' || c == '\U{3000}'
  }

  /** Where the white space that starts at `i` ends: the first non-space position from `i` on, or the end. */
  function SpaceEnd(s: string, i: nat): (n: nat)
    requires i <= |s|
    ensures i <= n <= |s|
    ensures forall k :: i <= k < n ==> IsSpace(s[k])
    ensures n == |s| || !IsSpace(s[n])
    decreases |s| - i
  {
    if i < |s| && IsSpace(s[i]) then SpaceEnd(s, i + 1) else i
  }

  /** Where the white space that ends at `j` starts, looking no further back than `lo`. */
  function SpaceStart(s: string, lo: nat, j: nat): (n: nat)
    requires lo <= j <= |s|
    ensures lo <= n <= j
    ensures forall k :: n <= k < j ==> IsSpace(s[k])
    ensures n == lo || !IsSpace(s[n - 1])
    decreases j
  {
    if lo < j && IsSpace(s[j - 1]) then SpaceStart(s, lo, j - 1) else j
  }

  /**
   * `s.strip()`: the part of `s` between its leading and its trailing white
   * space, which neither starts nor ends with white space.
   */
  function Strip(s: string): (r: string)
    ensures var start := SpaceEnd(s, 0);
      && start + |r| <= |s| && r == s[start..start + |r|]
      && (forall i :: 0 <= i < start ==> IsSpace(s[i]))
      && (forall i :: start + |r| <= i < |s| ==> IsSpace(s[i]))
    ensures r == [] || (!IsSpace(r[0]) && !IsSpace(r[|r| - 1]))
  {
    var start := SpaceEnd(s, 0);
    s[start..SpaceStart(s, start, |s|)]
  }

  /** Text that neither starts nor ends with white space is its own strip. */
  lemma StripUnchanged(s: string)
    requires s == [] || (!IsSpace(s[0]) && !IsSpace(s[|s| - 1]))
    ensures Strip(s) == s
  {
  }

  /** Stripping twice strips nothing more. */
  lemma StripIdempotent(s: string)
    ensures Strip(Strip(s)) == Strip(s)
  {
    StripUnchanged(Strip(s));
  }

  // ---------------------------------------------------------------------
  // Markdown removal
  // ---------------------------------------------------------------------

  const EmphasisMarks: set<char> := {'*', '_'}
  const CodeMarks: set<char> := {'`', '#'}
  const MarkdownMarks: set<char> := EmphasisMarks + CodeMarks

  /**
   * `re.sub(r'\*\*|__|\*|_', '', s)`: scan from the left, deleting a doubled
   * `**` or `__` in one step, else a single `*` or `_`. Whether doubled or
   * single, the alternation deletes exactly the characters `*` and `_`.
   */
  function RemoveEmphasis(s: string): (r: string)
    ensures r == Without(s, EmphasisMarks)
    decreases |s|
  {
    if |s| == 0 then ""
    else if 2 <= |s| && s[0] == '*' && s[1] == '*' then
      assert s[1..][1..] == s[2..];
      RemoveEmphasis(s[2..])
    else if 2 <= |s| && s[0] == '_' && s[1] == '_' then
      assert s[1..][1..] == s[2..];
      RemoveEmphasis(s[2..])
    else if s[0] == '*' || s[0] == '_' then RemoveEmphasis(s[1..])
    else [s[0]] + RemoveEmphasis(s[1..])
  }

  /**
   * `re.sub(r'[`#]', '', s)`: no backquote or `#` is left, and every other
   * character is kept as often as it occurs.
   */
  function RemoveCodeMarks(s: string): (r: string)
    ensures forall i :: 0 <= i < |r| ==> r[i] !in CodeMarks
    ensures forall c :: c !in CodeMarks ==> multiset(r)[c] == multiset(s)[c]
  {
    Without(s, CodeMarks)
  }

  /**
   * The two Markdown steps only delete: the result holds none of the four
   * Markdown characters, every other character of the input survives as
   * often as it occurs there, and in the same order.
   */
  lemma MarkdownStepsOnlyDelete(s: string)
    ensures var r := RemoveCodeMarks(RemoveEmphasis(s));
      && r == Without(s, MarkdownMarks)
      && (forall i :: 0 <= i < |r| ==> r[i] !in MarkdownMarks)
      && (forall c :: c !in MarkdownMarks ==> multiset(r)[c] == multiset(s)[c])
      && IsSubsequence(r, s)
  {
    WithoutTwice(s, EmphasisMarks, CodeMarks);
    WithoutIsSubsequence(s, MarkdownMarks);
  }

  // ---------------------------------------------------------------------
  // The pipeline
  // ---------------------------------------------------------------------

  /**
   * `sanitize_text`: tags removed, then white space stripped, then entities
   * decoded by `unescape`, then the Markdown characters deleted. The result
   * holds none of `*`, `_`, backquote and `#`.
   */
  function SanitizeText(unescape: string -> string, text: string): (r: string)
    ensures forall i :: 0 <= i < |r| ==> r[i] !in MarkdownMarks
  {
    var decoded := unescape(Strip(StripTags(text)));
    MarkdownStepsOnlyDelete(decoded);
    RemoveCodeMarks(RemoveEmphasis(decoded))
  }

  /**
   * What `sanitize_text` returns: the tag-free text is stripped before it is
   * decoded, and of the decoded text every character but the four Markdown
   * ones is kept, in order.
   */
  lemma SanitizeTextSteps(unescape: string -> string, text: string)
    ensures var decoded := unescape(Strip(StripTags(text)));
      && SanitizeText(unescape, text) == Without(decoded, MarkdownMarks)
      && IsSubsequence(SanitizeText(unescape, text), decoded)
  {
    MarkdownStepsOnlyDelete(unescape(Strip(StripTags(text))));
  }

  /** When decoding leaves text without tags or Markdown characters alone, such text that is already stripped comes out unchanged. */
  lemma PlainTextUnchanged(unescape: string -> string, text: string)
    requires TagFree(text) && (text == [] || (!IsSpace(text[0]) && !IsSpace(text[|text| - 1])))
    requires forall i :: 0 <= i < |text| ==> text[i] !in MarkdownMarks
    requires unescape(text) == text
    ensures SanitizeText(unescape, text) == text
  {
    TagFreeUnchanged(text);
    StripUnchanged(text);
    SanitizeTextSteps(unescape, text);
    WithoutNothing(text, MarkdownMarks);
  }

  /** `<b>` is a tag, which the Markdown steps leave alone. */
  lemma BoldTag()
    ensures TagLength("<b>") == Some(3) && !TagFree("<b>")
    ensures Without("<b>", MarkdownMarks) == "<b>"
  {
    var tag := "<b>";
    assert tag[1..][..1] == "b";
    FirstGtAt(tag[1..], 1);
    assert tag[0..] == tag;
    WithoutNothing(tag, MarkdownMarks);
  }

  /**
   * Decoding runs after tag removal, so it can produce a tag that reaches the
   * output: text without `<` whose decoding is `<b>` sanitises to `<b>`, and
   * a tag starts at its first position.
   */
  lemma DecodedTagSurvives(unescape: string -> string, text: string)
    requires '<' !in text && (text == [] || (!IsSpace(text[0]) && !IsSpace(text[|text| - 1])))
    requires unescape(text) == "<b>"
    ensures SanitizeText(unescape, text) == "<b>"
    ensures TagLength(SanitizeText(unescape, text)) == Some(3)
    ensures !TagFree(SanitizeText(unescape, text))
  {
    NoAngleUnchanged(text);
    StripUnchanged(text);
    SanitizeTextSteps(unescape, text);
    BoldTag();
  }

  /** Deleting characters that do not occur changes nothing. */
  lemma {:induction false} WithoutNothing(s: string, marks: set<char>)
    requires forall i :: 0 <= i < |s| ==> s[i] !in marks
    ensures Without(s, marks) == s
  {
    if |s| > 0 {
      WithoutNothing(s[1..], marks);
    }
  }
}
