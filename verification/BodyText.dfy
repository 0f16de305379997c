/** Log-friendly summaries of response bodies (internal/clients/vcd/errors.go).
    Bodies are sequences of characters whose lower-casing keeps positions: only A to Z change. */
module BodyText {
  import opened Wrappers

  const MAX_BODY_LEN := 200

  function LowerChar(c: char): char {
    if 'A' <= c <= 'Z' then (c as int + 32) as char else c
  }

  function Lower(s: string): (r: string)
    ensures |r| == |s|
    ensures forall k :: 0 <= k < |s| ==> r[k] == LowerChar(s[k])
  {
    seq(|s|, i requires 0 <= i < |s| => LowerChar(s[i]))
  }

  /** `needle` occurs in `s` at position `k`, character for character. */
  predicate OccursAt(s: string, needle: string, k: int) {
    && 0 <= k && k + |needle| <= |s|
    && forall m :: 0 <= m < |needle| ==> s[k + m] == needle[m]
  }

  /** `needle` occurs in `s` at position `k` when letter case is ignored. */
  ghost predicate OccursIgnoringCaseAt(s: string, needle: string, k: int) {
    && 0 <= k && k + |needle| <= |s|
    && forall m :: 0 <= m < |needle| ==> LowerChar(s[k + m]) == LowerChar(needle[m])
  }

  /** The position of the first occurrence at or after `from`, or None (strings.Index). */
  function Index(s: string, needle: string, from: nat): (r: Option<nat>)
    ensures r.Some? ==> from <= r.value && OccursAt(s, needle, r.value)
    ensures r.Some? ==> forall k :: from <= k < r.value ==> !OccursAt(s, needle, k)
    ensures r.None? ==> forall k :: from <= k ==> !OccursAt(s, needle, k)
    decreases |s| - from
  {
    if from + |needle| > |s| then None
    else if OccursAt(s, needle, from) then Some(from)
    else Index(s, needle, from + 1)
  }

  /** unicode.IsSpace. */
  predicate IsSpace(c: char) {
    || c == ' ' || '\t' <= c <= '\r' || c == '\U{85}' || c == '\U{A0}'
    || c == '\U{1680}' || '\U{2000}' <= c <= '\U{200A}' || c == '\U{2028}' || c == '\U{2029}'
    || c == '\U{202F}' || c == '\U{205F}' || c == '\U{3000}'
  }

  function SkipSpaces(s: string, from: nat): (k: nat)
    requires from <= |s|
    ensures from <= k <= |s| && (k < |s| ==> !IsSpace(s[k]))
    ensures forall m :: from <= m < k ==> IsSpace(s[m])
    decreases |s| - from
  {
    if from < |s| && IsSpace(s[from]) then SkipSpaces(s, from + 1) else from
  }

  function DropSpaces(s: string, low: nat, to: nat): (k: nat)
    requires low <= to <= |s|
    ensures low <= k <= to && (low < k ==> !IsSpace(s[k - 1]))
    ensures forall m :: k <= m < to ==> IsSpace(s[m])
  {
    if low < to && IsSpace(s[to - 1]) then DropSpaces(s, low, to - 1) else to
  }

  /** `s[a..b]` is `s` without the white space around it. */
  ghost predicate Trimmed(s: string, a: nat, b: nat) {
    && a <= b <= |s|
    && (forall m :: 0 <= m < a ==> IsSpace(s[m]))
    && (forall m :: b <= m < |s| ==> IsSpace(s[m]))
    && (a < b ==> !IsSpace(s[a]) && !IsSpace(s[b - 1]))
  }

  /** strings.TrimSpace. */
  function TrimSpace(s: string): string {
    var a := SkipSpaces(s, 0);
    s[a..DropSpaces(s, a, |s|)]
  }

  lemma TrimSpaceTrims(s: string)
    ensures exists a: nat, b: nat :: Trimmed(s, a, b) && TrimSpace(s) == s[a..b]
  {
    var a := SkipSpaces(s, 0);
    assert Trimmed(s, a, DropSpaces(s, a, |s|));
  }

  const UPPER_CASE := "ABCDEFGHIJKLMNOPQRSTUVWXYZ"
  const LOWER_CASE := "abcdefghijklmnopqrstuvwxyz"

  /** Lower-casing takes each capital letter to its small one and keeps every other character. */
  lemma LowerCharMeaning(c: char)
    ensures forall k :: 0 <= k < 26 && c == UPPER_CASE[k] ==> LowerChar(c) == LOWER_CASE[k]
    ensures c !in UPPER_CASE ==> LowerChar(c) == c
  {
    assert forall k :: 0 <= k < 26 ==> UPPER_CASE[k] as int == 'A' as int + k && LOWER_CASE[k] as int == 'a' as int + k;
    if 'A' <= c <= 'Z' { assert UPPER_CASE[c as int - 'A' as int] == c; }
  }

  /** The characters that Unicode calls white space. */
  const WHITE_SPACE :=
    "\t\n\U{0B}\U{0C}\r \U{85}\U{A0}\U{1680}\U{2000}\U{2001}\U{2002}\U{2003}\U{2004}\U{2005}\U{2006}"
    + "\U{2007}\U{2008}\U{2009}\U{200A}\U{2028}\U{2029}\U{202F}\U{205F}\U{3000}"

  lemma IsSpaceMeaning(c: char)
    ensures IsSpace(c) <==> c in WHITE_SPACE
  {
    assert |WHITE_SPACE| == 25;
    assert WHITE_SPACE[0] == '\t' && WHITE_SPACE[1] == '\n' && WHITE_SPACE[2] == '\U{0B}' && WHITE_SPACE[3] == '\U{0C}';
    assert WHITE_SPACE[4] == '\r' && WHITE_SPACE[5] == ' ' && WHITE_SPACE[6] == '\U{85}' && WHITE_SPACE[7] == '\U{A0}';
    assert WHITE_SPACE[8] == '\U{1680}' && WHITE_SPACE[20] == '\U{2028}' && WHITE_SPACE[21] == '\U{2029}';
    assert WHITE_SPACE[22] == '\U{202F}' && WHITE_SPACE[23] == '\U{205F}' && WHITE_SPACE[24] == '\U{3000}';
    assert forall k :: 9 <= k < 20 ==> WHITE_SPACE[k] as int == 0x2000 + k - 9;
    if '\U{2000}' <= c <= '\U{200A}' { assert WHITE_SPACE[c as int - 0x2000 + 9] == c; }
  }

  lemma LowerOccurrence(s: string, needle: string, k: int)
    ensures OccursAt(Lower(s), Lower(needle), k) <==> OccursIgnoringCaseAt(s, needle, k)
  {
    var ls, ln := Lower(s), Lower(needle);
    if 0 <= k && k + |needle| <= |s| {
      assert forall m :: k <= m < k + |needle| ==> ls[m] == LowerChar(s[m]);
      assert OccursAt(ls, ln, k) <==> forall m :: 0 <= m < |needle| ==> ls[k + m] == ln[m];
    }
  }

  /** strings.Index after strings.ToLower on both sides. */
  function IndexIgnoringCase(s: string, needle: string): Option<nat> {
    Index(Lower(s), Lower(needle), 0)
  }

  lemma IndexIgnoringCaseIsFirst(s: string, needle: string)
    ensures var r := IndexIgnoringCase(s, needle);
            && (r.Some? ==> OccursIgnoringCaseAt(s, needle, r.value))
            && (forall k :: 0 <= k && (r.Some? ==> k < r.value) ==> !OccursIgnoringCaseAt(s, needle, k))
  {
    forall k ensures OccursAt(Lower(s), Lower(needle), k) <==> OccursIgnoringCaseAt(s, needle, k) {
      LowerOccurrence(s, needle, k);
    }
  }

  /** The trimmed text between the first `open` and the first `close` behind it, or "". */
  function TextBetween(html: string, open: string, close: string): string {
    match IndexIgnoringCase(html, open)
    case None => ""
    case Some(i) =>
      var rest := html[i + |open|..];
      match IndexIgnoringCase(rest, close)
      case None => ""
      case Some(j) => TrimSpace(rest[..j])
  }

  function OpenTag(tag: string): string { "<" + tag + ">" }

  function CloseTag(tag: string): string { "</" + tag + ">" }

  function ExtractTag(html: string, tag: string): string {
    TextBetween(html, OpenTag(tag), CloseTag(tag))
  }

  function Contains(s: string, needle: string): bool {
    Index(s, needle, 0).Some?
  }

  function SummarizeBody(body: string): string {
    if Contains(body, "<html") || Contains(body, "<HTML") then
      var title := ExtractTag(body, "title");
      var heading := ExtractTag(body, "h3");
      if title != "" then title else if heading != "" then heading else "(HTML error page)"
    else if |body| > MAX_BODY_LEN then body[..MAX_BODY_LEN] + "..."
    else body
  }

  // ---------- What the two functions promise ----------

  /** `needle` occurs at `k` for the first time at or after `from`, ignoring case. */
  ghost predicate FirstFrom(s: string, needle: string, from: nat, k: nat) {
    && from <= k && OccursIgnoringCaseAt(s, needle, k)
    && forall m :: from <= m < k ==> !OccursIgnoringCaseAt(s, needle, m)
  }

  /** The first opening tag is at `i` and the first closing tag after it at `j`. */
  ghost predicate FirstPair(html: string, open: string, close: string, i: nat, j: nat) {
    FirstFrom(html, open, 0, i) && FirstFrom(html, close, i + |open|, j)
  }

  lemma SuffixOccurrence(s: string, needle: string, start: nat, k: int)
    requires start <= |s| && 0 <= k
    ensures OccursIgnoringCaseAt(s[start..], needle, k) <==> OccursIgnoringCaseAt(s, needle, start + k)
  {
    if k + |needle| <= |s| - start {
      var rest := s[start..];
      assert forall m :: k <= m < k + |needle| ==> rest[m] == s[start + m];
      assert OccursIgnoringCaseAt(rest, needle, k)
             <==> forall m :: 0 <= m < |needle| ==> LowerChar(rest[k + m]) == LowerChar(needle[m]);
    }
  }

  lemma IndexIsFirst(s: string, needle: string, start: nat, k: nat)
    requires start <= |s|
    ensures FirstFrom(s, needle, start, start + k) <==> IndexIgnoringCase(s[start..], needle) == Some(k)
  {
    var rest := s[start..];
    IndexIgnoringCaseIsFirst(rest, needle);
    forall m: int | 0 <= m
      ensures OccursIgnoringCaseAt(rest, needle, m) <==> OccursIgnoringCaseAt(s, needle, start + m)
    {
      SuffixOccurrence(s, needle, start, m);
    }
    if FirstFrom(s, needle, start, start + k) {
      assert OccursIgnoringCaseAt(rest, needle, k);
    } else if IndexIgnoringCase(rest, needle) == Some(k) {
      forall m: int | start <= m < start + k ensures !OccursIgnoringCaseAt(s, needle, m) {
        assert !OccursIgnoringCaseAt(rest, needle, m - start);
      }
    }
  }

  lemma PairInBounds(html: string, open: string, close: string, i: nat, j: nat)
    requires FirstPair(html, open, close, i, j)
    ensures i + |open| <= j && j + |close| <= |html|
  {
  }

  lemma TextBetweenMeaning(html: string, open: string, close: string, i: nat, j: nat)
    requires FirstPair(html, open, close, i, j)
    ensures TextBetween(html, open, close) == TrimSpace(html[i + |open|..j])
  {
    hide IndexIgnoringCase, FirstFrom, TrimSpace;
    PairInBounds(html, open, close, i, j);
    var start, length := i + |open|, j - (i + |open|);
    assert IndexIgnoringCase(html, open) == Some(i) by {
      assert html[0..] == html;
      IndexIsFirst(html, open, 0, i);
    }
    assert IndexIgnoringCase(html[start..], close) == Some(length) by {
      IndexIsFirst(html, close, start, length);
    }
    var text := html[start..][..length];
    assert TextBetween(html, open, close) == TrimSpace(text);
    assert text == html[start..j];
  }

  lemma TextBetweenNothing(html: string, open: string, close: string)
    ensures TextBetween(html, open, close) != ""
            ==> exists i: nat, j: nat :: FirstPair(html, open, close, i, j)
  {
    hide IndexIgnoringCase;
    assert html[0..] == html;
    var first := IndexIgnoringCase(html, open);
    if first.Some? {
      var start := first.value + |open|;
      IndexIsFirst(html, open, 0, first.value);
      IndexIgnoringCaseIsFirst(html, open);
      var second := IndexIgnoringCase(html[start..], close);
      if second.Some? {
        IndexIsFirst(html, close, start, second.value);
        assert FirstPair(html, open, close, first.value, start + second.value);
      }
    }
  }

  /** ExtractTag is the trimmed text between the first opening tag and the first closing tag
      behind it, whatever their case, and nothing when one of the two is missing. */
  lemma ExtractTagMeaning(html: string, tag: string)
    ensures forall i: nat, j: nat :: FirstPair(html, OpenTag(tag), CloseTag(tag), i, j)
              ==> ExtractTag(html, tag) == TrimSpace(html[i + |OpenTag(tag)|..j])
    ensures (forall i: nat, j: nat :: !FirstPair(html, OpenTag(tag), CloseTag(tag), i, j))
              ==> ExtractTag(html, tag) == ""
  {
    hide TextBetween, FirstFrom, TrimSpace;
    var open, close := OpenTag(tag), CloseTag(tag);
    forall i: nat, j: nat | FirstPair(html, open, close, i, j) ensures i + |open| <= j <= |html| {
      PairInBounds(html, open, close, i, j);
    }
    forall i: nat, j: nat | FirstPair(html, open, close, i, j)
      ensures ExtractTag(html, tag) == TrimSpace(html[i + |open|..j])
    {
      TextBetweenMeaning(html, open, close, i, j);
    }
    TextBetweenNothing(html, open, close);
  }

  /** A body that is not an HTML page is cut after 200 characters exactly when it is longer;
      the one longer body that survives unchanged already ends in the dots. */
  lemma PlainBodiesAreKeptOrCut(body: string)
    requires forall k :: !OccursAt(body, "<html", k) && !OccursAt(body, "<HTML", k)
    ensures |SummarizeBody(body)| <= 203
    ensures |body| > 200 ==> SummarizeBody(body) == body[..200] + "..."
    ensures SummarizeBody(body) == body <==> |body| <= 200 || (|body| == 203 && body[200..] == "...")
  {
    if |body| > MAX_BODY_LEN {
      var head, tail := body[..MAX_BODY_LEN], body[MAX_BODY_LEN..];
      assert body == head + tail;
      assert (head + "...")[MAX_BODY_LEN..] == "...";
    }
  }

  /** A page is shown by its first title, or by its first heading if that has no text, and never as
      nothing. */
  lemma PagesShowTitleOrHeading(body: string, tag: string, i: nat, j: nat)
    requires exists k :: OccursAt(body, "<html", k) || OccursAt(body, "<HTML", k)
    requires FirstPair(body, OpenTag(tag), CloseTag(tag), i, j)
    ensures SummarizeBody(body) != ""
    ensures var text := TrimSpace(body[i + |OpenTag(tag)|..j]);
            text != "" && (tag == "title" || (tag == "h3" && ExtractTag(body, "title") == "")) ==> SummarizeBody(body) == text
  {
    hide ExtractTag, TrimSpace;
    assert ExtractTag(body, tag) == TrimSpace(body[i + |OpenTag(tag)|..j]) by {
      ExtractTagMeaning(body, tag);
    }
  }

  /** The body is an HTML page. */
  ghost predicate IsPage(body: string) {
    exists k :: OccursAt(body, "<html", k) || OccursAt(body, "<HTML", k)
  }

  /** The first element with this tag has text, and `text` is it. */
  ghost predicate ShowsText(body: string, tag: string, text: string) {
    && text != ""
    && exists i: nat, j: nat :: FirstPair(body, OpenTag(tag), CloseTag(tag), i, j)
                             && text == TrimSpace(body[i + |OpenTag(tag)|..j])
  }

  lemma ShownText(body: string, tag: string)
    ensures ExtractTag(body, tag) != "" ==> ShowsText(body, tag, ExtractTag(body, tag))
    ensures forall text :: ShowsText(body, tag, text) ==> text == ExtractTag(body, tag) != ""
  {
    hide ExtractTag, TrimSpace;
    ExtractTagMeaning(body, tag);
    forall text | ShowsText(body, tag, text) ensures text == ExtractTag(body, tag) != "" {
      var i: nat, j: nat :| FirstPair(body, OpenTag(tag), CloseTag(tag), i, j)
                            && text == TrimSpace(body[i + |OpenTag(tag)|..j]);
    }
  }

  /** The comment on maxBodyLen gives the limit for everything that is put into messages. The summary
      of a page is longer if and only if its title is, or its heading when it has no title text; the
      summary of any other body is longer, by its three dots, exactly when the body is. */
  lemma SummaryExceedsLimitExactlyWhen(body: string)
    ensures IsPage(body) ==>
              (|SummarizeBody(body)| > MAX_BODY_LEN <==>
                 || (exists text :: ShowsText(body, "title", text) && |text| > MAX_BODY_LEN)
                 || ((forall text :: !ShowsText(body, "title", text))
                     && exists text :: ShowsText(body, "h3", text) && |text| > MAX_BODY_LEN))
    ensures !IsPage(body) ==> (|SummarizeBody(body)| > MAX_BODY_LEN <==> |body| > MAX_BODY_LEN)
  {
    hide ExtractTag, ShowsText;
    ShownText(body, "title");
    ShownText(body, "h3");
    assert |"(HTML error page)"| <= MAX_BODY_LEN;
  }

  /** A page without text in its title and heading still says what it is. */
  lemma OtherPagesAreNamed(body: string)
    requires IsPage(body) && forall text :: !ShowsText(body, "title", text) && !ShowsText(body, "h3", text)
    ensures SummarizeBody(body) == "(HTML error page)"
  {
    hide ExtractTag, ShowsText;
    ShownText(body, "title");
    ShownText(body, "h3");
  }

  function Repeated(c: char, n: nat): (r: string)
    ensures |r| == n && forall k :: 0 <= k < n ==> r[k] == c
  {
    seq(n, _ => c)
  }

  /** A page with a title of any length n. */
  function TitlePage(n: nat): string {
    "<html><title>" + Repeated('a', n) + "</title>"
  }

  /** Pages with long titles exceed the limit without bound. */
  lemma LongTitlesAreNotCut(n: nat)
    requires n > 0
    ensures |SummarizeBody(TitlePage(n))| == n
  {
    hide FirstPair, ExtractTag;
    var page := TitlePage(n);
    var text := page[13..13 + n];
    assert text == Repeated('a', n);
    TitleIsFirst(n);
    assert OccursAt(page, "<html", 0);
    NothingToTrim(text);
    assert ExtractTag(page, "title") == TrimSpace(page[6 + |OpenTag("title")|..13 + n]) by {
      ExtractTagMeaning(page, "title");
    }
    assert |OpenTag("title")| == 7;
  }

  lemma NothingToTrim(text: string)
    requires forall k :: 0 <= k < |text| ==> !IsSpace(text[k])
    ensures TrimSpace(text) == text
  {
  }

  lemma TitleIsFirst(n: nat)
    ensures FirstPair(TitlePage(n), OpenTag("title"), CloseTag("title"), 6, 13 + n)
  {
    var page, open, close := TitlePage(n), OpenTag("title"), CloseTag("title");
    assert open == "<title>" && close == "</title>";
    assert page[6..13] == open && page[13 + n..] == close;
    assert forall k :: 6 <= k < 13 ==> page[k] == page[6..13][k - 6];
    assert forall k :: 13 + n <= k < |page| ==> page[k] == page[13 + n..][k - 13 - n];
    forall m | 0 <= m < 6 ensures !OccursIgnoringCaseAt(page, open, m) {
      assert page[1] == 'h' && open[1] == 't' && open[0] == '<';
      assert m > 0 ==> page[m] != '<';
      assert m + |open| <= |page| ==> (LowerChar(page[m + 0]) == LowerChar(open[0]) ==> m == 0);
      assert m == 0 ==> LowerChar(page[0 + 1]) != LowerChar(open[1]);
    }
    forall m | 13 <= m < 13 + n ensures !OccursIgnoringCaseAt(page, close, m) {
      assert page[m] == 'a' && close[0] == '<';
      assert LowerChar(page[m + 0]) != LowerChar(close[0]);
    }
  }
}
