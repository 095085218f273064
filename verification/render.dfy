/** Rendering of the two schemas as text (src/ai/mod.rs):
    `CommitMessage::format_conventional`, a bilingual Conventional Commits
    message, and `ChangelogSummary::format_display`, a Markdown changelog.
    Each renderer is written as the source writes it, pushing onto a
    growing string, and is proved equal to a declarative description of
    its output. */
module Render {
  import opened Basics
  import opened Text
  import opened Schema

  const Placeholder := "[Translation needed]"
  const BreakingPrefix := "BREAKING CHANGE: "

  // ---- format_conventional ----

  /** `type(scope): description`, then `description_en` on the next line. */
  function Header(m: CommitMessage): string {
    m.commitType
    + (match m.scope case Some(sc) => "(" + sc + ")" case None => "")
    + ": " + m.description + "\n" + m.descriptionEn
  }

  /** Body entry `i`: the Chinese line and a newline when there is one, then
      the English line, or the placeholder when only the Chinese line exists. */
  function BodyEntry(zh: seq<string>, en: seq<string>, i: nat): string {
    (if i < |zh| then zh[i] + "\n" else "")
    + (if i < |en| then en[i] else if i < |zh| then Placeholder else "")
  }

  /** One entry per index below the longer of the two lists. */
  function BodyEntries(zh: seq<string>, en: seq<string>): (es: seq<string>)
    ensures |es| == Max(|zh|, |en|)
  {
    seq(Max(|zh|, |en|), i requires 0 <= i => BodyEntry(zh, en, i))
  }

  /** The parts separated by exactly one `'\n'`. */
  function JoinLines(parts: seq<string>): string {
    if |parts| == 0 then ""
    else if |parts| == 1 then parts[0]
    else JoinLines(parts[..|parts| - 1]) + "\n" + parts[|parts| - 1]
  }

  /** Present only when both lists exist and at least one is non-empty. */
  function BodySection(m: CommitMessage): string {
    if m.body.Some? && m.bodyEn.Some? && (|m.body.value| > 0 || |m.bodyEn.value| > 0) then
      "\n\n" + JoinLines(BodyEntries(m.body.value, m.bodyEn.value))
    else ""
  }

  function Footer(m: CommitMessage): string {
    match m.breakingChange
    case Some(b) => "\n\n" + BreakingPrefix + b
    case None => ""
  }

  /** The rendered message: header, optional body, optional footer. */
  function ConventionalText(m: CommitMessage): string {
    Header(m) + BodySection(m) + Footer(m)
  }

  /** `format_conventional`, push by push. */
  method FormatConventional(m: CommitMessage) returns (message: string)
    ensures message == Header(m) + BodySection(m) + Footer(m)
  {
    message := PushHeader(m);
    ghost var body := BodySection(m);
    if m.body.Some? && m.bodyEn.Some? {
      var zh, en := m.body.value, m.bodyEn.value;
      if |zh| > 0 || |en| > 0 {
        ghost var header := message;
        message := message + "\n\n";
        message := PushBody(message, zh, en);
        assert body == "\n\n" + JoinLines(BodyEntries(zh, en));
        assert message == header + body;
      }
    }
    assert message == Header(m) + body;
    ghost var footer := Footer(m);
    if m.breakingChange.Some? {
      ghost var rest := message;
      message := message + "\n\n" + BreakingPrefix + m.breakingChange.value;
      assert footer == "\n\n" + BreakingPrefix + m.breakingChange.value;
      assert message == rest + footer;
    }
  }

  /** The header line and the English description under it. */
  method PushHeader(m: CommitMessage) returns (message: string)
    ensures message == Header(m)
  {
    message := m.commitType;
    if m.scope.Some? {
      message := message + "(" + m.scope.value + ")";
    }
    message := message + ": " + m.description + "\n" + m.descriptionEn;
  }

  /** The zip loop of `format_conventional`. */
  method PushBody(head: string, zh: seq<string>, en: seq<string>) returns (message: string)
    ensures message == head + JoinLines(BodyEntries(zh, en))
  {
    message := head;
    var maxLen := Max(|zh|, |en|);
    ghost var entries := BodyEntries(zh, en);
    var i := 0;
    while i < maxLen
      invariant 0 <= i <= maxLen
      invariant message == head + JoinLines(entries[..i])
    {
      ghost var before := message;
      if i > 0 {
        message := message + "\n";
      }
      ghost var separated := message;
      message := PushEntry(message, zh, en, i);
      BodyStep(head, zh, en, i, before, separated, message);
      i := i + 1;
    }
    assert entries[..maxLen] == entries;
  }

  /** One body entry: the Chinese line and its newline, then the English
      line or the placeholder. */
  method PushEntry(message: string, zh: seq<string>, en: seq<string>, i: nat) returns (out: string)
    ensures out == message + BodyEntry(zh, en, i)
    ensures i < |zh| && i < |en| ==> out == message + zh[i] + "\n" + en[i]
    ensures |en| <= i < |zh| ==> out == message + zh[i] + "\n" + Placeholder
    ensures |zh| <= i < |en| ==> out == message + en[i]
    ensures |zh| <= i && |en| <= i ==> out == message
  {
    out := message;
    if i < |zh| {
      out := out + zh[i] + "\n";
    }
    if i < |en| {
      out := out + en[i];
    } else if i < |zh| {
      out := out + Placeholder;
    }
  }

  /** Pushing entry `i`, after a newline unless it is the first, onto the
      body before it gives the body up to it. */
  lemma BodyStep(head: string, zh: seq<string>, en: seq<string>, i: nat,
                 before: string, separated: string, after: string)
    requires i < Max(|zh|, |en|)
    requires before == head + JoinLines(BodyEntries(zh, en)[..i])
    requires separated == before + (if i > 0 then "\n" else "")
    requires after == separated + BodyEntry(zh, en, i)
    ensures after == head + JoinLines(BodyEntries(zh, en)[..i + 1])
  {
    JoinLinesStep(BodyEntries(zh, en), i);
  }

  lemma JoinLinesStep(parts: seq<string>, i: nat)
    requires i < |parts|
    ensures i == 0 ==> JoinLines(parts[..i + 1]) == parts[i]
    ensures i > 0 ==> JoinLines(parts[..i + 1]) == JoinLines(parts[..i]) + "\n" + parts[i]
  {
    assert parts[..i + 1][..i] == parts[..i];
  }

  /** The header leads the message, scope in parentheses only when given. */
  lemma HeaderLeads(m: CommitMessage)
    ensures m.scope.None? ==>
      IsPrefix(m.commitType + ": " + m.description + "\n" + m.descriptionEn, ConventionalText(m))
    ensures m.scope.Some? ==>
      IsPrefix(m.commitType + "(" + m.scope.value + ")" + ": " + m.description + "\n" + m.descriptionEn,
               ConventionalText(m))
  {
    var h := Header(m);
    var t := ConventionalText(m);
    assert t == h + (BodySection(m) + Footer(m));
    assert t[..|h|] == h;
    if m.scope.None? {
      assert m.commitType + "" == m.commitType;
    }
  }

  /** The footer closes the message exactly when a breaking change is set. */
  lemma BreakingFooterIff(m: CommitMessage)
    ensures m.breakingChange.Some? ==> IsSuffix("\n\nBREAKING CHANGE: " + m.breakingChange.value, ConventionalText(m))
    ensures m.breakingChange.None? ==> ConventionalText(m) == Header(m) + BodySection(m)
  {
    var t := ConventionalText(m);
    if m.breakingChange.Some? {
      var f := "\n\nBREAKING CHANGE: " + m.breakingChange.value;
      assert Footer(m) == f;
      assert t == (Header(m) + BodySection(m)) + f;
      assert t[|t| - |f|..] == f;
    }
  }

  /** A missing `body` or `body_en` drops every body line, even when the
      other list has content. */
  lemma BodyNeedsBothLists(m: CommitMessage)
    requires m.body.None? || m.bodyEn.None?
    ensures ConventionalText(m) == Header(m) + Footer(m)
  {
  }

  /** Two empty lists render no body section either. */
  lemma EmptyListsRenderNoBody(m: CommitMessage)
    requires m.body == Some([]) && m.bodyEn == Some([])
    ensures ConventionalText(m) == Header(m) + Footer(m)
  {
  }

  /** The three shapes of an entry: a pair, a Chinese line awaiting its
      translation, and an English line without a Chinese counterpart. */
  lemma BodyEntryShapes(zh: seq<string>, en: seq<string>, i: nat)
    requires i < Max(|zh|, |en|)
    ensures i < |zh| && i < |en| ==> BodyEntries(zh, en)[i] == zh[i] + "\n" + en[i]
    ensures |en| <= i < |zh| ==> BodyEntries(zh, en)[i] == zh[i] + "\n" + Placeholder
    ensures |zh| <= i < |en| ==> BodyEntries(zh, en)[i] == en[i]
  {
  }

  /** Joining one more part appends a single separator and the part. */
  lemma JoinLinesSnoc(parts: seq<string>, p: string)
    requires |parts| > 0
    ensures JoinLines(parts + [p]) == JoinLines(parts) + "\n" + p
  {
    assert (parts + [p])[..|parts|] == parts;
  }

  /** The example of the asymmetric zip: `["a","b"]` against `["x"]`. */
  lemma AsymmetricZipExample()
    ensures JoinLines(BodyEntries(["a", "b"], ["x"])) == "a\nx\nb\n[Translation needed]"
  {
    var es := BodyEntries(["a", "b"], ["x"]);
    assert es[0] == "a" + "\n" + "x";
    assert es[1] == "b" + "\n" + Placeholder;
    assert es[..1] == [es[0]];
    assert es == es[..1] + [es[1]];
    JoinLinesSnoc(es[..1], es[1]);
    ZipExampleText();
  }

  lemma ZipExampleText()
    ensures "a" + "\n" + "x" + "\n" + ("b" + "\n" + Placeholder) == "a\nx\nb\n[Translation needed]"
  {
  }

  // ---- format_display ----

  const HighlightsHeading := "### 亮点 / Highlights"
  const FeaturesHeading := "### ✨ 新功能 / Features"
  const FixesHeading := "### 🐛 修复 / Fixes"
  const ImprovementsHeading := "### 🔧 改进 / Improvements"
  const OthersHeading := "### 📝 其他 / Others"

  /** Every line followed by `'\n'`. */
  function Unlines(lines: seq<string>): string {
    if lines == [] then "" else Unlines(lines[..|lines| - 1]) + lines[|lines| - 1] + "\n"
  }

  lemma {:induction false} UnlinesAppend(a: seq<string>, b: seq<string>)
    ensures Unlines(a + b) == Unlines(a) + Unlines(b)
    decreases |b|
  {
    if b == [] {
      assert a + b == a;
    } else {
      var b' := b[..|b| - 1];
      assert (a + b)[..|a + b| - 1] == a + b';
      UnlinesAppend(a, b');
    }
  }

  function TitleLines(s: ChangelogSummary): seq<string> {
    ["## " + s.title, "## " + s.titleEn, ""]
  }

  /** Pairs of highlights, as far as the shorter list goes. */
  function HighlightPairs(zh: seq<string>, en: seq<string>): (ls: seq<string>)
    ensures |ls| == Min(|zh|, |en|)
  {
    seq(Min(|zh|, |en|), i requires 0 <= i < Min(|zh|, |en|) => "- " + zh[i] + " / " + en[i])
  }

  /** The highlights block exists whenever the Chinese list is non-empty. */
  function HighlightLines(s: ChangelogSummary): seq<string> {
    if |s.highlights| == 0 then []
    else [HighlightsHeading] + HighlightPairs(s.highlights, s.highlightsEn) + [""]
  }

  function Items(items: seq<string>): (ls: seq<string>)
    ensures |ls| == |items|
  {
    seq(|items|, i requires 0 <= i < |items| => "- " + items[i])
  }

  /** A category section exists only when its list is non-empty. */
  function Section(heading: string, items: seq<string>): seq<string> {
    if |items| == 0 then [] else [heading] + Items(items) + [""]
  }

  /** All lines of the changelog, in display order. */
  function DisplayLines(s: ChangelogSummary): seq<string> {
    var c := s.categories;
    TitleLines(s) + HighlightLines(s)
    + Section(FeaturesHeading, c.features) + Section(FixesHeading, c.fixes)
    + Section(ImprovementsHeading, c.improvements) + Section(OthersHeading, c.others)
  }

  /** Pushes `lines` one by one onto `output`. */
  method PushLines(output: string, lines: seq<string>) returns (out: string)
    ensures out == output + Unlines(lines)
  {
    out := output;
    var i := 0;
    while i < |lines|
      invariant 0 <= i <= |lines|
      invariant out == output + Unlines(lines[..i])
    {
      out := out + lines[i] + "\n";
      assert lines[..i + 1][..i] == lines[..i];
      i := i + 1;
    }
    assert lines[..|lines|] == lines;
  }

  /** One category block: heading, one `- item` line per item, blank line. */
  method PushSection(output: string, heading: string, items: seq<string>) returns (out: string)
    ensures out == output + Unlines(Section(heading, items))
  {
    out := output;
    if |items| > 0 {
      out := out + heading + "\n";
      assert out == output + Unlines([heading]);
      var i := 0;
      while i < |items|
        invariant 0 <= i <= |items|
        invariant out == output + Unlines([heading] + Items(items)[..i])
      {
        out := out + "- " + items[i] + "\n";
        assert [heading] + Items(items)[..i + 1] == ([heading] + Items(items)[..i]) + [Items(items)[i]];
        i := i + 1;
      }
      assert Items(items)[..|items|] == Items(items);
      out := out + "\n";
      assert Section(heading, items) == ([heading] + Items(items)) + [""];
    }
  }

  /** `format_display`, push by push. */
  method FormatDisplay(s: ChangelogSummary) returns (output: string)
    ensures output == Unlines(DisplayLines(s))
  {
    output := PushTitles(s);
    output := PushHighlights(output, s);
    var c := s.categories;
    ghost var lines := TitleLines(s) + HighlightLines(s);
    output := PushSection(output, FeaturesHeading, c.features);
    UnlinesAppend(lines, Section(FeaturesHeading, c.features));
    lines := lines + Section(FeaturesHeading, c.features);
    output := PushSection(output, FixesHeading, c.fixes);
    UnlinesAppend(lines, Section(FixesHeading, c.fixes));
    lines := lines + Section(FixesHeading, c.fixes);
    output := PushSection(output, ImprovementsHeading, c.improvements);
    UnlinesAppend(lines, Section(ImprovementsHeading, c.improvements));
    lines := lines + Section(ImprovementsHeading, c.improvements);
    output := PushSection(output, OthersHeading, c.others);
    UnlinesAppend(lines, Section(OthersHeading, c.others));
    lines := lines + Section(OthersHeading, c.others);
    assert lines == DisplayLines(s);
  }

  /** The two title lines and the blank line after them. */
  method PushTitles(s: ChangelogSummary) returns (output: string)
    ensures output == Unlines(TitleLines(s))
    ensures output == "## " + s.title + "\n## " + s.titleEn + "\n\n"
  {
    output := "## " + s.title + "\n";
    output := output + "## " + s.titleEn + "\n\n";
    ghost var t := TitleLines(s);
    assert t[..2][..1] == [t[0]] && [t[0]][..0] == [];
    assert Unlines([t[0]]) == t[0] + "\n";
    assert Unlines(t[..2]) == Unlines([t[0]]) + t[1] + "\n";
    assert Unlines(t) == Unlines(t[..2]) + t[2] + "\n";
  }

  /** The highlights block: zips the two lists, so the shorter one decides
      how many pairs are shown. */
  method PushHighlights(titles: string, s: ChangelogSummary) returns (output: string)
    requires titles == Unlines(TitleLines(s))
    ensures output == Unlines(TitleLines(s) + HighlightLines(s))
  {
    output := titles;
    if |s.highlights| > 0 {
      output := output + HighlightsHeading + "\n";
      output := PushPairs(output, s.highlights, s.highlightsEn);
      output := output + "\n";
      HighlightBlock(TitleLines(s), s);
    } else {
      assert TitleLines(s) + HighlightLines(s) == TitleLines(s);
    }
  }

  /** The zip loop over the highlights. */
  method PushPairs(output: string, zh: seq<string>, en: seq<string>) returns (out: string)
    ensures out == output + Unlines(HighlightPairs(zh, en))
  {
    out := output;
    ghost var pairs := HighlightPairs(zh, en);
    var i := 0;
    while i < Min(|zh|, |en|)
      invariant 0 <= i <= Min(|zh|, |en|)
      invariant out == output + Unlines(pairs[..i])
    {
      out := out + "- " + zh[i] + " / " + en[i] + "\n";
      assert pairs[..i + 1][..i] == pairs[..i];
      i := i + 1;
    }
    assert pairs[..i] == pairs;
  }

  lemma HighlightBlock(t: seq<string>, s: ChangelogSummary)
    requires |s.highlights| > 0
    ensures Unlines(t + HighlightLines(s))
            == Unlines(t) + HighlightsHeading + "\n" + Unlines(HighlightPairs(s.highlights, s.highlightsEn)) + "\n"
  {
    UnlinesAppend(t, HighlightLines(s));
    UnlinesBlock(HighlightsHeading, HighlightPairs(s.highlights, s.highlightsEn));
  }

  /** A block of lines between a heading and a blank line. */
  lemma UnlinesBlock(heading: string, lines: seq<string>)
    ensures Unlines([heading] + lines + [""]) == heading + "\n" + Unlines(lines) + "\n"
  {
    assert Unlines([heading]) == heading + "\n" by {
      assert [heading][..0] == [];
    }
    UnlinesAppend([heading], lines);
    assert ([heading] + lines + [""])[..|lines| + 1] == [heading] + lines;
  }

  /** Number of lines a section adds. */
  function SectionSize(items: seq<string>): nat {
    if |items| == 0 then 0 else |items| + 2
  }

  /** Line count: three title lines, the highlight block with one line per
      pair of the shorter list, and each non-empty category. */
  lemma DisplayLineCount(s: ChangelogSummary)
    ensures |DisplayLines(s)| ==
      3 + (if |s.highlights| == 0 then 0 else Min(|s.highlights|, |s.highlightsEn|) + 2)
      + SectionSize(s.categories.features) + SectionSize(s.categories.fixes)
      + SectionSize(s.categories.improvements) + SectionSize(s.categories.others)
  {
  }

  /** The highlights heading appears without any pair when the English list
      is empty, and is absent when the Chinese list is empty. */
  lemma HighlightHeadingFollowsChineseList(s: ChangelogSummary)
    ensures |s.highlights| > 0 && |s.highlightsEn| == 0 ==> HighlightLines(s) == [HighlightsHeading, ""]
    ensures |s.highlights| == 0 ==> HighlightLines(s) == []
  {
  }

  /** Each section starts with its heading and lists the items in order. */
  lemma SectionItemsInOrder(heading: string, items: seq<string>, i: nat)
    requires i < |items|
    ensures Section(heading, items)[0] == heading
    ensures Section(heading, items)[i + 1] == "- " + items[i]
  {
  }
}
