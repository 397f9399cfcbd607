/**
 * The review screen's logic: the markdown-like rendering of a block body, bold spans,
 * hashtag chips, the score colour, the empty state, the generation prompts, and the
 * expanded and editing state of the content blocks.
 */
module Review {
  import opened JsValues
  import opened Text
  import opened CampaignTypes
  import opened Records

  // ---------------------------------------------------------------------------
  // Line classification

  /** How one line of a block body is rendered, with the text left after its marker. */
  datatype Line =
    | Heading3(text: string)
    | Heading2(text: string)
    | Heading1(text: string)
    | Bullet(text: string)
    | Numbered(text: string)
    | Spacer
    | Paragraph(text: string)

  /** The length of the run of decimal digits at the start of s. */
  function DigitRun(s: string): (n: nat)
    ensures n <= |s|
    ensures forall i :: 0 <= i < n ==> IsDigit(s[i])
    ensures n < |s| ==> !IsDigit(s[n])
    decreases |s|
  {
    if s != [] && IsDigit(s[0]) then 1 + DigitRun(s[1..]) else 0
  }

  /** The line opens with d digits, a full stop and a whitespace character. */
  predicate NumberedAt(line: string, d: int) {
    && 1 <= d && d + 2 <= |line|
    && (forall i :: 0 <= i < d ==> IsDigit(line[i]))
    && line[d] == '.' && IsWhitespace(line[d + 1])
  }

  /** `/^\d+\.\s/`: digits, a full stop and one whitespace character. */
  predicate IsNumbered(line: string)
    ensures IsNumbered(line) <==> exists d :: NumberedAt(line, d)
  {
    DigitRunNumbered(line);
    var d := DigitRun(line);
    d >= 1 && d + 2 <= |line| && line[d] == '.' && IsWhitespace(line[d + 1])
  }

  /** Only the whole leading digit run can precede the full stop. */
  lemma DigitRunNumbered(line: string)
    ensures var d := DigitRun(line);
      (d >= 1 && d + 2 <= |line| && line[d] == '.' && IsWhitespace(line[d + 1]))
      <==> exists e :: NumberedAt(line, e)
  {
    var d := DigitRun(line);
    if exists e :: NumberedAt(line, e) {
      var e :| NumberedAt(line, e);
      assert e == d;
    } else if d >= 1 && d + 2 <= |line| && line[d] == '.' && IsWhitespace(line[d + 1]) {
      assert NumberedAt(line, d);
    }
  }

  /**
   * The first matching rule wins: "### ", "## ", "# ", "- " or "* ", a numbered item,
   * a blank line, and otherwise a paragraph.
   */
  function ClassifyLine(line: string): (r: Line)
    ensures r.Heading3? ==> line == "### " + r.text
    ensures r.Heading2? ==> line == "## " + r.text
    ensures r.Heading1? ==> line == "# " + r.text
    ensures r.Bullet? ==> |line| >= 2 && line == line[..2] + r.text
    ensures r.Numbered? ==> DigitRun(line) + 2 <= |line| && line == line[..DigitRun(line) + 2] + r.text
    ensures r.Paragraph? ==> r.text == line
  {
    if StartsWith(line, "### ") then
      Rejoin(line, 4);
      Heading3(line[4..])
    else if StartsWith(line, "## ") then
      Rejoin(line, 3);
      Heading2(line[3..])
    else if StartsWith(line, "# ") then
      Rejoin(line, 2);
      Heading1(line[2..])
    else if StartsWith(line, "- ") || StartsWith(line, "* ") then
      Rejoin(line, 2);
      Bullet(line[2..])
    else if IsNumbered(line) then
      var d := DigitRun(line);
      Rejoin(line, d + 2);
      Numbered(line[d + 2..])
    else if Trim(line) == "" then
      Spacer
    else
      Paragraph(line)
  }

  /** The three heading markers exclude one another, so their order does not matter. */
  lemma ClassifyHeadings(line: string)
    ensures ClassifyLine(line).Heading3? <==> StartsWith(line, "### ")
    ensures ClassifyLine(line).Heading2? <==> StartsWith(line, "## ")
    ensures ClassifyLine(line).Heading1? <==> StartsWith(line, "# ")
  {
    if StartsWith(line, "## ") {
      assert line[2] == ' ';
    }
    if StartsWith(line, "# ") {
      assert line[1] == ' ';
    }
  }

  /** A line is a bullet or a numbered item exactly when it carries that marker. */
  lemma ClassifyItems(line: string)
    ensures ClassifyLine(line).Bullet? <==> StartsWith(line, "- ") || StartsWith(line, "* ")
    ensures ClassifyLine(line).Numbered? <==> IsNumbered(line)
  {
    if StartsWith(line, "- ") || StartsWith(line, "* ") {
      assert line[0] == '-' || line[0] == '*';
    }
    if IsNumbered(line) {
      assert IsDigit(line[0]);
    }
  }

  /** Blank lines, whitespace only, become spacers, and nothing else does. */
  lemma ClassifyBlank(line: string)
    ensures ClassifyLine(line).Spacer? <==> AllWhitespace(line)
  {
    TrimEmptyIff(line);
    if AllWhitespace(line) && line != [] {
      BlankStartNoMarker(line);
    }
  }

  /** A line that opens with whitespace carries no heading, bullet or number marker. */
  lemma BlankStartNoMarker(line: string)
    requires line != [] && IsWhitespace(line[0])
    ensures !StartsWith(line, "### ") && !StartsWith(line, "## ") && !StartsWith(line, "# ")
    ensures !StartsWith(line, "- ") && !StartsWith(line, "* ")
    ensures !IsNumbered(line)
  {
    assert DigitRun(line) == 0;
  }

  /**
   * `renderMarkdown`: nothing for an empty body, otherwise one rendered element per
   * line of the body, in order.
   */
  function RenderMarkdown(body: string): (r: Option<seq<Line>>)
    ensures r.None? <==> body == ""
    ensures r.Some? ==> |r.value| == |SplitAt(body, LineBreak)| == SeparatorCount(body, LineBreak) + 1
    ensures r.Some? ==> forall i :: 0 <= i < |r.value| ==> r.value[i] == ClassifyLine(SplitAt(body, LineBreak)[i])
  {
    if body == "" then None
    else
      var lines := SplitAt(body, LineBreak);
      SplitAtCount(body, LineBreak);
      Some(seq(|lines|, i requires 0 <= i < |lines| => ClassifyLine(lines[i])))
  }

  /** A body without a line break renders as a single element. */
  lemma RenderSingleLine(body: string)
    requires body != "" && '\n' !in body
    ensures RenderMarkdown(body) == Some([ClassifyLine(body)])
  {
    SplitLinesSingle(body);
    var r := RenderMarkdown(body).value;
    assert |r| == 1 && r[0] == ClassifyLine(SplitAt(body, LineBreak)[0]);
    assert r == [ClassifyLine(body)];
  }

  // ---------------------------------------------------------------------------
  // Bold spans

  /** `**` at position i. */
  predicate MarkerAt(s: string, i: int) {
    0 <= i && i + 1 < |s| && s[i] == '*' && s[i + 1] == '*'
  }

  /** `**`, then text without a line terminator, then `**`, opening at i and closing at j. */
  predicate IsPair(s: string, i: int, j: int) {
    && MarkerAt(s, i) && MarkerAt(s, j) && i + 2 <= j
    && forall m :: i + 2 <= m < j ==> !IsLineTerminator(s[m])
  }

  ghost predicate PairOpensAt(s: string, i: int) {
    exists j :: IsPair(s, i, j)
  }

  /** The closing `**` of the lazy `(.*?)`: the first marker at or after `from`, before any line terminator. */
  function FindClose(s: string, from: nat): (j: Option<nat>)
    ensures j.Some? ==> from <= j.value && MarkerAt(s, j.value)
    ensures j.Some? ==> forall m :: from <= m < j.value ==> !IsLineTerminator(s[m]) && !MarkerAt(s, m)
    ensures j.None? ==> forall k :: from <= k && MarkerAt(s, k) ==> exists m :: from <= m < k && IsLineTerminator(s[m])
    decreases |s| - from
  {
    if from + 1 >= |s| then None
    else if MarkerAt(s, from) then Some(from)
    else if IsLineTerminator(s[from]) then None
    else FindClose(s, from + 1)
  }

  /** The leftmost match of `\*\*(.*?)\*\*` at or after p, as its two marker positions. */
  function FindPair(s: string, p: nat): (r: Option<(nat, nat)>)
    ensures r.Some? ==> p <= r.value.0 && IsPair(s, r.value.0, r.value.1)
    ensures r.Some? ==> forall i :: p <= i < r.value.0 ==> !PairOpensAt(s, i)
    ensures r.Some? ==> forall m :: r.value.0 + 2 <= m < r.value.1 ==> !MarkerAt(s, m)
    ensures r.None? ==> forall i :: p <= i ==> !PairOpensAt(s, i)
    decreases |s| - p
  {
    if p + 1 >= |s| then
      None
    else
      var close := if MarkerAt(s, p) then FindClose(s, p + 2) else None;
      if close.Some? then
        Some((p, close.value))
      else
        var rest := FindPair(s, p + 1);
        assert !PairOpensAt(s, p) by {
          forall j ensures !IsPair(s, p, j) {
            if MarkerAt(s, p) && MarkerAt(s, j) && p + 2 <= j {
              var m :| p + 2 <= m < j && IsLineTerminator(s[m]);
            }
          }
        }
        rest
  }

  /**
   * Splitting at every match of the bold pattern, with its captured group kept: the text
   * between matches at even positions and the captured text of each match at odd positions.
   */
  function SplitBold(s: string): (parts: seq<string>)
    ensures |parts| % 2 == 1
    ensures forall k :: 0 <= k < |parts| && k % 2 == 1 ==> forall m :: 0 <= m < |parts[k]| ==> !IsLineTerminator(parts[k][m])
    decreases |s|
  {
    match FindPair(s, 0)
    case None => [s]
    case Some((i, j)) =>
      var rest := SplitBold(s[j + 2..]);
      var parts := [s[..i], s[i + 2..j]] + rest;
      assert forall k :: 2 <= k < |parts| ==> parts[k] == rest[k - 2];
      parts
  }

  /** Cutting a marker out of the text and putting it back. */
  lemma MarkerSplit(s: string, i: int)
    requires MarkerAt(s, i)
    ensures s == s[..i] + "**" + s[i + 2..]
  {
    assert s[i..i + 2] == "**";
    assert s == s[..i] + s[i..i + 2] + s[i + 2..];
  }

  /** Cutting both markers of a pair out of the text and putting them back. */
  lemma PairSplit(s: string, i: int, j: int)
    requires MarkerAt(s, i) && MarkerAt(s, j) && i + 2 <= j
    ensures s == s[..i] + "**" + (s[i + 2..j] + "**" + s[j + 2..])
  {
    var t := s[i + 2..];
    MarkerSplit(t, j - i - 2);
    assert t[..j - i - 2] == s[i + 2..j] && t[j - i..] == s[j + 2..];
    MarkerSplit(s, i);
  }

  lemma JoinTwoMore(a: string, b: string, rest: seq<string>, sep: string)
    requires rest != []
    ensures Join([a, b] + rest, sep) == a + sep + (b + sep + Join(rest, sep))
  {
    var parts := [a, b] + rest;
    assert parts[1..] == [b] + rest;
    assert parts[1..][1..] == rest;
  }

  /** Putting the markers back between the parts gives the text again. */
  lemma {:induction false} SplitBoldJoin(s: string)
    ensures Join(SplitBold(s), "**") == s
    decreases |s|
  {
    match FindPair(s, 0)
    case None =>
    case Some((i, j)) =>
      SplitBoldJoin(s[j + 2..]);
      JoinTwoMore(s[..i], s[i + 2..j], SplitBold(s[j + 2..]), "**");
      PairSplit(s, i, j);
  }

  /** The text splits into one part exactly when it holds no `**…**` pair on one line. */
  lemma SplitBoldSingle(s: string)
    ensures |SplitBold(s)| == 1 <==> forall i :: 0 <= i ==> !PairOpensAt(s, i)
  {
    match FindPair(s, 0)
    case None =>
    case Some((i, j)) =>
      assert PairOpensAt(s, i);
  }

  /** One rendered piece of a line: plain text or a bold span. */
  datatype Span = Text(text: string) | Bold(text: string)

  /** `formatInline`: the text as it is, or its parts with every odd-indexed part bold. */
  datatype Inline = Unchanged(text: string) | Spans(spans: seq<Span>)

  function FormatInline(text: string): (r: Inline)
    ensures r.Unchanged? <==> forall i :: 0 <= i ==> !PairOpensAt(text, i)
    ensures r.Unchanged? ==> r.text == text
    ensures r.Spans? ==> |r.spans| == |SplitBold(text)|
    ensures r.Spans? ==> forall k :: 0 <= k < |r.spans| ==>
      r.spans[k].text == SplitBold(text)[k] && (r.spans[k].Bold? <==> k % 2 == 1)
  {
    var parts := SplitBold(text);
    SplitBoldSingle(text);
    if |parts| == 1 then Unchanged(text)
    else Spans(seq(|parts|, k requires 0 <= k < |parts| => if k % 2 == 1 then Bold(parts[k]) else Text(parts[k])))
  }

  // ---------------------------------------------------------------------------
  // Hashtags

  /** `hashtags.split(/[,\s]+/).filter(Boolean).map(tag => tag.replace('#', ''))` */
  function Hashtags(h: string): (tags: seq<string>)
    ensures |tags| == |Tokens(h, CommaOrWhitespace)|
    ensures forall i :: 0 <= i < |tags| ==>
      tags[i] == RemoveFirst(Tokens(h, CommaOrWhitespace)[i], '#')
    ensures forall i, m :: 0 <= i < |tags| && 0 <= m < |tags[i]| ==>
      tags[i][m] != ',' && !IsWhitespace(tags[i][m])
  {
    var tokens := Tokens(h, CommaOrWhitespace);
    var tags := seq(|tokens|, i requires 0 <= i < |tokens| => RemoveFirst(tokens[i], '#'));
    assert forall i, m :: 0 <= i < |tags| && 0 <= m < |tags[i]| ==> tags[i][m] in tokens[i];
    tags
  }

  /** Every chip comes from a non-empty token, and there are as many chips as words. */
  lemma HashtagCount(h: string)
    ensures |Hashtags(h)| == WordEnds(h, CommaOrWhitespace)
    ensures forall i :: 0 <= i < |Hashtags(h)| ==> Tokens(h, CommaOrWhitespace)[i] != ""
  {
    TokensCount(h, CommaOrWhitespace);
  }

  // ---------------------------------------------------------------------------
  // Score colour, empty state and prompts

  datatype ScoreTone = Emerald | Amber | Red

  function ScoreColor(score: int): (t: ScoreTone)
    ensures t == Emerald <==> score >= 80
    ensures t == Amber <==> 60 <= score < 80
    ensures t == Red <==> score < 60
  {
    if score >= 80 then Emerald
    else if score >= 60 then Amber
    else Red
  }

  /** A higher score never gets a worse colour. */
  lemma ScoreColorMonotone(a: int, b: int)
    requires a <= b
    ensures ScoreColor(a) == Emerald ==> ScoreColor(b) == Emerald
    ensures ScoreColor(a) == Amber ==> ScoreColor(b) != Red
  {
  }

  /** The "No campaign selected" card: no content blocks and no SEO analysis. */
  predicate ShowsEmptyState(blocks: MaybeList<ContentBlock>, seo: Option<SeoAnalysis>)
    ensures ShowsEmptyState(blocks, seo) <==> (blocks.Arr? ==> blocks.items == []) && seo.None?
  {
    blocks.AsList() == [] && seo.None?
  }

  /** A freshly created campaign opens on the empty card exactly when the reply carried neither part. */
  lemma EmptyStateAfterCreate(form: FormData, parsed: Parsed, id: string, createdAt: string)
    ensures var c := BuildCampaign(form, parsed, id, createdAt);
      (ShowsEmptyState(c.contentBlocks, c.seoAnalysis)
       <==> parsed.contentBlocks.AsList() == [] && parsed.seoAnalysis.None?)
  {
  }

  const GraphicPromptLead := "Create a marketing graphic for the campaign: "
  const VideoPromptLead := "Create a video brief for the campaign: "

  /** The typed prompt, or when it is empty a fixed request naming the campaign. */
  function PromptOrDefault(typed: string, lead: string, campaignName: string): (p: string)
    ensures typed != "" ==> p == typed
    ensures typed == "" ==> StartsWith(p, lead) && EndsWith(p, campaignName) && |p| == |lead| + |campaignName|
    ensures typed == "" ==> Contains(p, campaignName)
  {
    if typed != "" then typed
    else
      var p := lead + campaignName;
      ContainsSplice(lead, campaignName, "");
      assert lead + campaignName + "" == p;
      assert p[..|lead|] == lead;
      assert p[|lead|..] == campaignName;
      p
  }

  /** The graphics request: the typed prompt, or one asking for a graphic for the named campaign. */
  function GraphicPrompt(typed: string, campaignName: string): (p: string)
    ensures typed != "" ==> p == typed
    ensures typed == "" ==> p == GraphicPromptLead + campaignName
  {
    PromptOrDefault(typed, GraphicPromptLead, campaignName)
  }

  /** The video request: the typed prompt, or one asking for a video brief for the named campaign. */
  function VideoPrompt(typed: string, campaignName: string): (p: string)
    ensures typed != "" ==> p == typed
    ensures typed == "" ==> p == VideoPromptLead + campaignName
  {
    PromptOrDefault(typed, VideoPromptLead, campaignName)
  }

  // ---------------------------------------------------------------------------
  // Expanded and editing state

  /** Flips whether block i is expanded. */
  function Toggled(expanded: set<int>, i: int): (r: set<int>)
    ensures i in r <==> i !in expanded
    ensures forall j :: j != i ==> (j in r <==> j in expanded)
  {
    if i in expanded then expanded - {i} else expanded + {i}
  }

  lemma ToggledTwice(expanded: set<int>, i: int)
    ensures Toggled(Toggled(expanded, i), i) == expanded
  {
  }

  /** The body an edit starts from: the block's body, or "" when there is no such block. */
  function BodyAt(blocks: seq<ContentBlock>, i: int): (b: string)
    ensures 0 <= i < |blocks| ==> b == blocks[i].body
    ensures !(0 <= i < |blocks|) ==> b == ""
  {
    if 0 <= i < |blocks| then blocks[i].body else ""
  }

  class ReviewState {
    var expanded: set<int>
    var editingBlock: Option<int>
    var editText: string
    var graphicPrompt: string
    var videoPrompt: string

    /** The first block starts expanded; nothing is being edited. */
    constructor()
      ensures expanded == {0} && editingBlock == None && editText == ""
      ensures graphicPrompt == "" && videoPrompt == ""
    {
      expanded := {0};
      editingBlock := None;
      editText := "";
      graphicPrompt := "";
      videoPrompt := "";
    }

    /** `toggleBlock`: a copy of the set with i's membership flipped. */
    method ToggleBlock(i: int)
      modifies this
      ensures expanded == Toggled(old(expanded), i)
      ensures editingBlock == old(editingBlock) && editText == old(editText)
      ensures graphicPrompt == old(graphicPrompt) && videoPrompt == old(videoPrompt)
    {
      var next := expanded;
      if i in next {
        next := next - {i};
      } else {
        next := next + {i};
      }
      expanded := next;
    }

    method StartEditing(blocks: seq<ContentBlock>, i: int)
      modifies this
      ensures editingBlock == Some(i) && editText == BodyAt(blocks, i)
      ensures expanded == old(expanded)
      ensures graphicPrompt == old(graphicPrompt) && videoPrompt == old(videoPrompt)
    {
      editingBlock := Some(i);
      editText := BodyAt(blocks, i);
    }

    method SetEditText(s: string)
      modifies this
      ensures editText == s
      ensures expanded == old(expanded) && editingBlock == old(editingBlock)
      ensures graphicPrompt == old(graphicPrompt) && videoPrompt == old(videoPrompt)
    {
      editText := s;
    }

    /** `saveEditing`: reports the block and the edited text, then leaves edit mode. */
    method SaveEditing(i: int) returns (index: int, body: string)
      modifies this
      ensures index == i && body == old(editText)
      ensures editingBlock == None
      ensures expanded == old(expanded) && editText == old(editText)
      ensures graphicPrompt == old(graphicPrompt) && videoPrompt == old(videoPrompt)
    {
      index, body := i, editText;
      editingBlock := None;
    }

    method CancelEditing()
      modifies this
      ensures editingBlock == None
      ensures expanded == old(expanded) && editText == old(editText)
      ensures graphicPrompt == old(graphicPrompt) && videoPrompt == old(videoPrompt)
    {
      editingBlock := None;
    }
  }
}
