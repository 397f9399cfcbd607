/** The fixed first and last lines of the create prompt. */
module PromptText {

  // The fixed opening and closing lines, written in pieces so that each piece can be
  // seen to hold no line break.
  const HeaderStart := "Create a comprehensive marketing "
  const HeaderEnd := "campaign with the following brief:"
  const PromptHeader := HeaderStart + HeaderEnd

  const FooterPart1 := "Please generate content blocks for "
  const FooterPart2 := "each platform and provide SEO "
  const FooterPart3 := "analysis including keywords, "
  const FooterPart4 := "content score, meta tags, "
  const FooterPart5 := "optimization tips, "
  const FooterPart6 := "and competitor gaps."
  const PromptFooter := FooterPart1 + FooterPart2 + FooterPart3 + FooterPart4 + FooterPart5 + FooterPart6

  predicate SingleLine(s: string) {
    '\n' !in s
  }

  lemma SingleLineConcat(a: string, b: string)
    requires SingleLine(a) && SingleLine(b)
    ensures SingleLine(a + b)
  {
  }

  // The lemmas below only break the fixed literals into pieces small enough for the
  // verifier to see that none of them holds a line break; they model nothing on their own.

  lemma HeaderStartSingle()
    ensures SingleLine(HeaderStart)
  {
  }

  lemma HeaderEndSingle()
    ensures SingleLine(HeaderEnd)
  {
  }

  lemma FooterPart1Single()
    ensures SingleLine(FooterPart1)
  {
  }

  lemma FooterPart2Single()
    ensures SingleLine(FooterPart2)
  {
  }

  lemma FooterPart3Single()
    ensures SingleLine(FooterPart3)
  {
  }

  lemma MorePiecesSingle()
    ensures SingleLine(FooterPart4) && SingleLine(FooterPart5) && SingleLine(FooterPart6)
  {
  }

  /** The fixed opening and closing lines hold no line break. */
  lemma FixedLinesSingle()
    ensures SingleLine(PromptHeader) && SingleLine(PromptFooter)
  {
    HeaderStartSingle();
    HeaderEndSingle();
    FooterPart1Single();
    FooterPart2Single();
    FooterPart3Single();
    MorePiecesSingle();
    SingleLineConcat(HeaderStart, HeaderEnd);
    var f1, f2, f3 := FooterPart1, FooterPart2, FooterPart3;
    var f4, f5, f6 := FooterPart4, FooterPart5, FooterPart6;
    SingleLineConcat(f1, f2);
    SingleLineConcat(f1 + f2, f3);
    SingleLineConcat(f1 + f2 + f3, f4);
    SingleLineConcat(f1 + f2 + f3 + f4, f5);
    SingleLineConcat(f1 + f2 + f3 + f4 + f5, f6);
  }
}

/**
 * The message the campaign store sends to the orchestrator agent: a fixed template
 * filled in from the builder's form and, when a brand name is set, the brand defaults.
 */
module Prompt {
  import opened Text
  import opened CampaignTypes
  import opened PromptText

  /** The competitor line: empty exactly when no URLs were given, otherwise ending with them. */
  function CompetitorLine(urls: string): (line: string)
    ensures line == "" <==> urls == ""
    ensures urls != "" ==> EndsWith(line, urls)
  {
    if urls != "" then
      var line := "Competitor URLs: " + urls;
      assert line[|line| - |urls|..] == urls;
      line
    else ""
  }

  /** The brand's name, tagline, voice and colours on one line, the name first. */
  function BrandLine(b: BrandSettings): (line: string)
    ensures Contains(line, b.brandName)
  {
    var line := "Brand: " + b.brandName + ". Tagline: " + b.tagline + ". Voice: " + b.voiceTone + ". Colors: " + b.colorNotes + ".";
    var rest := line[|"Brand: " + b.brandName|..];
    assert line == "Brand: " + b.brandName + rest;
    ContainsSplice("Brand: ", b.brandName, rest);
    line
  }

  /** The brand paragraph: empty without a brand name, otherwise the brand line after a line break. */
  function BrandContext(b: BrandSettings): (text: string)
    ensures text == "" <==> b.brandName == ""
    ensures b.brandName != "" ==> text[0] == '\n' && text[1..] == BrandLine(b)
  {
    if b.brandName != "" then "\n" + BrandLine(b) else ""
  }

  /**
   * The lines of the prompt template, one per template line; the eighth holds the
   * competitor line followed by the brand paragraph, which opens with its own line break.
   */
  function TemplateLines(form: FormData, brand: BrandSettings): (lines: seq<string>)
    ensures |lines| == 10 && lines[0] == PromptHeader && lines[..7] == FieldLines(form)
    ensures lines[8] == "" && lines[9] == PromptFooter
  {
    FieldLines(form) + [CompetitorLine(form.competitorUrls) + BrandContext(brand), "", PromptFooter]
  }

  /** The header and the six brief fields, lists joined by ", ". */
  function FieldLines(form: FormData): (lines: seq<string>)
    ensures |lines| == 7 && lines[0] == PromptHeader
    ensures EndsWith(lines[1], form.objective) && EndsWith(lines[2], form.audience)
    ensures EndsWith(lines[3], form.industry) && EndsWith(lines[4], form.brandVoice)
    ensures EndsWith(lines[5], Join(form.platforms, ", ")) && EndsWith(lines[6], Join(form.keywords, ", "))
  {
    [ PromptHeader,
      "Objective: " + form.objective,
      "Target Audience: " + form.audience,
      "Industry: " + form.industry,
      "Brand Voice: " + form.brandVoice,
      "Platforms: " + Join(form.platforms, ", "),
      "Keywords: " + Join(form.keywords, ", ") ]
  }

  /**
   * The message sent to the campaign orchestrator agent: the template's lines joined by
   * line breaks, so it opens with the header line and closes with a blank line and the
   * closing request.
   */
  function CreatePrompt(form: FormData, brand: BrandSettings): (message: string)
    ensures StartsWith(message, PromptHeader + "\n")
    ensures EndsWith(message, "\n\n" + PromptFooter)
  {
    var lines := TemplateLines(form, brand);
    JoinHeadLine(lines, "\n");
    JoinLastTwo(lines, "\n");
    assert "\n" + lines[8] + "\n" + lines[9] == "\n\n" + PromptFooter;
    var message := Join(lines, "\n");
    message
  }

  lemma EndsWithAppend(a: string, b: string)
    ensures EndsWith(a + b, b)
  {
    assert (a + b)[|a|..] == b;
  }

  /** With two parts or more, the joined text opens with the first part and a separator. */
  lemma JoinHeadLine(parts: seq<string>, sep: string)
    requires |parts| >= 2
    ensures StartsWith(Join(parts, sep), parts[0] + sep)
  {
    var r := Join(parts, sep);
    assert r == parts[0] + sep + Join(parts[1..], sep);
    assert r[..|parts[0] + sep|] == parts[0] + sep;
  }

  /** With three parts or more, the joined text closes with a separator, the last but one part, a separator and the last part. */
  lemma JoinLastTwo(parts: seq<string>, sep: string)
    requires |parts| >= 3
    ensures EndsWith(Join(parts, sep), sep + parts[|parts| - 2] + sep + parts[|parts| - 1])
  {
    var n := |parts|;
    JoinSnoc(parts[..n - 2], parts[n - 2], sep);
    assert parts[..n - 2] + [parts[n - 2]] == parts[..n - 1];
    JoinSnoc(parts[..n - 1], parts[n - 1], sep);
    assert parts[..n - 1] + [parts[n - 1]] == parts;
    var head := Join(parts[..n - 2], sep);
    var tail := sep + parts[n - 2] + sep + parts[n - 1];
    var r := Join(parts, sep);
    calc {
      r;
      Join(parts[..n - 1], sep) + sep + parts[n - 1];
      head + sep + parts[n - 2] + sep + parts[n - 1];
      head + tail;
    }
    EndsWithAppend(head, tail);
  }

  predicate AllSingleLine(parts: seq<string>) {
    forall i :: 0 <= i < |parts| ==> SingleLine(parts[i])
  }

  /** Every user-supplied piece of the prompt fits on one line. */
  predicate SingleLineInputs(form: FormData, brand: BrandSettings) {
    && SingleLine(form.objective) && SingleLine(form.audience) && SingleLine(form.industry)
    && SingleLine(form.brandVoice) && SingleLine(form.competitorUrls)
    && AllSingleLine(form.platforms) && AllSingleLine(form.keywords)
    && SingleLine(brand.brandName) && SingleLine(brand.tagline) && SingleLine(brand.voiceTone)
    && SingleLine(brand.colorNotes)
  }

  lemma {:induction false} JoinSingleLine(parts: seq<string>, sep: string)
    requires AllSingleLine(parts) && SingleLine(sep)
    ensures SingleLine(Join(parts, sep))
    decreases |parts|
  {
    if |parts| > 1 {
      JoinSingleLine(parts[1..], sep);
      assert SingleLine(parts[0]);
    } else if |parts| == 1 {
      assert SingleLine(parts[0]);
    }
  }

  /** Joining single lines with line breaks and splitting again gives the lines back. */
  lemma {:induction false} SplitJoinedLines(lines: seq<string>)
    requires |lines| >= 1 && AllSingleLine(lines)
    ensures SplitAt(Join(lines, "\n"), LineBreak) == lines
    decreases |lines|
  {
    assert SingleLine(lines[0]);
    if |lines| == 1 {
      SplitLinesSingle(lines[0]);
    } else {
      SplitJoinedLines(lines[1..]);
      SplitLinesSingle(lines[0]);
      SplitLinesConcat(lines[0], Join(lines[1..], "\n"));
      assert [lines[0]] + lines[1..] == lines;
    }
  }

  /** A line that holds a line break joins like the two lines it consists of. */
  lemma {:induction false} JoinBrokenLine(pre: seq<string>, x: string, y: string, post: seq<string>)
    requires post != []
    ensures Join(pre + [x + "\n" + y] + post, "\n") == Join(pre + [x, y] + post, "\n")
    decreases |pre|
  {
    if pre == [] {
      assert ([x + "\n" + y] + post)[1..] == post;
      assert ([x, y] + post)[1..] == [y] + post;
      assert ([y] + post)[1..] == post;
    } else {
      JoinBrokenLine(pre[1..], x, y, post);
      assert (pre + [x + "\n" + y] + post)[1..] == pre[1..] + [x + "\n" + y] + post;
      assert (pre + [x, y] + post)[1..] == pre[1..] + [x, y] + post;
    }
  }

  /** The prompt's lines as they come out of splitting it at line breaks. */
  function PromptLines(form: FormData, brand: BrandSettings): seq<string> {
    FieldLines(form) + [CompetitorLine(form.competitorUrls)]
      + (if brand.brandName != "" then [BrandLine(brand)] else []) + ["", PromptFooter]
  }

  /**
   * The create prompt, line by line: a header, the six brief fields in a fixed order
   * (lists joined by ", "), the competitor line (empty unless URLs were given), the brand
   * line exactly when a brand name is set, a blank line and the closing request.
   */
  lemma PromptLayout(form: FormData, brand: BrandSettings)
    requires SingleLineInputs(form, brand)
    ensures
      var lines := SplitAt(CreatePrompt(form, brand), LineBreak);
      && |lines| == (if brand.brandName != "" then 11 else 10)
      && lines[0] == PromptHeader
      && lines[1] == "Objective: " + form.objective
      && lines[2] == "Target Audience: " + form.audience
      && lines[3] == "Industry: " + form.industry
      && lines[4] == "Brand Voice: " + form.brandVoice
      && lines[5] == "Platforms: " + Join(form.platforms, ", ")
      && lines[6] == "Keywords: " + Join(form.keywords, ", ")
      && (lines[7] == "" <==> form.competitorUrls == "")
      && (form.competitorUrls != "" ==> lines[7] == "Competitor URLs: " + form.competitorUrls)
      && (brand.brandName != "" ==> lines[8] == BrandLine(brand))
      && lines[|lines| - 2] == ""
      && lines[|lines| - 1] == PromptFooter
  {
    PromptSplitsIntoLines(form, brand);
    var lines := PromptLines(form, brand);
    var f := FieldLines(form);
    assert |f| == 7 && lines[..7] == f;
    assert lines[7] == CompetitorLine(form.competitorUrls);
  }

  /** Split at its line breaks, the prompt gives back exactly its lines. */
  lemma PromptSplitsIntoLines(form: FormData, brand: BrandSettings)
    requires SingleLineInputs(form, brand)
    ensures SplitAt(CreatePrompt(form, brand), LineBreak) == PromptLines(form, brand)
  {
    var f := FieldLines(form);
    var c := CompetitorLine(form.competitorUrls);
    var post := ["", PromptFooter];
    var lines := PromptLines(form, brand);
    if brand.brandName != "" {
      assert c + BrandContext(brand) == c + "\n" + BrandLine(brand);
      assert TemplateLines(form, brand) == f + [c + "\n" + BrandLine(brand)] + post;
      JoinBrokenLine(f, c, BrandLine(brand), post);
      assert f + [c, BrandLine(brand)] + post == lines;
    } else {
      assert c + BrandContext(brand) == c;
      assert TemplateLines(form, brand) == lines;
    }
    PromptLinesSingle(form, brand);
    SplitJoinedLines(lines);
  }

  lemma FieldLinesSingle(form: FormData)
    requires SingleLine(form.objective) && SingleLine(form.audience) && SingleLine(form.industry)
    requires SingleLine(form.brandVoice) && AllSingleLine(form.platforms) && AllSingleLine(form.keywords)
    ensures AllSingleLine(FieldLines(form))
  {
    FixedLinesSingle();
    JoinSingleLine(form.platforms, ", ");
    JoinSingleLine(form.keywords, ", ");
    assert SingleLine("Objective: ") && SingleLine("Target Audience: ") && SingleLine("Industry: ");
    assert SingleLine("Brand Voice: ") && SingleLine("Platforms: ") && SingleLine("Keywords: ");
  }

  lemma PromptLinesSingle(form: FormData, brand: BrandSettings)
    requires SingleLineInputs(form, brand)
    ensures AllSingleLine(PromptLines(form, brand))
  {
    FieldLinesSingle(form);
    FixedLinesSingle();
    var f := FieldLines(form);
    var lines := PromptLines(form, brand);
    assert SingleLine("Competitor URLs: ");
    assert SingleLine(CompetitorLine(form.competitorUrls));
    if brand.brandName != "" {
      assert SingleLine("Brand: ") && SingleLine(". Tagline: ") && SingleLine(". Voice: ");
      assert SingleLine(". Colors: ") && SingleLine(".");
      assert SingleLine(BrandLine(brand));
    }
    forall i | 0 <= i < |lines| ensures SingleLine(lines[i]) {
      if i < |f| {
        assert lines[i] == f[i];
      }
    }
  }

  /** Every line of a joined text occurs in it. */
  lemma {:induction false} JoinContainsLine(lines: seq<string>, sep: string, i: nat)
    requires i < |lines|
    ensures Contains(Join(lines, sep), lines[i])
    decreases i
  {
    if |lines| == 1 {
      ContainsSplice("", lines[0], "");
      assert "" + lines[0] + "" == Join(lines, sep);
    } else if i == 0 {
      ContainsSplice("", lines[0], sep + Join(lines[1..], sep));
      assert "" + lines[0] + (sep + Join(lines[1..], sep)) == Join(lines, sep);
    } else {
      JoinContainsLine(lines[1..], sep, i - 1);
      ContainsSplice(lines[0] + sep, Join(lines[1..], sep), "");
      assert lines[0] + sep + Join(lines[1..], sep) + "" == Join(lines, sep);
      ContainsTrans(Join(lines, sep), Join(lines[1..], sep), lines[i]);
    }
  }

  /** A piece of any line of a joined text occurs in it. */
  lemma JoinContainsPart(lines: seq<string>, sep: string, i: nat, pre: string, part: string, post: string)
    requires i < |lines| && lines[i] == pre + part + post
    ensures Contains(Join(lines, sep), part)
  {
    JoinContainsLine(lines, sep, i);
    ContainsSplice(pre, part, post);
    ContainsTrans(Join(lines, sep), lines[i], part);
  }

  /** The brief's objective always reaches the agent. */
  lemma PromptMentionsObjective(form: FormData, brand: BrandSettings)
    ensures Contains(CreatePrompt(form, brand), form.objective)
  {
    var t := TemplateLines(form, brand);
    ContainsSplice("Objective: ", form.objective, "");
    assert "Objective: " + form.objective + "" == t[1];
    JoinContainsLine(t, "\n", 1);
    ContainsTrans(CreatePrompt(form, brand), t[1], form.objective);
  }

  /** A set brand name reaches the agent too. */
  lemma PromptMentionsBrand(form: FormData, brand: BrandSettings)
    requires brand.brandName != ""
    ensures Contains(CreatePrompt(form, brand), brand.brandName)
  {
    var b := brand;
    var n := b.brandName;
    var t := TemplateLines(form, brand);
    ContainsSplice("Brand: ", n, "");
    assert "Brand: " + n + "" == "Brand: " + n;
    var x := "Brand: " + n;
    ContainsAppend(x, n, ". Tagline: ");
    ContainsAppend(x + ". Tagline: ", n, b.tagline);
    x := x + ". Tagline: " + b.tagline;
    ContainsAppend(x, n, ". Voice: ");
    ContainsAppend(x + ". Voice: ", n, b.voiceTone);
    x := x + ". Voice: " + b.voiceTone;
    ContainsAppend(x, n, ". Colors: ");
    ContainsAppend(x + ". Colors: ", n, b.colorNotes);
    x := x + ". Colors: " + b.colorNotes;
    ContainsAppend(x, n, ".");
    assert x + "." == BrandLine(b);
    ContainsPrepend(BrandLine(b), n, "\n");
    ContainsPrepend("\n" + BrandLine(b), n, CompetitorLine(form.competitorUrls));
    JoinContainsLine(t, "\n", 7);
    ContainsTrans(CreatePrompt(form, brand), t[7], n);
  }
}
