/**
 * The pure parts of the campaign store: the records built from a normalised agent reply,
 * the merges into a campaign, the replacement by id that keeps the list and the active
 * campaign in step, and the export file name.
 */
module Records {
  import opened JsValues
  import opened Text
  import opened CampaignTypes

  // ---------------------------------------------------------------------------
  // Records built from a normalised reply

  const NameLength := 50

  /**
   * The campaign a successful create reply becomes. The id and the creation date are
   * the clock's readings, taken as inputs.
   */
  function BuildCampaign(form: FormData, parsed: Parsed, id: string, createdAt: string): (c: Campaign)
    ensures c.id == id && c.createdAt == createdAt && c.status == "active"
    ensures parsed.campaignTitle.Some? ==> c.name == parsed.campaignTitle.value
    ensures parsed.campaignTitle.None? ==> |c.name| <= NameLength && StartsWith(form.objective, c.name)
    ensures parsed.campaignTitle.None? && |form.objective| <= NameLength ==> c.name == form.objective
    ensures parsed.campaignTitle.None? && |form.objective| > NameLength ==> c.name == form.objective[..NameLength]
    ensures c.objective == form.objective && c.audience == form.audience
    ensures c.industry == form.industry && c.platforms == form.platforms
    ensures c.contentBlocks == Arr(parsed.contentBlocks.AsList())
    ensures c.seoAnalysis == parsed.seoAnalysis
    ensures c.graphics == Arr([]) && c.videoBrief == None
  {
    Campaign(
      id,
      parsed.campaignTitle.GetOr(Prefix(form.objective, NameLength)),
      "active",
      createdAt,
      form.objective,
      form.audience,
      form.industry,
      form.platforms,
      Arr(parsed.contentBlocks.AsList()),
      parsed.seoAnalysis,
      Arr([]),
      None)
  }

  /** One graphic per artifact file, in file order, all sharing the reply's description. */
  function GraphicsFor(files: seq<ArtifactFile>, parsed: Parsed): (gs: seq<Graphic>)
    ensures |gs| == |files|
    ensures forall i :: 0 <= i < |gs| ==>
      && gs[i].fileUrl == files[i].fileUrl.GetOr("")
      && gs[i].graphicDescription == parsed.graphicDescription.GetOr("")
      && gs[i].designNotes == parsed.designNotes.GetOr("")
      && gs[i].platform == parsed.platform.GetOr("")
      && gs[i].dimensions == parsed.dimensions.GetOr("")
  {
    seq(|files|, i requires 0 <= i < |files| =>
      Graphic(
        files[i].fileUrl.GetOr(""),
        parsed.graphicDescription.GetOr(""),
        parsed.designNotes.GetOr(""),
        parsed.platform.GetOr(""),
        parsed.dimensions.GetOr("")))
  }

  /** Appends graphics to a campaign; a non-array `graphics` counts as empty. */
  function WithGraphics(c: Campaign, gs: seq<Graphic>): (u: Campaign)
    ensures u.graphics == Arr(c.graphics.AsList() + gs)
    ensures u.graphics.items[..|c.graphics.AsList()|] == c.graphics.AsList()
    ensures u == c.(graphics := u.graphics)
  {
    c.(graphics := Arr(c.graphics.AsList() + gs))
  }

  /** Two successive appends add N + M graphics and keep the first N, then the next M, in order. */
  lemma GraphicsAppendTwice(c: Campaign, first: seq<Graphic>, second: seq<Graphic>)
    ensures WithGraphics(WithGraphics(c, first), second) == WithGraphics(c, first + second)
    ensures |WithGraphics(WithGraphics(c, first), second).graphics.items|
         == |c.graphics.AsList()| + |first| + |second|
  {
    assert c.graphics.AsList() + first + second == c.graphics.AsList() + (first + second);
  }

  /** The brief a video reply becomes: every key defaulted, scenes only when an array. */
  function BriefFrom(parsed: Parsed): (b: VideoBrief)
    ensures b.videoTitle == parsed.videoTitle.GetOr("Untitled Video")
    ensures b.conceptOverview == parsed.conceptOverview.GetOr("")
    ensures b.targetDuration == parsed.targetDuration.GetOr("")
    ensures b.targetPlatform == parsed.targetPlatform.GetOr("")
    ensures b.scenes == parsed.scenes.AsList()
    ensures b.musicSuggestions == parsed.musicSuggestions.GetOr("")
    ensures b.formatRecommendations == parsed.formatRecommendations.GetOr("")
  {
    VideoBrief(
      parsed.videoTitle.GetOr("Untitled Video"),
      parsed.conceptOverview.GetOr(""),
      parsed.targetDuration.GetOr(""),
      parsed.targetPlatform.GetOr(""),
      parsed.scenes.AsList(),
      parsed.musicSuggestions.GetOr(""),
      parsed.formatRecommendations.GetOr(""))
  }

  /** A reply that normalised to nothing still yields a complete, all-default brief. */
  lemma BriefOfEmptyReply()
    ensures BriefFrom(EmptyParsed()) == VideoBrief("Untitled Video", "", "", "", [], "", "")
  {
  }

  /** Sets the brief as a whole; every other field is kept. */
  function WithVideoBrief(c: Campaign, b: VideoBrief): (u: Campaign)
    ensures u.videoBrief == Some(b)
    ensures u == c.(videoBrief := Some(b))
  {
    c.(videoBrief := Some(b))
  }

  /** A second brief replaces the first; nothing of the first survives. */
  lemma VideoReplaceTwice(c: Campaign, first: VideoBrief, second: VideoBrief)
    ensures WithVideoBrief(WithVideoBrief(c, first), second) == WithVideoBrief(c, second)
  {
  }

  /**
   * Merging a brief into a campaign value that predates a graphics merge loses those
   * graphics: the two merges do not commute when each starts from the same value.
   */
  lemma StaleMergeDropsGraphics(c: Campaign, gs: seq<Graphic>, b: VideoBrief)
    requires gs != []
    ensures WithVideoBrief(c, b).graphics != WithGraphics(c, gs).graphics
    ensures WithVideoBrief(WithGraphics(c, gs), b).graphics == WithGraphics(c, gs).graphics
  {
    var old_ := c.graphics.AsList();
    assert |WithGraphics(c, gs).graphics.items| == |old_| + |gs|;
  }

  // ---------------------------------------------------------------------------
  // Editing a content block

  /** Block i gets the new body and a recomputed word count; out-of-range edits change nothing. */
  function EditBlocks(blocks: seq<ContentBlock>, index: int, body: string): (r: seq<ContentBlock>)
    ensures |r| == |blocks|
    ensures 0 <= index < |blocks| ==>
      r[index] == blocks[index].(body := body, wordCount := WordCount(body))
    ensures forall j :: 0 <= j < |blocks| && j != index ==> r[j] == blocks[j]
  {
    if 0 <= index < |blocks| then blocks[index := blocks[index].(body := body, wordCount := WordCount(body))]
    else blocks
  }

  /** An edit leaves a blank body with no words, and anything else with at least one. */
  lemma EditedWordCount(blocks: seq<ContentBlock>, index: int, body: string)
    requires 0 <= index < |blocks|
    ensures EditBlocks(blocks, index, body)[index].body == body
    ensures EditBlocks(blocks, index, body)[index].wordCount == WordEnds(body, Whitespace)
    ensures EditBlocks(blocks, index, body)[index].wordCount == 0 <==> Trim(body) == ""
  {
    TokensCount(body, Whitespace);
    WordCountZeroIff(body);
  }

  /** The campaign after editing block `index`; a non-array block list becomes `[]`. */
  function WithEditedBlock(c: Campaign, index: int, body: string): (u: Campaign)
    ensures u.contentBlocks == Arr(EditBlocks(c.contentBlocks.AsList(), index, body))
    ensures u == c.(contentBlocks := u.contentBlocks)
  {
    c.(contentBlocks := Arr(EditBlocks(c.contentBlocks.AsList(), index, body)))
  }

  // ---------------------------------------------------------------------------
  // Keeping the list and the active campaign in step

  function Ids(cs: seq<Campaign>): (ids: seq<string>)
    ensures |ids| == |cs| && forall i :: 0 <= i < |cs| ==> ids[i] == cs[i].id
  {
    seq(|cs|, i requires 0 <= i < |cs| => cs[i].id)
  }

  /** `prev.map(c => c.id === updated.id ? updated : c)` */
  function ReplaceById(cs: seq<Campaign>, updated: Campaign): (r: seq<Campaign>)
    ensures |r| == |cs| && Ids(r) == Ids(cs)
    ensures forall i :: 0 <= i < |cs| && cs[i].id == updated.id ==> r[i] == updated
    ensures forall i :: 0 <= i < |cs| && cs[i].id != updated.id ==> r[i] == cs[i]
  {
    seq(|cs|, i requires 0 <= i < |cs| => if cs[i].id == updated.id then updated else cs[i])
  }

  /** After the replacement the updated value is in the list exactly when its id was. */
  lemma ReplaceByIdMembership(cs: seq<Campaign>, updated: Campaign)
    ensures updated in ReplaceById(cs, updated) <==> updated.id in Ids(cs)
  {
    var r := ReplaceById(cs, updated);
    if updated.id in Ids(cs) {
      var i :| 0 <= i < |cs| && Ids(cs)[i] == updated.id;
      assert r[i] == updated;
    }
    if updated in r {
      var i :| 0 <= i < |r| && r[i] == updated;
      assert Ids(r)[i] == updated.id;
    }
  }

  /** When no entry has the id, the list is left exactly as it was. */
  lemma ReplaceByIdAbsent(cs: seq<Campaign>, updated: Campaign)
    requires updated.id !in Ids(cs)
    ensures ReplaceById(cs, updated) == cs
  {
    var r := ReplaceById(cs, updated);
    forall i | 0 <= i < |cs| ensures r[i] == cs[i] {
      assert Ids(cs)[i] == cs[i].id;
    }
  }

  /** A later update of the same campaign supersedes an earlier one. */
  lemma ReplaceByIdTwice(cs: seq<Campaign>, first: Campaign, second: Campaign)
    requires first.id == second.id
    ensures ReplaceById(ReplaceById(cs, first), second) == ReplaceById(cs, second)
  {
  }

  predicate DistinctIds(cs: seq<Campaign>) {
    forall i, j :: 0 <= i < j < |cs| ==> cs[i].id != cs[j].id
  }

  /** Prepending a campaign with a fresh id keeps the ids distinct. */
  lemma PrependFreshId(c: Campaign, cs: seq<Campaign>)
    requires DistinctIds(cs) && c.id !in Ids(cs)
    ensures DistinctIds([c] + cs)
  {
    var l := [c] + cs;
    forall i, j | 0 <= i < j < |l| ensures l[i].id != l[j].id {
      if i == 0 {
        assert l[j] == cs[j - 1] && Ids(cs)[j - 1] == cs[j - 1].id;
      } else {
        assert l[i] == cs[i - 1] && l[j] == cs[j - 1];
      }
    }
  }

  // ---------------------------------------------------------------------------
  // Export

  const ExportSuffix := "_campaign.json"

  /**
   * The download name: the pieces of the name between its whitespace runs, joined by "_",
   * then "_campaign.json".
   */
  function ExportFileName(name: string): (f: string)
    ensures f == Join(Pieces(name), "_") + ExportSuffix
    ensures EndsWith(f, ExportSuffix)
    ensures forall i :: 0 <= i < |f| ==> !IsWhitespace(f[i])
  {
    ReplaceJoinsPieces(name);
    SuffixWithoutWhitespace();
    var f := ReplaceWhitespaceRuns(name) + ExportSuffix;
    assert f[|f| - |ExportSuffix|..] == ExportSuffix;
    f
  }

  lemma SuffixWithoutWhitespace()
    ensures forall i :: 0 <= i < |ExportSuffix| ==> !IsWhitespace(ExportSuffix[i])
  {
  }

  /**
   * Apart from whitespace and underscores, the file name spells the campaign name
   * followed by the suffix: the replacement loses no other character.
   */
  lemma ExportFileNameLetters(name: string)
    ensures Letters(ExportFileName(name)) == Letters(name) + Letters(ExportSuffix)
  {
    ReplaceKeepsLetters(name);
    LettersAppend(ReplaceWhitespaceRuns(name), ExportSuffix);
  }

  lemma {:induction false} LettersAppend(a: string, b: string)
    ensures Letters(a + b) == Letters(a) + Letters(b)
    decreases |a|
  {
    if a != [] {
      LettersAppend(a[1..], b);
      assert (a + b)[1..] == a[1..] + b;
    } else {
      assert a + b == b;
    }
  }

  /** A name without whitespace is used verbatim. */
  lemma ExportNameVerbatim(name: string)
    requires forall i :: 0 <= i < |name| ==> !IsWhitespace(name[i])
    ensures ExportFileName(name) == name + ExportSuffix
  {
    ReplaceWithoutWhitespace(name);
  }
}
