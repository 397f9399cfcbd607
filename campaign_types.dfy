/**
 * The records of the campaign store: the campaign and its parts, the brand defaults,
 * the builder's form, and the partial record the response normaliser hands back.
 */
module CampaignTypes {
  import opened JsValues

  /** One piece of generated copy; `wordCount` is recomputed on every edit of `body`. */
  datatype ContentBlock = ContentBlock(
    platform: string,
    contentType: string,
    title: string,
    body: string,
    wordCount: int,
    hashtags: string)

  /** The SEO part of a campaign; only the content score is read by the store's logic. */
  datatype SeoAnalysis = SeoAnalysis(
    contentScore: Option<int>,
    metaTitle: Option<string>,
    metaDescription: Option<string>)

  /** One generated graphic: an artifact file plus the designer agent's description of it. */
  datatype Graphic = Graphic(
    fileUrl: string,
    graphicDescription: string,
    designNotes: string,
    platform: string,
    dimensions: string)

  datatype Scene = Scene(
    sceneNumber: int,
    description: string,
    narration: string,
    visualNotes: string,
    duration: string,
    shotType: string)

  /** A video production brief; replaced as a whole by every generation. */
  datatype VideoBrief = VideoBrief(
    videoTitle: string,
    conceptOverview: string,
    targetDuration: string,
    targetPlatform: string,
    scenes: seq<Scene>,
    musicSuggestions: string,
    formatRecommendations: string)

  /**
   * The unit of work. `contentBlocks` and `graphics` may hold a non-array value when
   * they come from storage or from an agent, which is why every reader guards them.
   */
  datatype Campaign = Campaign(
    id: string,
    name: string,
    status: string,
    createdAt: string,
    objective: string,
    audience: string,
    industry: string,
    platforms: seq<string>,
    contentBlocks: MaybeList<ContentBlock>,
    seoAnalysis: Option<SeoAnalysis>,
    graphics: MaybeList<Graphic>,
    videoBrief: Option<VideoBrief>)

  /** The process-wide brand defaults. */
  datatype BrandSettings = BrandSettings(
    brandName: string,
    tagline: string,
    voiceTone: string,
    industry: string,
    colorNotes: string)

  /** The builder's input for one generation request. */
  datatype FormData = FormData(
    objective: string,
    audience: string,
    industry: string,
    brandVoice: string,
    platforms: seq<string>,
    keywords: seq<string>,
    competitorUrls: string)

  /** One entry of `module_outputs.artifact_files`; the entry itself may lack `file_url`. */
  datatype ArtifactFile = ArtifactFile(fileUrl: Option<string>)

  /**
   * What the response normaliser returns: a mapping in which every key the store reads
   * may be absent. List-valued keys are `NotArray` when absent or not an array.
   */
  datatype Parsed = Parsed(
    campaignTitle: Option<string>,
    contentBlocks: MaybeList<ContentBlock>,
    seoAnalysis: Option<SeoAnalysis>,
    graphicDescription: Option<string>,
    designNotes: Option<string>,
    platform: Option<string>,
    dimensions: Option<string>,
    videoTitle: Option<string>,
    conceptOverview: Option<string>,
    targetDuration: Option<string>,
    targetPlatform: Option<string>,
    scenes: MaybeList<Scene>,
    musicSuggestions: Option<string>,
    formatRecommendations: Option<string>)

  /** The mapping an unusable agent reply normalises to: no key present. */
  function EmptyParsed(): Parsed {
    Parsed(None, NotArray, None, None, None, None, None, None, None, None, None, NotArray, None, None)
  }
}
