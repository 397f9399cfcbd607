/**
 * The page component's state and its handlers. Each handler runs as one step: the agent
 * call it awaits is an input (`AgentOutcome`), and so are the clock readings. The graphics,
 * video and block-edit handlers see the active campaign as it was when the handler was
 * last re-created, which is the `captured` parameter of those methods.
 */
module Page {
  import opened JsValues
  import opened Text
  import opened CampaignTypes
  import opened Persistence
  import opened Prompt
  import opened Records
  import opened Dashboard

  datatype Screen = Dashboard | Builder | Review | Settings

  const OrchestratorAgent := "69a2883be72641e0c6070afe"
  const GraphicDesignerAgent := "69a2883b00b22915dd81e1aa"
  const VideoBriefAgent := "69a2883bd6fa89687c20afcf"

  /**
   * How an agent call ends: a successful result (its reply already normalised, plus the
   * artifact files a designer reply carries), an unsuccessful result with its optional
   * `error`, or a thrown exception with its optional `message`.
   */
  datatype AgentOutcome =
    | Succeeded(parsed: Parsed, artifactFiles: MaybeList<ArtifactFile>)
    | Failed(error: Option<string>)
    | Threw(message: Option<string>)

  const ErrorPrefix := "Error: "
  const UnexpectedError := "Unexpected error"

  /** The status messages of the three handlers. */
  const CampaignCreated := "Campaign generated successfully"
  const CampaignFailed := "Failed to generate campaign"
  const GraphicsCreated := "Graphics generated successfully"
  const GraphicsFailed := "Failed to generate graphics"
  const VideoCreated := "Video brief generated successfully"
  const VideoFailed := "Failed to generate video brief"

  /** The status line after a failed call: the reported error or the handler's fallback. */
  function ErrorStatus(outcome: AgentOutcome, fallback: string): (msg: string)
    requires !outcome.Succeeded?
    ensures StartsWith(msg, ErrorPrefix)
    ensures outcome.Failed? ==> msg[|ErrorPrefix|..] == outcome.error.GetOr(fallback)
    ensures outcome.Threw? ==> msg[|ErrorPrefix|..] == outcome.message.GetOr(UnexpectedError)
  {
    var detail := match outcome
      case Failed(e) => e.GetOr(fallback)
      case Threw(m) => m.GetOr(UnexpectedError);
    var msg := ErrorPrefix + detail;
    assert msg[..|ErrorPrefix|] == ErrorPrefix && msg[|ErrorPrefix|..] == detail;
    msg
  }

  class PageState {
    var screen: Screen
    var campaigns: seq<Campaign>
    var brandSettings: BrandSettings
    var showSample: bool
    var activeAgentId: Option<string>
    var isGeneratingCampaign: bool
    var isGeneratingGraphics: bool
    var isGeneratingVideo: bool
    var activeCampaign: Option<Campaign>
    var statusMsg: string
    var storage: Storage

    /** No agent call is running. */
    predicate Idle()
      reads this
    {
      !isGeneratingCampaign && !isGeneratingGraphics && !isGeneratingVideo && activeAgentId.None?
    }

    /** The stored list is the list in memory, whenever there is a store. */
    predicate Persisted()
      reads this
    {
      storage.Storage? ==> LoadCampaigns(storage) == campaigns
    }

    /** The first render: everything empty, before the stored values are read. */
    constructor(st: Storage)
      ensures screen == Dashboard && campaigns == [] && brandSettings == DefaultBrand()
      ensures !showSample && activeCampaign == None && statusMsg == "" && storage == st
      ensures Idle()
    {
      screen := Dashboard;
      campaigns := [];
      brandSettings := DefaultBrand();
      showSample := false;
      activeAgentId := None;
      isGeneratingCampaign := false;
      isGeneratingGraphics := false;
      isGeneratingVideo := false;
      activeCampaign := None;
      statusMsg := "";
      storage := st;
    }

    /** The mount effect: the list and the brand settings are read from the store. */
    method Mount()
      modifies this
      ensures campaigns == LoadCampaigns(storage) && brandSettings == LoadBrandSettings(storage)
      ensures storage == old(storage) && screen == old(screen) && activeCampaign == old(activeCampaign)
      ensures statusMsg == old(statusMsg) && showSample == old(showSample)
      ensures activeAgentId == old(activeAgentId) && isGeneratingCampaign == old(isGeneratingCampaign)
      ensures isGeneratingGraphics == old(isGeneratingGraphics) && isGeneratingVideo == old(isGeneratingVideo)
      ensures Persisted()
    {
      campaigns := LoadCampaigns(storage);
      brandSettings := LoadBrandSettings(storage);
    }

    /**
     * `updateCampaign`: every entry with the same id is replaced and the list saved, and
     * the value becomes the active campaign whether or not an entry had its id.
     */
    method UpdateCampaign(updated: Campaign)
      modifies this
      ensures campaigns == ReplaceById(old(campaigns), updated)
      ensures storage == SaveCampaigns(old(storage), campaigns)
      ensures activeCampaign == Some(updated)
      ensures updated in campaigns <==> updated.id in Ids(old(campaigns))
      ensures Persisted()
      ensures screen == old(screen) && statusMsg == old(statusMsg) && brandSettings == old(brandSettings)
      ensures showSample == old(showSample) && activeAgentId == old(activeAgentId)
      ensures isGeneratingCampaign == old(isGeneratingCampaign)
      ensures isGeneratingGraphics == old(isGeneratingGraphics) && isGeneratingVideo == old(isGeneratingVideo)
    {
      var next := ReplaceById(campaigns, updated);
      storage := SaveCampaigns(storage, next);
      campaigns := next;
      activeCampaign := Some(updated);
      ReplaceByIdMembership(old(campaigns), updated);
      if storage.Storage? {
        CampaignsRoundTrip(old(storage), next);
      }
    }

    /**
     * `handleGenerateCampaign` up to its agent call: the campaign flag and the agent
     * indicator are set, the builder is shown with an empty status line, and the create
     * prompt is built from the form and the current brand settings.
     */
    method StartCampaign(form: FormData) returns (message: string, agent: string)
      modifies this
      ensures message == CreatePrompt(form, brandSettings) && agent == OrchestratorAgent
      ensures isGeneratingCampaign && activeAgentId == Some(OrchestratorAgent)
      ensures screen == Builder && statusMsg == ""
      ensures campaigns == old(campaigns) && storage == old(storage) && activeCampaign == old(activeCampaign)
      ensures brandSettings == old(brandSettings) && showSample == old(showSample)
      ensures isGeneratingGraphics == old(isGeneratingGraphics) && isGeneratingVideo == old(isGeneratingVideo)
    {
      isGeneratingCampaign := true;
      activeAgentId := Some(OrchestratorAgent);
      screen := Builder;
      statusMsg := "";
      message := CreatePrompt(form, brandSettings);
      agent := OrchestratorAgent;
    }

    /**
     * `handleGenerateCampaign` after its agent call: on success the new campaign goes to
     * the front of the list and opens for review, otherwise the builder stays open with
     * the error. The flag and the agent indicator are cleared on every path.
     */
    method FinishCampaign(form: FormData, id: string, createdAt: string, outcome: AgentOutcome)
      modifies this
      ensures outcome.Succeeded? ==>
        var c := BuildCampaign(form, outcome.parsed, id, createdAt);
        && campaigns == [c] + old(campaigns)
        && storage == SaveCampaigns(old(storage), campaigns)
        && activeCampaign == Some(c)
        && screen == Review
        && statusMsg == CampaignCreated
      ensures !outcome.Succeeded? ==>
        && campaigns == old(campaigns) && storage == old(storage)
        && activeCampaign == old(activeCampaign)
        && screen == Builder
        && statusMsg == ErrorStatus(outcome, CampaignFailed)
      ensures !isGeneratingCampaign && activeAgentId == None
      ensures brandSettings == old(brandSettings) && showSample == old(showSample)
      ensures isGeneratingGraphics == old(isGeneratingGraphics) && isGeneratingVideo == old(isGeneratingVideo)
    {
      match outcome {
        case Succeeded(parsed, _) =>
          var c := BuildCampaign(form, parsed, id, createdAt);
          var next := [c] + campaigns;
          storage := SaveCampaigns(storage, next);
          campaigns := next;
          activeCampaign := Some(c);
          screen := Review;
          statusMsg := CampaignCreated;
        case Failed(_) =>
          statusMsg := ErrorStatus(outcome, CampaignFailed);
          screen := Builder;
        case Threw(_) =>
          statusMsg := ErrorStatus(outcome, CampaignFailed);
          screen := Builder;
      }
      isGeneratingCampaign := false;
      activeAgentId := None;
    }

    /**
     * `handleGenerateGraphics` up to its agent call: without a captured campaign nothing
     * happens and no request is made; otherwise the graphics flag and the agent indicator
     * are set and the status line is emptied.
     */
    method StartGraphics(prompt: string, captured: Option<Campaign>) returns (request: Option<(string, string)>)
      modifies this
      ensures captured.None? ==> request == None && unchanged(this)
      ensures captured.Some? ==>
        && request == Some((prompt, GraphicDesignerAgent))
        && isGeneratingGraphics && activeAgentId == Some(GraphicDesignerAgent) && statusMsg == ""
      ensures campaigns == old(campaigns) && storage == old(storage) && activeCampaign == old(activeCampaign)
      ensures screen == old(screen) && brandSettings == old(brandSettings) && showSample == old(showSample)
      ensures isGeneratingCampaign == old(isGeneratingCampaign) && isGeneratingVideo == old(isGeneratingVideo)
    {
      if captured.None? {
        return None;
      }
      request := Some((prompt, GraphicDesignerAgent));
      isGeneratingGraphics := true;
      activeAgentId := Some(GraphicDesignerAgent);
      statusMsg := "";
    }

    /**
     * `handleGenerateGraphics` after its agent call, for the campaign the handler holds: on
     * success one graphic per artifact file is appended to it and the result is stored
     * through `UpdateCampaign`. The flag and the agent indicator are cleared.
     */
    method FinishGraphics(captured: Campaign, outcome: AgentOutcome)
      modifies this
      ensures outcome.Succeeded? ==>
        var u := WithGraphics(captured, GraphicsFor(outcome.artifactFiles.AsList(), outcome.parsed));
        && campaigns == ReplaceById(old(campaigns), u)
        && storage == SaveCampaigns(old(storage), campaigns)
        && activeCampaign == Some(u)
        && statusMsg == GraphicsCreated
      ensures !outcome.Succeeded? ==>
        && campaigns == old(campaigns) && storage == old(storage) && activeCampaign == old(activeCampaign)
        && statusMsg == ErrorStatus(outcome, GraphicsFailed)
      ensures !isGeneratingGraphics && activeAgentId == None
      ensures screen == old(screen) && brandSettings == old(brandSettings) && showSample == old(showSample)
      ensures isGeneratingCampaign == old(isGeneratingCampaign) && isGeneratingVideo == old(isGeneratingVideo)
    {
      match outcome {
        case Succeeded(parsed, files) =>
          UpdateCampaign(WithGraphics(captured, GraphicsFor(files.AsList(), parsed)));
          statusMsg := GraphicsCreated;
        case Failed(_) =>
          statusMsg := ErrorStatus(outcome, GraphicsFailed);
        case Threw(_) =>
          statusMsg := ErrorStatus(outcome, GraphicsFailed);
      }
      isGeneratingGraphics := false;
      activeAgentId := None;
    }

    /** `handleGenerateVideo` up to its agent call; see `StartGraphics`. */
    method StartVideo(prompt: string, captured: Option<Campaign>) returns (request: Option<(string, string)>)
      modifies this
      ensures captured.None? ==> request == None && unchanged(this)
      ensures captured.Some? ==>
        && request == Some((prompt, VideoBriefAgent))
        && isGeneratingVideo && activeAgentId == Some(VideoBriefAgent) && statusMsg == ""
      ensures campaigns == old(campaigns) && storage == old(storage) && activeCampaign == old(activeCampaign)
      ensures screen == old(screen) && brandSettings == old(brandSettings) && showSample == old(showSample)
      ensures isGeneratingCampaign == old(isGeneratingCampaign) && isGeneratingGraphics == old(isGeneratingGraphics)
    {
      if captured.None? {
        return None;
      }
      request := Some((prompt, VideoBriefAgent));
      isGeneratingVideo := true;
      activeAgentId := Some(VideoBriefAgent);
      statusMsg := "";
    }

    /**
     * `handleGenerateVideo` after its agent call, for the campaign the handler holds: on
     * success its video brief is replaced as a whole and the result stored through
     * `UpdateCampaign`. The flag and the agent indicator are cleared.
     */
    method FinishVideo(captured: Campaign, outcome: AgentOutcome)
      modifies this
      ensures outcome.Succeeded? ==>
        var u := WithVideoBrief(captured, BriefFrom(outcome.parsed));
        && campaigns == ReplaceById(old(campaigns), u)
        && storage == SaveCampaigns(old(storage), campaigns)
        && activeCampaign == Some(u)
        && statusMsg == VideoCreated
      ensures !outcome.Succeeded? ==>
        && campaigns == old(campaigns) && storage == old(storage) && activeCampaign == old(activeCampaign)
        && statusMsg == ErrorStatus(outcome, VideoFailed)
      ensures !isGeneratingVideo && activeAgentId == None
      ensures screen == old(screen) && brandSettings == old(brandSettings) && showSample == old(showSample)
      ensures isGeneratingCampaign == old(isGeneratingCampaign) && isGeneratingGraphics == old(isGeneratingGraphics)
    {
      match outcome {
        case Succeeded(parsed, _) =>
          UpdateCampaign(WithVideoBrief(captured, BriefFrom(parsed)));
          statusMsg := VideoCreated;
        case Failed(_) =>
          statusMsg := ErrorStatus(outcome, VideoFailed);
        case Threw(_) =>
          statusMsg := ErrorStatus(outcome, VideoFailed);
      }
      isGeneratingVideo := false;
      activeAgentId := None;
    }

    /** `handleSelectCampaign`: any campaign, listed or not, becomes the active one. */
    method SelectCampaign(c: Campaign)
      modifies this
      ensures activeCampaign == Some(c) && screen == Review
      ensures campaigns == old(campaigns) && storage == old(storage) && statusMsg == old(statusMsg)
      ensures brandSettings == old(brandSettings) && showSample == old(showSample)
      ensures activeAgentId == old(activeAgentId) && isGeneratingCampaign == old(isGeneratingCampaign)
      ensures isGeneratingGraphics == old(isGeneratingGraphics) && isGeneratingVideo == old(isGeneratingVideo)
    {
      activeCampaign := Some(c);
      screen := Review;
    }

    /**
     * `handleUpdateContentBlock`: copies the captured campaign's blocks into a fresh array,
     * overwrites block `index` in place when it exists, and stores the result.
     */
    method UpdateContentBlock(captured: Option<Campaign>, index: int, body: string)
      modifies this
      ensures captured.None? ==> unchanged(this)
      ensures captured.Some? ==>
        var u := WithEditedBlock(captured.value, index, body);
        && campaigns == ReplaceById(old(campaigns), u)
        && storage == SaveCampaigns(old(storage), campaigns)
        && activeCampaign == Some(u)
      ensures screen == old(screen) && statusMsg == old(statusMsg) && brandSettings == old(brandSettings)
      ensures showSample == old(showSample) && activeAgentId == old(activeAgentId)
      ensures isGeneratingCampaign == old(isGeneratingCampaign)
      ensures isGeneratingGraphics == old(isGeneratingGraphics) && isGeneratingVideo == old(isGeneratingVideo)
    {
      if captured.None? {
        return;
      }
      var c := captured.value;
      var xs := c.contentBlocks.AsList();
      var blocks := new ContentBlock[|xs|](i requires 0 <= i < |xs| => xs[i]);
      assert blocks[..] == xs;
      if 0 <= index < blocks.Length {
        blocks[index] := blocks[index].(body := body, wordCount := WordCount(body));
      }
      assert blocks[..] == EditBlocks(xs, index, body);
      UpdateCampaign(c.(contentBlocks := Arr(blocks[..])));
    }

    /** `handleExport`: the download name of the active campaign, if there is one. */
    method ExportName() returns (name: Option<string>)
      ensures activeCampaign.None? ==> name == None
      ensures activeCampaign.Some? ==> name == Some(ExportFileName(activeCampaign.value.name))
      ensures name.Some? ==> EndsWith(name.value, ExportSuffix)
    {
      if activeCampaign.None? {
        return None;
      }
      name := Some(ExportFileName(activeCampaign.value.name));
    }

    /** `handleSaveBrand`: the current settings are written to the store. */
    method SaveBrand()
      modifies this
      ensures storage == SaveBrandSettings(old(storage), brandSettings)
      ensures storage.Storage? ==> LoadBrandSettings(storage) == brandSettings
      ensures LoadCampaigns(storage) == LoadCampaigns(old(storage))
      ensures campaigns == old(campaigns) && brandSettings == old(brandSettings) && screen == old(screen)
      ensures activeCampaign == old(activeCampaign) && statusMsg == old(statusMsg) && showSample == old(showSample)
      ensures activeAgentId == old(activeAgentId) && isGeneratingCampaign == old(isGeneratingCampaign)
      ensures isGeneratingGraphics == old(isGeneratingGraphics) && isGeneratingVideo == old(isGeneratingVideo)
    {
      if storage.Storage? {
        BrandRoundTrip(storage, brandSettings);
      }
      storage := SaveBrandSettings(storage, brandSettings);
    }

    /** The settings form's `onUpdate`: the whole record is replaced in memory only. */
    method SetBrandSettings(b: BrandSettings)
      modifies this
      ensures brandSettings == b
      ensures storage == old(storage) && campaigns == old(campaigns) && screen == old(screen)
      ensures activeCampaign == old(activeCampaign) && statusMsg == old(statusMsg) && showSample == old(showSample)
      ensures activeAgentId == old(activeAgentId) && isGeneratingCampaign == old(isGeneratingCampaign)
      ensures isGeneratingGraphics == old(isGeneratingGraphics) && isGeneratingVideo == old(isGeneratingVideo)
    {
      brandSettings := b;
    }

    /** The status banner's dismiss button. */
    method DismissStatus()
      modifies this
      ensures statusMsg == ""
      ensures storage == old(storage) && campaigns == old(campaigns) && brandSettings == old(brandSettings)
      ensures activeCampaign == old(activeCampaign) && screen == old(screen) && showSample == old(showSample)
      ensures activeAgentId == old(activeAgentId) && isGeneratingCampaign == old(isGeneratingCampaign)
      ensures isGeneratingGraphics == old(isGeneratingGraphics) && isGeneratingVideo == old(isGeneratingVideo)
    {
      statusMsg := "";
    }

    /** The sidebar's and the dashboard's navigation. */
    method Navigate(s: Screen)
      modifies this
      ensures screen == s
      ensures storage == old(storage) && campaigns == old(campaigns) && brandSettings == old(brandSettings)
      ensures activeCampaign == old(activeCampaign) && statusMsg == old(statusMsg) && showSample == old(showSample)
      ensures activeAgentId == old(activeAgentId) && isGeneratingCampaign == old(isGeneratingCampaign)
      ensures isGeneratingGraphics == old(isGeneratingGraphics) && isGeneratingVideo == old(isGeneratingVideo)
    {
      screen := s;
    }

    /** The dashboard's sample switch. */
    method SetShowSample(v: bool)
      modifies this
      ensures showSample == v
      ensures storage == old(storage) && campaigns == old(campaigns) && brandSettings == old(brandSettings)
      ensures activeCampaign == old(activeCampaign) && statusMsg == old(statusMsg) && screen == old(screen)
      ensures activeAgentId == old(activeAgentId) && isGeneratingCampaign == old(isGeneratingCampaign)
      ensures isGeneratingGraphics == old(isGeneratingGraphics) && isGeneratingVideo == old(isGeneratingVideo)
    {
      showSample := v;
    }
  }

  /** A fresh page on which one campaign has been generated: it is the list and it is open. */
  method GeneratedPage(st: Storage, form: FormData, id: string, createdAt: string, reply: Parsed)
    returns (page: PageState)
    ensures page.campaigns == [BuildCampaign(form, reply, id, createdAt)]
    ensures page.activeCampaign == Some(BuildCampaign(form, reply, id, createdAt))
    ensures page.screen == Review && page.Idle()
  {
    page := new PageState(st);
    var _, _ := page.StartCampaign(form);
    page.FinishCampaign(form, id, createdAt, Succeeded(reply, NotArray));
    assert page.campaigns == [BuildCampaign(form, reply, id, createdAt)] + [];
  }

  /**
   * With campaign `c` listed and open, the graphics and the video generation are started
   * back to back, so both handlers hold `c` as it is. The graphics reply arrives first and
   * its graphics are stored; the agent indicator goes off although the video call is still
   * running. The video reply then stores `c` with its brief and without those graphics, in
   * the list and as the active campaign.
   */
  method StaleCaptureScenario(page: PageState, c: Campaign, files: seq<ArtifactFile>,
      graphicsReply: Parsed, videoReply: Parsed)
    returns (graphicsStored: nat, videoRunning: bool, indicator: Option<string>)
    requires page.campaigns == [c] && page.activeCampaign == Some(c)
    requires c.graphics == Arr([]) && files != []
    modifies page
    ensures graphicsStored == |files|
    ensures videoRunning && indicator == None
    ensures page.campaigns == [WithVideoBrief(c, BriefFrom(videoReply))]
    ensures page.activeCampaign == Some(WithVideoBrief(c, BriefFrom(videoReply)))
    ensures page.activeCampaign.value.graphics == Arr([])
  {
    var held := page.activeCampaign;
    var _ := page.StartGraphics("", held);
    var _ := page.StartVideo("", held);
    page.FinishGraphics(c, Succeeded(graphicsReply, Arr(files)));
    var g := WithGraphics(c, GraphicsFor(files, graphicsReply));
    assert page.campaigns == ReplaceById([c], g);
    graphicsStored := |page.campaigns[0].graphics.AsList()|;
    videoRunning := page.isGeneratingVideo;
    indicator := page.activeAgentId;
    page.FinishVideo(c, Succeeded(videoReply, NotArray));
    assert page.campaigns == ReplaceById([g], WithVideoBrief(c, BriefFrom(videoReply)));
  }

  /**
   * With the sample switch on, a sample campaign is opened and one of its blocks edited.
   * No stored campaign has its id, so the list is saved unchanged while the edited sample
   * stays active: the active campaign is one the list does not hold.
   */
  method SampleEditScenario(st: Storage, index: int, body: string) returns (page: PageState)
    requires SampleCampaigns[0].id !in Ids(LoadCampaigns(st))
    ensures page.campaigns == LoadCampaigns(st)
    ensures page.activeCampaign == Some(WithEditedBlock(SampleCampaigns[0], index, body))
    ensures page.activeCampaign.value !in page.campaigns
  {
    page := new PageState(st);
    page.Mount();
    page.SetShowSample(true);
    page.SelectCampaign(SampleCampaigns[0]);
    page.UpdateContentBlock(page.activeCampaign, index, body);
    ReplaceByIdAbsent(LoadCampaigns(st), WithEditedBlock(SampleCampaigns[0], index, body));
  }
}
