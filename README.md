# Marketing campaign studio — a Dafny model

This project models the campaign store behind a single-page marketing app. The store
keeps a list of campaigns in browser storage and drives three generation workflows
through remote agents:

- **create a campaign:** from the builder form;
- **add graphics:** to the open campaign;
- **add a video brief:** to the open campaign.

It also models the screens that read and edit that state:

- **the dashboard:** search, status filter and headline statistics;
- **the builder form:** platform chips, the keyword list and the submit guard;
- **the review screen:** markdown-like rendering of block bodies, bold spans, hashtags, the score colour, expanded and editing state, and default prompts.

Module layout:

- `js_values.dfy` (`JsValues`): optional values, and lists that may be a non-array at run time.
- `text.dfy` (`Text`): the JavaScript string operations the components use:
  - `trim` and `toLowerCase`;
  - `includes`;
  - `split` on a line break, on whitespace runs and on comma/whitespace runs;
  - `replace(/\s+/g, '_')`;
  - a first-occurrence `replace`.
- `sequences.dfy` (`Sequences`): `filter` by value, subsequences, lists without duplicates.
- `campaign_types.dfy` (`CampaignTypes`): the records the store holds, and the agent reply after JSON normalisation.
- `persistence.dfy` (`Persistence`): the two storage keys, their load defaults and the save/load round trips.
- `prompt.dfy` (`PromptText`, `Prompt`): the orchestrator prompt and its line-by-line layout.
- `records.dfy` (`Records`): the pure parts of the handlers:
  - building a campaign from a reply;
  - the graphics append and the video replace;
  - the block edit;
  - replacement by id;
  - the export file name.
- `page.dfy` (`Page`): the page state as a class. Each generation handler is split at its agent call into a start method and a finish method, so calls can interleave. Agent outcomes, ids and dates are parameters.
- `dashboard.dfy`, `builder.dfy`, `review.dfy`: the three components. The builder's and the review screen's local state are classes.

Three behaviours of the code are modelled as they are written.

- **Stale merge.** The graphics and video handlers merge their result into the active campaign as it was when the handler was last created, not into its value when the reply arrives. In the model, that captured value is the `captured` parameter. `Page.StaleCaptureScenario` shows a graphics result being dropped by a later video result.
- **Shared agent indicator.** The first call to finish clears the agent indicator that all three calls share, even while another call is still running. `Page.StaleCaptureScenario` shows this too.
- **List and active campaign can diverge.** `updateCampaign` sets the active campaign even when no list entry has its id, so the two can diverge. `Page.PageState.UpdateCampaign` states when they agree. `Page.SampleEditScenario` shows an edited sample campaign that is active but absent from the list.

## Model

| member | source | states |
|---|---|---|
| Persistence.DefaultBrand | app/page.tsx:70 | every brand field defaults to the empty string |
| Persistence.LoadCampaigns | app/page.tsx:52-62 | the stored list when the key holds an array, otherwise the empty list (no storage, missing key, unparsable or non-array value) |
| Persistence.MergeBrand | app/page.tsx:74 | each stored brand field overrides its default, each missing one stays empty |
| Persistence.LoadBrandSettings | app/page.tsx:69-77 | the stored fields over the defaults when the key holds an object, otherwise the defaults |
| Persistence.SaveCampaigns | app/page.tsx:64-67 | writing the list keeps storage present or absent and leaves the brand key's value unchanged |
| Persistence.SaveBrandSettings | app/page.tsx:79-82 | writing the brand keeps storage present or absent and leaves the campaign list unchanged |
| Persistence.CampaignsRoundTrip | app/page.tsx:52-67 | loading after saving a list gives that list back |
| Persistence.BrandRoundTrip | app/page.tsx:69-82 | loading after saving brand settings gives those settings back |
| Persistence.NoStorageDefaults | app/page.tsx:53 | without storage, saves are lost and loads give the empty list and the default brand |
| Prompt.CreatePrompt | app/page.tsx:121-130 | the message opens with the header line and closes with a blank line and the closing request |
| Prompt.TemplateLines | app/page.tsx:121-130 | ten template lines: the header and the six field lines, the competitor/brand line, a blank line and the closing request |
| Prompt.FieldLines | app/page.tsx:121-127 | seven lines: the header, then lines ending with the objective, audience, industry, voice, and the platforms and keywords joined by ", " |
| Prompt.CompetitorLine | app/page.tsx:128 | empty exactly when no URLs were given, otherwise ending with the URLs |
| Prompt.BrandLine | app/page.tsx:117-118 | the brand line contains the brand name |
| Prompt.BrandContext | app/page.tsx:116-119 | empty exactly without a brand name, otherwise a line break followed by the brand line |
| Prompt.JoinHeadLine | app/page.tsx:121-130 | a join of two parts or more opens with the first part and a separator |
| Prompt.JoinLastTwo | app/page.tsx:121-130 | a join of three parts or more closes with a separator, the last but one part, a separator and the last part |
| Prompt.PromptLayout | app/page.tsx:117-130 | split at line breaks, the prompt is the header, the six brief fields in order with lists joined by ", ", the competitor line (empty exactly when no URLs were given), the brand line exactly when a brand name is set, a blank line and the closing request |
| Prompt.PromptSplitsIntoLines | app/page.tsx:117-130 | with single-line inputs, the prompt split at line breaks is exactly its list of lines |
| Prompt.PromptMentionsObjective | app/page.tsx:121-122 | the prompt contains the objective as typed |
| Prompt.PromptMentionsBrand | app/page.tsx:117-119 | with a brand name set, the prompt contains it |
| Prompt.SplitJoinedLines | app/page.tsx:121-130 | single-line pieces joined with line breaks split back into those pieces |
| Prompt.JoinBrokenLine | app/page.tsx:128 | a piece holding an embedded line break joins to the same text as the two lines it holds |
| Prompt.PromptLinesSingle | app/page.tsx:117-130 | with single-line inputs, every prompt line is a single line |
| Prompt.FieldLinesSingle | app/page.tsx:121-127 | with single-line brief fields, the header and field lines are single lines |
| Prompt.JoinSingleLine | app/page.tsx:126-127 | joining single-line items with a single-line separator gives a single line |
| Prompt.JoinContainsLine | app/page.tsx:121-130 | each joined piece occurs in the joined text |
| Prompt.JoinContainsPart | app/page.tsx:121-130 | any part of a joined piece occurs in the joined text |
| PromptText.FixedLinesSingle | app/page.tsx:121-130 | the template's fixed header and closing request contain no line break |
| PromptText.SingleLineConcat | app/page.tsx:121-130 | two texts without a line break concatenate to one without |
| Records.BuildCampaign | app/page.tsx:138-154 | the new campaign has the given id and date and status "active"; its name is the reply's title or else the first 50 characters of the objective; it copies the brief fields; its blocks are the reply's array or none; it has the reply's SEO analysis, no graphics and no video brief |
| Records.GraphicsFor | app/page.tsx:186-196 | one graphic per artifact file, in order, each with the file's URL or "" and the reply's description, notes, platform and dimensions, each defaulting to "" |
| Records.WithGraphics | app/page.tsx:198-201 | the graphics become the old list (or none if it is not an array) followed by the new ones; the old graphics are a prefix; nothing else changes |
| Records.GraphicsAppendTwice | app/page.tsx:198-201 | two appends equal one append of both batches, and the count adds up |
| Records.BriefFrom | app/page.tsx:227-235 | each brief field is the reply's value or its default ("Untitled Video" for the title, "" for the others, no scenes for a non-array) |
| Records.BriefOfEmptyReply | app/page.tsx:227-235 | an empty reply gives the all-defaults brief |
| Records.WithVideoBrief | app/page.tsx:237 | the video brief is replaced as a whole and nothing else changes |
| Records.VideoReplaceTwice | app/page.tsx:237 | two successive briefs leave exactly the second |
| Records.StaleMergeDropsGraphics | app/page.tsx:198-200 | a brief merged into the pre-graphics value loses the appended graphics; merged into the post-graphics value it keeps them |
| Records.EditBlocks | app/page.tsx:258-261 | same length; an existing block at the index gets the new body and its word count; every other block is unchanged; an index outside the list changes nothing |
| Records.EditedWordCount | app/page.tsx:260 | the edited block's word count is the number of whitespace-separated words, and it is zero exactly when the body is blank |
| Records.WithEditedBlock | app/page.tsx:256-262 | only the content blocks change, to the edited copy |
| Records.Ids | app/page.tsx:104 | the ids of the list, position by position |
| Records.ReplaceById | app/page.tsx:104 | same length and ids; entries with the updated id become the update and the others are kept |
| Records.ReplaceByIdMembership | app/page.tsx:102-109 | the update ends up in the list exactly when some entry already had its id |
| Records.ReplaceByIdAbsent | app/page.tsx:102-109 | an update whose id is not listed leaves the list unchanged |
| Records.ReplaceByIdTwice | app/page.tsx:102-109 | replacing twice under one id equals replacing once with the later value |
| Records.PrependFreshId | app/page.tsx:156-160 | putting a campaign with a new id in front keeps ids distinct |
| Records.ExportFileName | app/page.tsx:273 | the file name is the pieces of the name between its whitespace runs joined by "_", then "_campaign.json"; it ends with the suffix and contains no whitespace |
| Records.ExportFileNameLetters | app/page.tsx:273 | the characters of the name other than whitespace and underscores survive in order, followed by those of the suffix |
| Records.ExportNameVerbatim | app/page.tsx:273 | a name without whitespace is used as is |
| Records.LettersAppend | app/page.tsx:273 | the characters other than whitespace and underscores of a concatenation are those of each part in turn |
| Page.ErrorStatus | app/page.tsx:165-169 | the status starts with "Error: " followed by the reported error or the fallback, or by the thrown message or "Unexpected error" |
| Page.PageState.constructor | app/page.tsx:85-95 | the dashboard screen, no campaigns, default brand, no sample, no active campaign, empty status, nothing running |
| Page.PageState.Mount | app/page.tsx:97-100 | the list and the brand settings become the ones storage loads, nothing is written, and every other field is unchanged |
| Page.PageState.UpdateCampaign | app/page.tsx:102-109 | the list is replaced by id and saved; the update becomes active; it is in the list exactly when its id was; nothing else changes |
| Page.PageState.StartCampaign | app/page.tsx:111-133 | the campaign flag and the orchestrator indicator are set, the builder shows an empty status, and the request is the create prompt for the current brand settings; the list, store and active campaign are untouched |
| Page.PageState.FinishCampaign | app/page.tsx:134-175 | on success, the new campaign is prepended, saved, made active and opened for review with the success message. Otherwise the list, store and active campaign are unchanged and the builder shows the error. The flag and the agent indicator are cleared on every path |
| Page.PageState.StartGraphics | app/page.tsx:177-184 | without a captured campaign there is no request and nothing changes; otherwise the designer agent is asked, the graphics flag and indicator are set and the status emptied |
| Page.PageState.FinishGraphics | app/page.tsx:185-212 | on success, the captured campaign is stored with the new graphics appended, with the success message; on failure only the status changes. The flag and the indicator are cleared |
| Page.PageState.StartVideo | app/page.tsx:215-222 | without a captured campaign there is no request and nothing changes; otherwise the video agent is asked, the video flag and indicator are set and the status emptied |
| Page.PageState.FinishVideo | app/page.tsx:223-248 | on success, the captured campaign is stored with the new brief; on failure only the status changes. The flag and the indicator are cleared |
| Page.PageState.SelectCampaign | app/page.tsx:251-254 | any campaign becomes active and the review screen opens; nothing else changes |
| Page.PageState.UpdateContentBlock | app/page.tsx:256-264 | a no-op without a captured campaign; otherwise the captured campaign with the edited block is stored and made active |
| Page.PageState.ExportName | app/page.tsx:266-276 | no file without an active campaign; otherwise the export name of its name |
| Page.PageState.SaveBrand | app/page.tsx:278-282 | the settings are written; reading them back gives the same settings; the stored list is untouched |
| Page.PageState.SetBrandSettings | app/page.tsx:335 | the settings are replaced in memory only |
| Page.PageState.DismissStatus | app/page.tsx:293 | the status line is cleared and nothing else changes |
| Page.PageState.Navigate | app/page.tsx:287 | only the screen changes |
| Page.PageState.SetShowSample | app/page.tsx:303 | only the sample switch changes |
| Page.GeneratedPage | app/page.tsx:111-175 | after one successful generation on a fresh page, the list is that campaign alone, it is open for review and nothing is running |
| Page.StaleCaptureScenario | app/page.tsx:177-249 | after graphics and video are started back to back on a campaign and both replies succeed, graphics first, the graphics (one per file) are gone from the list and the active campaign, and the agent indicator was already off while the video call ran |
| Page.SampleEditScenario | app/page.tsx:251-264 | after a sample campaign is opened and edited, the list is still the stored one while the edited sample is active and not in it |
| Dashboard.DisplayCampaigns | app/sections/CampaignDashboard.tsx:48 | the four samples when the switch is on, otherwise the real list |
| Dashboard.Matches | app/sections/CampaignDashboard.tsx:49-53 | a match needs a query no longer than the name, and a status equal to the chosen one unless "all" is chosen |
| Dashboard.ToLowerIdempotent | app/sections/CampaignDashboard.tsx:50 | lower-casing a lower-cased text changes nothing |
| Dashboard.MatchesIgnoresCase | app/sections/CampaignDashboard.tsx:50 | a query matches exactly when its lower-cased form matches |
| Dashboard.FilteredMultiplicity | app/sections/CampaignDashboard.tsx:49-53 | a matching campaign is shown as many times as the list holds it, any other not at all |
| Dashboard.Filtered | app/sections/CampaignDashboard.tsx:49-53 | an order-keeping subsequence holding exactly the entries whose lower-cased name contains the lower-cased query and whose status matches (or the filter is "all") |
| Dashboard.FilteredShowsAll | app/sections/CampaignDashboard.tsx:45-53 | the initial empty query with "all" shows every campaign in order |
| Dashboard.FilteredConcat | app/sections/CampaignDashboard.tsx:49-53 | filtering distributes over concatenation |
| Dashboard.ContainsEmpty | app/sections/CampaignDashboard.tsx:50 | every name contains the empty query |
| Dashboard.ActiveCount | app/sections/CampaignDashboard.tsx:55 | the active count is at most the number of campaigns |
| Dashboard.ActiveCountIsFiltered | app/sections/CampaignDashboard.tsx:55 | the active count equals the length of the list the "active" filter shows |
| Dashboard.TotalContent | app/sections/CampaignDashboard.tsx:56 | every campaign's block count is within the total |
| Dashboard.TotalContentConcat | app/sections/CampaignDashboard.tsx:56 | the block total is additive over concatenation |
| Dashboard.TotalContentZeroIff | app/sections/CampaignDashboard.tsx:56 | the total is zero exactly when no campaign holds a block (non-arrays count as none) |
| Dashboard.HasScore | app/sections/CampaignDashboard.tsx:57 | a score is truthy exactly when the score read with `?? 0` is not 0 |
| Dashboard.Score | app/sections/CampaignDashboard.tsx:58 | a missing analysis or a missing score reads as 0 |
| Dashboard.ScoreSum | app/sections/CampaignDashboard.tsx:58 | campaigns without a truthy score add nothing to the sum |
| Dashboard.ScoreSumConcat | app/sections/CampaignDashboard.tsx:58 | the sum is additive over concatenation |
| Dashboard.ScoredMultiplicity | app/sections/CampaignDashboard.tsx:57 | a scored campaign takes part as many times as the list holds it, any other not at all |
| Dashboard.ScoredCampaigns | app/sections/CampaignDashboard.tsx:57 | exactly the campaigns with a truthy score, in order |
| Dashboard.RoundDiv | app/sections/CampaignDashboard.tsx:58 | the quotient rounded half up |
| Dashboard.RoundDivBounds | app/sections/CampaignDashboard.tsx:58 | rounding the mean of values within 0..hi stays within 0..hi |
| Dashboard.AverageSeo | app/sections/CampaignDashboard.tsx:57-59 | 0 without a scored campaign, otherwise the mean of the truthy scores rounded half up |
| Dashboard.ScoreSumBounds | app/sections/CampaignDashboard.tsx:58 | scores in 0..100 keep the sum in 0..100 per campaign |
| Dashboard.AverageSeoBounds | app/sections/CampaignDashboard.tsx:57-59 | scores in 0..100 keep the average in 0..100 |
| Dashboard.UnscoredIgnored | app/sections/CampaignDashboard.tsx:57-58 | a campaign without a score, or with score 0, does not move the average |
| Dashboard.StatusColor | app/sections/CampaignDashboard.tsx:61-65 | the active tone exactly for "active", the complete tone exactly for "complete", muted otherwise |
| Dashboard.SampleActiveCount | app/sections/CampaignDashboard.tsx:37-42 | the samples hold two active campaigns |
| Dashboard.SampleTotalContent | app/sections/CampaignDashboard.tsx:37-42 | the samples hold four content blocks |
| Dashboard.SampleScored | app/sections/CampaignDashboard.tsx:37-42 | three samples carry a score, all but the holiday series |
| Dashboard.SampleAverageSeo | app/sections/CampaignDashboard.tsx:37-42 | the samples average 83 |
| Builder.CanSubmit | app/sections/CampaignBuilder.tsx:75 | generating is enabled exactly when the objective and the audience are not all whitespace and a platform is chosen |
| Builder.InitialForm | app/sections/CampaignBuilder.tsx:43-51 | an empty brief whose industry and voice come from the brand settings |
| Builder.Toggle | app/sections/CampaignBuilder.tsx:54-61 | the platform's membership flips and other platforms are unaffected; a new one goes at the end; removing keeps the order and shortens the list |
| Builder.ToggleTwice | app/sections/CampaignBuilder.tsx:54-61 | choosing and un-choosing a platform restores the list |
| Builder.ToggleNoDup | app/sections/CampaignBuilder.tsx:54-61 | toggling never creates a duplicate |
| Builder.WithText | app/sections/CampaignBuilder.tsx:126-186 | editing a text field leaves platforms and keywords alone |
| Builder.BuilderForm.constructor | app/sections/CampaignBuilder.tsx:43-52 | the initial form with an empty keyword box, valid |
| Builder.BuilderForm.TogglePlatform | app/sections/CampaignBuilder.tsx:54-61 | the platforms are toggled, the keyword box is kept, validity is kept |
| Builder.BuilderForm.SetKeywordInput | app/sections/CampaignBuilder.tsx:167 | only the keyword box changes |
| Builder.BuilderForm.AddKeyword | app/sections/CampaignBuilder.tsx:63-69 | a trimmed, non-blank, new keyword is appended and the box cleared; otherwise nothing changes; keywords stay distinct and trimmed |
| Builder.BuilderForm.RemoveKeyword | app/sections/CampaignBuilder.tsx:71-73 | every copy of the keyword is removed, the rest keep their order, validity is kept |
| Builder.BuilderForm.EditText | app/sections/CampaignBuilder.tsx:126-186 | one text field is set as typed, validity is kept |
| Builder.BuilderForm.Submit | app/sections/CampaignBuilder.tsx:189 | the form is handed over exactly when objective and audience are not blank and a platform is chosen (the guard at line 75) |
| Review.DigitRun | app/sections/CampaignReview.tsx:99 | the length of the leading run of ASCII digits |
| Review.ClassifyLine | app/sections/CampaignReview.tsx:94-101 | the displayed text is the line minus its heading, bullet or number marker, or the whole line for a paragraph |
| Review.ClassifyHeadings | app/sections/CampaignReview.tsx:95-97 | a level-3, level-2 or level-1 heading exactly when the line starts with "### ", "## " or "# " |
| Review.IsNumbered | app/sections/CampaignReview.tsx:99 | exactly the lines that open with one or more digits, a full stop and a whitespace character |
| Review.DigitRunNumbered | app/sections/CampaignReview.tsx:99 | only the whole leading digit run can precede the full stop of a numbered item |
| Review.ClassifyItems | app/sections/CampaignReview.tsx:98-99 | a bullet exactly for "- " or "* ", a numbered item exactly for digits, a dot and whitespace (headings and bullets aside) |
| Review.ClassifyBlank | app/sections/CampaignReview.tsx:100 | a spacer exactly for an all-whitespace line that is no heading or item |
| Review.RenderMarkdown | app/sections/CampaignReview.tsx:90-105 | nothing for an empty body; otherwise one element per line (line breaks + 1), each line classified |
| Review.RenderSingleLine | app/sections/CampaignReview.tsx:90-105 | a non-empty body without a line break renders as a single element |
| Review.FindClose | app/sections/CampaignReview.tsx:108 | the first "**" after the opening marker with no line terminator before it, or none when a line terminator comes before every later marker |
| Review.FindPair | app/sections/CampaignReview.tsx:108 | the leftmost opening at which a lazy bold pair matches, with the nearest closing marker |
| Review.SplitBold | app/sections/CampaignReview.tsx:108 | an odd number of parts; the bold parts hold no line terminator |
| Review.PairSplit | app/sections/CampaignReview.tsx:108 | cutting both markers of a pair out and putting them back gives the text |
| Review.SplitBoldJoin | app/sections/CampaignReview.tsx:108 | re-inserting the markers between the parts gives the text back |
| Review.SplitBoldSingle | app/sections/CampaignReview.tsx:108-109 | one part exactly when no bold pair matches anywhere |
| Review.FormatInline | app/sections/CampaignReview.tsx:107-111 | the text unchanged when no pair matches; otherwise the parts, alternately plain and bold |
| Review.Hashtags | app/sections/CampaignReview.tsx:225-226 | one tag per non-empty comma/whitespace token, with its first "#" removed |
| Review.HashtagCount | app/sections/CampaignReview.tsx:225 | the number of tags is the number of token ends |
| Review.ScoreColor | app/sections/CampaignReview.tsx:157-161 | emerald from 80, amber from 60 to 79, red below 60 |
| Review.ScoreColorMonotone | app/sections/CampaignReview.tsx:157-161 | a higher score never gets a worse tone |
| Review.ShowsEmptyState | app/sections/CampaignReview.tsx:163 | the empty card exactly when the blocks are a non-array or an empty array and there is no SEO analysis |
| Review.EmptyStateAfterCreate | app/sections/CampaignReview.tsx:163 | a newly created campaign shows the empty state exactly when the reply had no blocks and no SEO analysis |
| Review.PromptOrDefault | app/sections/CampaignReview.tsx:353 | the typed prompt when not empty, otherwise the lead text followed by the campaign name |
| Review.GraphicPrompt | app/sections/CampaignReview.tsx:353 | the typed prompt when not empty, otherwise the request for a marketing graphic followed by the campaign name |
| Review.VideoPrompt | app/sections/CampaignReview.tsx:403 | the typed prompt when not empty, otherwise the request for a video brief followed by the campaign name |
| Review.Toggled | app/sections/CampaignReview.tsx:132-139 | membership of that index flips and no other index changes |
| Review.ToggledTwice | app/sections/CampaignReview.tsx:132-139 | toggling a block twice restores the set |
| Review.BodyAt | app/sections/CampaignReview.tsx:143 | the block's body, or "" for an index without a block |
| Review.ReviewState.constructor | app/sections/CampaignReview.tsx:118-123 | block 0 expanded, no block being edited, empty texts |
| Review.ReviewState.ToggleBlock | app/sections/CampaignReview.tsx:132-139 | the expanded set is toggled at that index, nothing else changes |
| Review.ReviewState.StartEditing | app/sections/CampaignReview.tsx:141-144 | the block is being edited with its body, or "", in the edit box |
| Review.ReviewState.SetEditText | app/sections/CampaignReview.tsx:213 | only the edit box changes |
| Review.ReviewState.SaveEditing | app/sections/CampaignReview.tsx:146-149 | hands over the index and the edit text, then no block is being edited |
| Review.ReviewState.CancelEditing | app/sections/CampaignReview.tsx:216 | no block is being edited, nothing else changes |
| Text.Trim | app/sections/CampaignBuilder.tsx:64 | the result is the text with a whitespace-only prefix and a whitespace-only suffix cut off, and it neither starts nor ends with whitespace |
| Text.TrimStrips | app/sections/CampaignBuilder.tsx:64 | trimming cuts off exactly the leading and the trailing whitespace: the result sits in the text after an all-whitespace prefix and before an all-whitespace suffix |
| Text.TrimEmptyIff | app/sections/CampaignBuilder.tsx:75 | trimming gives "" exactly for an all-whitespace string |
| Text.TrimIdempotent | app/sections/CampaignBuilder.tsx:64 | trimming twice equals trimming once |
| Text.ToLower | app/sections/CampaignDashboard.tsx:50 | the same length; no upper-case ASCII letter is left; each upper-case letter becomes its lower-case letter and every other character stays |
| Text.Prefix | app/page.tsx:143 | all of the text when it has at most n characters, otherwise exactly its first n characters |
| Text.JoinEnds | app/page.tsx:126-127 | a joined text starts with its first part and ends with its last |
| Text.JoinSnoc | app/page.tsx:126-130 | appending a part to a join appends the separator and the part |
| Text.SplitAt | app/sections/CampaignReview.tsx:94 | at least one part; no part holds a separator |
| Text.SplitAtCount | app/sections/CampaignReview.tsx:94 | one more part than separators |
| Text.SplitLinesJoin | app/sections/CampaignReview.tsx:94 | joining the lines with line breaks gives the text back |
| Text.SplitLinesSingle | app/sections/CampaignReview.tsx:94 | a text without a line break is one line |
| Text.SplitLinesConcat | app/sections/CampaignReview.tsx:94 | splitting distributes over a joining line break |
| Text.Tokens | app/sections/CampaignReview.tsx:225 | non-empty tokens without separators |
| Text.TokensCount | app/page.tsx:260 | the token count is the number of token ends |
| Text.TokensConcat | app/page.tsx:260 | the tokens concatenate to the non-separator characters |
| Text.WordCount | app/page.tsx:260 | the word count is the number of positions where a word ends |
| Text.WordCountZeroIff | app/page.tsx:260 | zero words exactly for a blank body |
| Text.ReplaceWhitespaceRuns | app/page.tsx:273 | the result holds no whitespace and is no longer than the input |
| Text.Pieces | app/page.tsx:273 | the pieces between whitespace runs: at least one, the first empty exactly when the text is empty or starts with whitespace |
| Text.PiecesShape | app/page.tsx:273 | no piece holds whitespace, and every piece other than the first and the last is non-empty |
| Text.WhitespaceRuns | app/page.tsx:273 | the runs are non-empty and all whitespace |
| Text.PiecesRebuild | app/page.tsx:273 | one run fewer than pieces, and putting the runs back between the pieces gives the text |
| Text.PiecesUnique | app/page.tsx:273 | any cut of the text into such pieces at such runs is the one `Pieces` gives |
| Text.PiecesWellCut | app/page.tsx:273 | the pieces and runs of a text form such a cut |
| Text.ReplaceJoinsPieces | app/page.tsx:273 | replacing each whitespace run by "_" equals joining the pieces with "_" |
| Text.ReplaceKeepsLetters | app/page.tsx:273 | replacing whitespace runs keeps the characters other than whitespace and underscores in order |
| Text.ReplaceWithoutWhitespace | app/page.tsx:273 | a text without whitespace is unchanged |
| Text.RemoveFirst | app/sections/CampaignReview.tsx:226 | unchanged without the character, one shorter with it, no new characters |
| Text.RemoveFirstAt | app/sections/CampaignReview.tsx:226 | exactly the first occurrence is removed |
| Sequences.Without | app/sections/CampaignBuilder.tsx:72 | every copy of the value is gone, other members stay, order is kept, and the list is shorter exactly when the value was present |
| Sequences.WithoutNoDup | app/sections/CampaignBuilder.tsx:72 | removal keeps a list without duplicates |
| Sequences.WithoutAppended | app/sections/CampaignBuilder.tsx:58-59 | appending an absent value and removing it restores the list |
| Sequences.AppendFreshNoDup | app/sections/CampaignBuilder.tsx:65-66 | appending an absent value keeps a list without duplicates |

## Left out

- The agent gateway and the JSON normaliser are not modelled. Each call's outcome is an input: success with a normalised reply, failure with an optional error, or a thrown error with an optional message. The choice between `response.result` and `response` is part of that input.
- JSON serialisation is left out. Storage holds values directly, and a parse failure is one of the "unreadable" states.
- Failed storage writes are left out: a write to present storage always succeeds.
- Brand keys stored as `null` are left out; a stored brand field is present or missing.
- `Date.now()` and `new Date()` are not modelled: the id and the date are parameters of `Page.PageState.FinishCampaign`.
- Timers, the clipboard, the copy indicator, the brand "saved" flag and its two-second reset, the download itself and the error boundary are user-interface effects with no bearing on the store.
- Asynchronous interleaving is modelled only at the agent calls, each handler being a start step and a finish step. The React closure that holds the active campaign is the `captured` parameter. Batching of state updates and render timing are not modelled.
- Rendering is modelled only through tones and line kinds, not CSS classes and elements. The SEO keywords, tips and competitor gaps are only displayed, so they are left out.
- Content blocks that are not objects are left out; every block is a record.
- `Text.ToLower`: it folds ASCII letters only, not full Unicode case mapping, because Dafny strings carry no Unicode tables.
- Strings are sequences of characters, not UTF-16 code units.
- `Records.ExportFileName`: a campaign name is always a string, so the `'campaign'` fallback for a missing name is left out.
- In the sample campaigns, fields the source leaves out are modelled as empty strings: the blocks' `content_type` and `hashtags`, the second sample's graphic fields other than `file_url`, and its video brief's fields other than `video_title` (its list of scenes is empty). The sample SEO records hold only a score.
- SEO scores are JavaScript numbers, so the sum and the mean in the dashboard are floating-point values before `Math.round`. The model uses unbounded integers: scores are whole numbers and the mean is rounded exactly.
- `Dashboard.ScoreSumBounds` and `Dashboard.AverageSeoBounds` assume scores between 0 and 100. The source does not enforce that range; it only displays scores out of 100.
